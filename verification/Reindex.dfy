/** The embedding index of published tools: its inspection, and the batched reindex that brings it up to date. */
module Reindex {
  import opened Common

  /** What an index embeds with; a vector of another model or dimension is refused. */
  datatype Space = Space(model: string, dimensions: nat)

  datatype Vector = Vector(model: string, values: seq<real>)

  predicate InSpace(v: Vector, space: Space) {
    v.model == space.model && |v.values| == space.dimensions
  }

  /** A search document of a published version. */
  datatype Document = Document(versionId: string, content: string, digest: string)

  datatype Row = Row(id: string, digest: string, vector: Vector, indexedAt: Time)

  /** The rows of one tenant, embedding model and dimension, by version. */
  type Rows = map<string, Row>

  datatype IndexState = Missing | Stale | Current

  datatype ReindexError =
    | BatchSizeInvalid | EmbeddingUnavailable | EmbeddingResponse | ProviderFailed | InvalidProjection

  function StateOf(rows: Rows, d: Document): IndexState {
    if d.versionId !in rows then Missing else if rows[d.versionId].digest == d.digest then Current else Stale
  }

  ghost predicate VersionsDistinct(docs: seq<Document>) {
    forall i, j :: 0 <= i < j < |docs| ==> docs[i].versionId != docs[j].versionId
  }

  // -------------------------------------------------------------- inspection

  datatype Snapshot = Snapshot(published: nat, current: nat, missing: nat, stale: nat, items: seq<(string, IndexState)>)

  function CountState(docs: seq<Document>, rows: Rows, state: IndexState): nat {
    if docs == [] then 0
    else CountState(docs[..|docs| - 1], rows, state) + (if StateOf(rows, docs[|docs| - 1]) == state then 1 else 0)
  }

  /** `InspectToolSearchIndex` */
  method Inspect(docs: seq<Document>, rows: Rows) returns (s: Snapshot)
    ensures s.published == |docs| == |s.items| == s.current + s.missing + s.stale
    ensures forall i :: 0 <= i < |docs| ==> s.items[i] == (docs[i].versionId, StateOf(rows, docs[i]))
    ensures s.current == CountState(docs, rows, Current)
    ensures s.missing == CountState(docs, rows, Missing) && s.stale == CountState(docs, rows, Stale)
  {
    var items: seq<(string, IndexState)> := [];
    var current: nat, missing: nat, stale: nat := 0, 0, 0;
    for i := 0 to |docs|
      invariant |items| == i == current + missing + stale
      invariant forall k :: 0 <= k < i ==> items[k] == (docs[k].versionId, StateOf(rows, docs[k]))
      invariant current == CountState(docs[..i], rows, Current)
      invariant missing == CountState(docs[..i], rows, Missing) && stale == CountState(docs[..i], rows, Stale)
    {
      assert docs[..i + 1][..i] == docs[..i];
      var d := docs[i];
      var state := if d.versionId !in rows then Missing
                   else if rows[d.versionId].digest == d.digest then Current
                   else Stale;
      items := items + [(d.versionId, state)];
      match state {
        case Current => current := current + 1;
        case Missing => missing := missing + 1;
        case Stale => stale := stale + 1;
      }
    }
    assert docs[..|docs|] == docs;
    return Snapshot(|docs|, current, missing, stale, items);
  }

  // ----------------------------------------------------------------- pending

  function Pending(docs: seq<Document>, rows: Rows, force: bool): (pending: seq<Document>)
    ensures |pending| <= |docs|
  {
    if docs == [] then []
    else
      var n := |docs| - 1;
      Pending(docs[..n], rows, force) + (if force || !StateOf(rows, docs[n]).Current? then [docs[n]] else [])
  }

  lemma {:induction false} PendingIs(docs: seq<Document>, rows: Rows, force: bool)
    ensures forall d :: d in Pending(docs, rows, force) <==> d in docs && (force || !StateOf(rows, d).Current?)
    ensures VersionsDistinct(docs) ==> VersionsDistinct(Pending(docs, rows, force))
  {
    if docs != [] {
      var n := |docs| - 1;
      PendingIs(docs[..n], rows, force);
      assert docs == docs[..n] + [docs[n]];
      var earlier := Pending(docs[..n], rows, force);
      if VersionsDistinct(docs) {
        forall i | 0 <= i < |earlier| ensures earlier[i].versionId != docs[n].versionId {
          assert earlier[i] in earlier && earlier[i] in docs[..n];
        }
      }
    }
  }

  /** Without force the reindex works on exactly what the inspection calls missing or stale. */
  lemma {:induction false} PendingAgreesWithInspection(docs: seq<Document>, rows: Rows)
    ensures |Pending(docs, rows, false)| == CountState(docs, rows, Missing) + CountState(docs, rows, Stale)
    ensures CountState(docs, rows, Current) + |Pending(docs, rows, false)| == |docs|
  {
    if docs != [] { PendingAgreesWithInspection(docs[..|docs| - 1], rows); }
  }

  // ------------------------------------------------------------------ upserts

  /**
   The first m of the pending documents are indexed: their digests stored, ids of
   existing rows kept, nothing else touched.
   */
  ghost predicate Indexed(before: Rows, after: Rows, pending: seq<Document>, m: nat)
    requires m <= |pending|
  {
    && (forall v :: v in after <==> v in before || Touched(pending, m, v))
    && (forall v <- before :: !Touched(pending, m, v) ==> after[v] == before[v])
    && (forall v <- before :: after[v].id == before[v].id)
    && (forall i :: 0 <= i < m ==>
        pending[i].versionId in after && after[pending[i].versionId].digest == pending[i].digest)
  }

  predicate Touched(pending: seq<Document>, m: nat, v: string)
    requires m <= |pending|
  {
    exists i :: 0 <= i < m && pending[i].versionId == v
  }

  lemma NothingIndexed(rows: Rows, pending: seq<Document>)
    ensures Indexed(rows, rows, pending, 0)
  {
  }

  lemma IndexedNext(before: Rows, after: Rows, pending: seq<Document>, m: nat, row: Row)
    requires m < |pending| && VersionsDistinct(pending) && Indexed(before, after, pending, m)
    requires row.digest == pending[m].digest
    requires pending[m].versionId in after ==> row.id == after[pending[m].versionId].id
    ensures Indexed(before, after[pending[m].versionId := row], pending, m + 1)
  {
    forall v ensures Touched(pending, m + 1, v) <==> Touched(pending, m, v) || v == pending[m].versionId {}
  }

  // ----------------------------------------------------------------- reindex

  datatype EmbedAnswer = Vectors(vectors: seq<Vector>) | ProviderError

  datatype Exchange = Exchange(contents: seq<string>, answer: EmbedAnswer)

  /** The embedding provider: it may answer anything, or raise.  Its log says what it was asked and how it answered. */
  class Provider {
    ghost var log: seq<Exchange>

    constructor ()
      ensures log == []
    {
      log := [];
    }

    method Embed(contents: seq<string>) returns (answer: EmbedAnswer)
      modifies this
      ensures log == old(log) + [Exchange(contents, answer)]
    {
      answer := *;
      log := log + [Exchange(contents, answer)];
    }
  }

  /** What is wrong with an answer for a batch of `count` documents, in the order of the checks. */
  function Fault(answer: EmbedAnswer, count: nat, space: Space): Option<ReindexError> {
    match answer
    case ProviderError => Some(ProviderFailed)
    case Vectors(vectors) =>
      if |vectors| != count then Some(EmbeddingResponse)
      else if exists v <- vectors :: !InSpace(v, space) then Some(InvalidProjection)
      else None
  }

  datatype ReindexResult = ReindexResult(published: nat, current: nat, pending: nat, embedded: nat, batches: nat,
                                         dryRun: bool)

  /** count is n / size, rounded up. */
  ghost predicate IsCeil(count: nat, n: nat, size: nat) {
    (count - 1) * size < n <= count * size
  }

  function Flatten(batches: seq<seq<Document>>): seq<Document> {
    if batches == [] then [] else Flatten(batches[..|batches| - 1]) + batches[|batches| - 1]
  }

  /** Every batch but the last is full. */
  ghost predicate WellBatched(batches: seq<seq<Document>>, size: nat) {
    forall i :: 0 <= i < |batches| ==> 0 < |batches[i]| <= size && (i < |batches| - 1 ==> |batches[i]| == size)
  }

  function Contents(docs: seq<Document>): seq<string> {
    seq(|docs|, i requires 0 <= i < |docs| => docs[i].content)
  }

  function NextBatch(pending: seq<Document>, start: nat, size: nat): seq<Document>
    requires start <= |pending|
  {
    pending[start..if start + size <= |pending| then start + size else |pending|]
  }

  /** The first documents hold these vectors. */
  ghost predicate Holds(rows: Rows, pending: seq<Document>, vectors: seq<Vector>) {
    && |vectors| <= |pending|
    && forall i :: 0 <= i < |vectors| ==>
         pending[i].versionId in rows && rows[pending[i].versionId].vector == vectors[i]
  }

  lemma HoldsNext(rows: Rows, pending: seq<Document>, vectors: seq<Vector>, row: Row)
    requires Holds(rows, pending, vectors) && |vectors| < |pending| && VersionsDistinct(pending)
    ensures Holds(rows[pending[|vectors|].versionId := row], pending, vectors + [row.vector])
  {
  }

  /** The vectors of these answers, one after the other. */
  function Joined(said: seq<Exchange>): seq<Vector> {
    if said == [] then []
    else
      var last := said[|said| - 1].answer;
      Joined(said[..|said| - 1]) + (if last.Vectors? then last.vectors else [])
  }

  /** Each committed batch was asked for and answered without fault. */
  ghost predicate Answered(said: seq<Exchange>, batches: seq<seq<Document>>, space: Space) {
    && |said| == |batches|
    && forall j :: 0 <= j < |said| ==>
         said[j].contents == Contents(batches[j]) && Fault(said[j].answer, |batches[j]|, space).None?
  }

  lemma AnsweredNext(said: seq<Exchange>, batches: seq<seq<Document>>, space: Space, batch: seq<Document>,
                     answer: EmbedAnswer)
    requires Answered(said, batches, space) && Fault(answer, |batch|, space).None?
    ensures Answered(said + [Exchange(Contents(batch), answer)], batches + [batch], space)
    ensures answer.Vectors? && Joined(said + [Exchange(Contents(batch), answer)]) == Joined(said) + answer.vectors
  {
    assert (said + [Exchange(Contents(batch), answer)])[..|said|] == said;
  }

  /**
   What passes between a run and its provider: the committed batches in order,
   each answered well, and after them at most one more, whose fault is the
   run's error.
   */
  ghost predicate Conversation(said: seq<Exchange>, batches: seq<seq<Document>>, left: seq<Document>, size: nat,
                               space: Space, fault: Option<ReindexError>) {
    if fault.None? then Answered(said, batches, space)
    else
      var next := NextBatch(left, 0, size);
      && |said| > 0 && left != [] && Answered(said[..|said| - 1], batches, space)
      && said[|said| - 1].contents == Contents(next) && Fault(said[|said| - 1].answer, |next|, space) == fault
  }

  class EmbeddingIndex {
    var rows: Rows
    const space: Space
    const provider: Option<Provider>

    constructor (space: Space, provider: Option<Provider>)
      ensures rows == map[] && this.space == space && this.provider == provider
    {
      rows := map[];
      this.space := space;
      this.provider := provider;
    }

    /** One batch in one unit of work: all of it is committed, or none. */
    method UpsertBatch(ghost before: Rows, existing: Rows, pending: seq<Document>, ghost earlier: seq<Vector>,
                       start: nat, stop: nat, vectors: seq<Vector>)
      returns (stored: bool)
      requires start <= stop <= |pending| && |vectors| == stop - start && VersionsDistinct(pending)
      requires Indexed(before, rows, pending, start) && existing == before
      requires |earlier| == start && Holds(rows, pending, earlier)
      modifies this
      ensures stored ==> Indexed(before, rows, pending, stop) && Holds(rows, pending, earlier + vectors)
      ensures !stored ==> rows == old(rows)
      ensures stored <==> Fault(Vectors(vectors), stop - start, space).None?
    {
      hide Indexed, VersionsDistinct, Holds;
      var working := rows;
      assert earlier + vectors[..0] == earlier;
      for i := start to stop
        invariant rows == old(rows)
        invariant Indexed(before, working, pending, i) && Holds(working, pending, earlier + vectors[..i - start])
        invariant forall v <- vectors[..i - start] :: InSpace(v, space)
      {
        if !InSpace(vectors[i - start], space) { return false; }
        var d := pending[i];
        var newId := NewId();
        var now := ReadClock();
        var projected := if d.versionId in existing then existing[d.versionId].id else newId;
        var id := if d.versionId in working then working[d.versionId].id else projected;
        var row := Row(id, d.digest, vectors[i - start], now);
        IndexedNext(before, working, pending, i, row);
        HoldsNext(working, pending, earlier + vectors[..i - start], row);
        assert earlier + vectors[..i - start] + [row.vector] == earlier + vectors[..i + 1 - start];
        working := working[d.versionId := row];
      }
      assert vectors[..stop - start] == vectors;
      rows := working;
      return true;
    }

    /**
     `ReindexTools`: a prefix of the pending documents, a whole number of batches,
     is committed in order, each document with the vector the provider gave for
     its content; all of it exactly if the run succeeds.  The size, the missing
     provider and the provider's last answer decide which error is raised.
     */
    method Execute(docs: seq<Document>, batchSize: int, force: bool, dryRun: bool)
      returns (r: Result<ReindexResult, ReindexError>, ghost batches: seq<seq<Document>>, ghost done: nat,
               ghost said: seq<Exchange>)
      requires VersionsDistinct(docs)
      modifies this, if provider.Some? then {provider.value} else {}
      ensures r == Err(BatchSizeInvalid) <==> !(1 <= batchSize <= 64)
      ensures r == Err(EmbeddingUnavailable) <==>
              1 <= batchSize <= 64 && !dryRun && Pending(docs, old(rows), force) != [] && provider.None?
      ensures 1 <= batchSize <= 64 && (dryRun || Pending(docs, old(rows), force) == []) ==> r.Ok? && said == []
      ensures if provider.Some? then provider.value.log == old(provider.value.log) + said else said == []
      ensures done <= |Pending(docs, old(rows), force)|
      ensures Indexed(old(rows), rows, Pending(docs, old(rows), force), done)
      ensures 1 <= batchSize <= 64 ==>
                && WellBatched(batches, batchSize) && Flatten(batches) == Pending(docs, old(rows), force)[..done]
                && Conversation(said, batches, Pending(docs, old(rows), force)[done..], batchSize, space,
                                if r.Err? && !r.error.EmbeddingUnavailable? then Some(r.error) else None)
      ensures |batches| <= |said| && |Joined(said[..|batches|])| == done
      ensures Holds(rows, Pending(docs, old(rows), force), Joined(said[..|batches|]))
      ensures r.Err? ==> done == |batches| * batchSize && (done == 0 || done < |Pending(docs, old(rows), force)|)
      ensures r.Ok? && !dryRun ==> done == |Pending(docs, old(rows), force)|
      ensures dryRun || done == 0 ==> rows == old(rows)
      ensures r.Ok? ==> var pending := |Pending(docs, old(rows), force)|;
                        r.value == ReindexResult(|docs|, |docs| - pending, pending, done, |batches|, dryRun) &&
                          IsCeil(|batches|, done, batchSize)
    {
      hide Indexed, VersionsDistinct, Pending, WellBatched, Flatten, Holds, Joined, Answered, Conversation, Contents;
      hide Fault;
      batches, done, said := [], 0, [];
      ghost var before := rows;
      var existing := rows;
      var pending := Pending(docs, rows, force);
      PendingIs(docs, rows, force);
      NothingIndexed(rows, pending);
      NoBatches(pending, batchSize);
      NothingSaid(rows, pending, space);
      if !(1 <= batchSize <= 64) { return Err(BatchSizeInvalid), [], 0, []; }
      if dryRun || pending == [] {
        return Ok(ReindexResult(|docs|, |docs| - |pending|, |pending|, 0, 0, dryRun)), [], 0, [];
      }
      if provider.None? { return Err(EmbeddingUnavailable), [], 0, []; }
      var batchCount: nat, embedded: nat, start: nat := 0, 0, 0;
      while start < |pending|
        invariant start <= |pending| && done == embedded == start && Indexed(before, rows, pending, start)
        invariant WellBatched(batches, batchSize) && Flatten(batches) == pending[..start] && |batches| == batchCount
        invariant start < |pending| ==> start == batchCount * batchSize
        invariant IsCeil(batchCount, start, batchSize) && (start == 0 ==> rows == before)
        invariant provider.value.log == old(provider.value.log) + said && Answered(said, batches, space)
        invariant |Joined(said)| == start && Holds(rows, pending, Joined(said))
        decreases |pending| - start
      {
        var stop := if start + batchSize <= |pending| then start + batchSize else |pending|;
        var answer := provider.value.Embed(Contents(pending[start..stop]));
        ghost var heard := said + [Exchange(Contents(pending[start..stop]), answer)];
        AnswerJudged(said, batches, pending, start, batchSize, space, answer);
        said := heard;
        if answer.ProviderError? { return Err(ProviderFailed), batches, done, heard; }
        if |answer.vectors| != stop - start { return Err(EmbeddingResponse), batches, done, heard; }
        var stored := UpsertBatch(before, existing, pending, Joined(said[..batchCount]), start, stop, answer.vectors);
        if !stored { return Err(InvalidProjection), batches, done, heard; }
        OneMoreBatch(batches, pending, start, stop, batchSize);
        CeilNext(start, stop, batchCount, batchSize);
        batches := batches + [pending[start..stop]];
        batchCount := batchCount + 1;
        embedded := embedded + (stop - start);
        start := stop;
        done := stop;
      }
      assert pending[..|pending|] == pending;
      AllSaid(said, batches, pending[done..], batchSize, space);
      assert said[..|batches|] == said;
      return Ok(ReindexResult(|docs|, |docs| - |pending|, |pending|, embedded, batchCount, false)), batches, done, said;
    }
  }

  lemma NothingSaid(rows: Rows, pending: seq<Document>, space: Space)
    ensures Joined([]) == [] && Holds(rows, pending, []) && Answered([], [], space)
    ensures forall left, size: nat :: Conversation([], [], left, size, space, None)
  {
  }

  lemma AllSaid(said: seq<Exchange>, batches: seq<seq<Document>>, left: seq<Document>, size: nat, space: Space)
    requires Answered(said, batches, space)
    ensures Conversation(said, batches, left, size, space, None) && |said| == |batches|
  {
  }

  lemma AnswerJudged(said: seq<Exchange>, batches: seq<seq<Document>>, pending: seq<Document>, start: nat, size: nat,
                     space: Space, answer: EmbedAnswer)
    requires start < |pending| && Answered(said, batches, space)
    ensures var next := NextBatch(pending, start, size);
            var heard, fault := said + [Exchange(Contents(next), answer)], Fault(answer, |next|, space);
            && (if fault.None? then Answered(heard, batches + [next], space)
                else Conversation(heard, batches, pending[start..], size, space, fault))
            && |said| == |batches| && heard[..|batches|] == said
            && (answer.Vectors? ==> Joined(heard) == Joined(said) + answer.vectors)
            && (answer.ProviderError? ==> fault == Some(ProviderFailed))
            && (answer.Vectors? && |answer.vectors| != |next| ==> fault == Some(EmbeddingResponse))
            && (answer.Vectors? && |answer.vectors| == |next| && fault.Some? ==> fault == Some(InvalidProjection))
  {
    var next := NextBatch(pending, start, size);
    var heard := said + [Exchange(Contents(next), answer)];
    assert heard[..|said|] == said && NextBatch(pending[start..], 0, size) == next;
    if Fault(answer, |next|, space).None? {
      AnsweredNext(said, batches, space, next, answer);
    }
  }

  lemma NoBatches(pending: seq<Document>, size: int)
    ensures Flatten([]) == pending[..0] && forall n: nat :: WellBatched([], n)
  {
  }

  lemma CeilNext(start: nat, stop: nat, count: nat, size: nat)
    requires size > 0 && start == count * size && start < stop <= start + size
    ensures IsCeil(count + 1, stop, size)
    ensures stop == start + size ==> stop == (count + 1) * size
  {
    assert (count + 1) * size == count * size + size;
  }

  lemma OneMoreBatch(batches: seq<seq<Document>>, pending: seq<Document>, start: nat, stop: nat, size: nat)
    requires start < stop <= |pending| && WellBatched(batches, size) && Flatten(batches) == pending[..start]
    requires stop == (if start + size <= |pending| then start + size else |pending|)
    requires start == |batches| * size && size > 0
    ensures WellBatched(batches + [pending[start..stop]], size)
    ensures Flatten(batches + [pending[start..stop]]) == pending[..stop]
  {
    hide *;
    FullBatches(batches, size);
    BatchAdded(batches, pending[start..stop], size);
    assert pending[..start] + pending[start..stop] == pending[..stop];
  }

  lemma BatchAdded(batches: seq<seq<Document>>, batch: seq<Document>, size: nat)
    requires 0 < |batch| <= size && forall i :: 0 <= i < |batches| ==> |batches[i]| == size
    ensures WellBatched(batches + [batch], size) && Flatten(batches + [batch]) == Flatten(batches) + batch
  {
    assert (batches + [batch])[..|batches|] == batches;
  }

  /** A well-batched list whose length is a full multiple has a full last batch. */
  lemma FullBatches(batches: seq<seq<Document>>, size: nat)
    requires WellBatched(batches, size) && |Flatten(batches)| == |batches| * size
    ensures forall i :: 0 <= i < |batches| ==> |batches[i]| == size
  {
    if batches != [] {
      var n := |batches| - 1;
      AllFull(batches[..n], size);
      assert |batches| * size == n * size + size;
    }
  }

  lemma {:induction false} AllFull(batches: seq<seq<Document>>, size: nat)
    requires forall i :: 0 <= i < |batches| ==> |batches[i]| == size
    ensures |Flatten(batches)| == |batches| * size
  {
    if batches != [] {
      AllFull(batches[..|batches| - 1], size);
      assert |batches| * size == (|batches| - 1) * size + size;
    }
  }

  // ---------------------------------------------------------------- theorems

  /** Every pending document with d's version is d. */
  ghost predicate OnlyFor(pending: seq<Document>, d: Document) {
    forall i :: 0 <= i < |pending| ==> pending[i].versionId == d.versionId ==> pending[i] == d
  }

  lemma IndexedStates(before: Rows, after: Rows, pending: seq<Document>, m: nat, d: Document)
    requires m <= |pending| && Indexed(before, after, pending, m) && OnlyFor(pending, d)
    ensures StateOf(after, d) == if d in pending[..m] then Current else StateOf(before, d)
  {
    TouchedOnly(pending, m, d);
    if d in pending[..m] {
      var i :| 0 <= i < m && pending[i] == d;
    }
  }

  lemma TouchedOnly(pending: seq<Document>, m: nat, d: Document)
    requires m <= |pending| && OnlyFor(pending, d)
    ensures Touched(pending, m, d.versionId) <==> d in pending[..m]
  {
    if Touched(pending, m, d.versionId) {
      var i :| 0 <= i < m && pending[i].versionId == d.versionId;
      assert pending[..m][i] == d;
    }
    if d in pending[..m] {
      var i :| 0 <= i < m && pending[..m][i] == d;
      assert pending[i].versionId == d.versionId;
    }
  }

  /** Pending documents stand for their versions among the published ones. */
  lemma OwnVersion(docs: seq<Document>, rows: Rows, force: bool, d: Document)
    requires VersionsDistinct(docs) && d in docs
    ensures OnlyFor(Pending(docs, rows, force), d)
  {
    PendingIs(docs, rows, force);
    var pending := Pending(docs, rows, force);
    forall k | 0 <= k < |pending| && pending[k].versionId == d.versionId ensures pending[k] == d {
      assert pending[k] in pending;
      var i :| 0 <= i < |docs| && docs[i] == pending[k];
      var j :| 0 <= j < |docs| && docs[j] == d;
      assert i == j;
    }
  }

  lemma SomeMember(docs: seq<Document>)
    ensures docs != [] ==> exists d :: d in docs
  {
    if docs != [] { assert docs[0] in docs; }
  }

  /** A completed run makes every published document current, so that an unforced rerun has nothing to do. */
  lemma CompletionMakesCurrent(docs: seq<Document>, before: Rows, after: Rows, force: bool)
    requires VersionsDistinct(docs)
    requires Indexed(before, after, Pending(docs, before, force), |Pending(docs, before, force)|)
    ensures forall d <- docs :: StateOf(after, d).Current?
    ensures Pending(docs, after, false) == [] && CountState(docs, after, Current) == |docs|
  {
    var pending := Pending(docs, before, force);
    PendingIs(docs, before, force);
    assert pending[..|pending|] == pending;
    forall d <- docs ensures StateOf(after, d).Current? {
      OwnVersion(docs, before, force, d);
      IndexedStates(before, after, pending, |pending|, d);
    }
    PendingIs(docs, after, false);
    SomeMember(Pending(docs, after, false));
    PendingAgreesWithInspection(docs, after);
  }

  function Without(docs: seq<Document>, done: set<Document>): seq<Document> {
    if docs == [] then []
    else
      var n := |docs| - 1;
      Without(docs[..n], done) + (if docs[n] in done then [] else [docs[n]])
  }

  lemma PendingLast(docs: seq<Document>, d: Document, rows: Rows, force: bool)
    ensures force || !StateOf(rows, d).Current? ==> Pending(docs + [d], rows, force) == Pending(docs, rows, force) + [d]
    ensures !force && StateOf(rows, d).Current? ==> Pending(docs + [d], rows, force) == Pending(docs, rows, force)
  {
    assert (docs + [d])[..|docs|] == docs;
  }

  lemma WithoutLast(docs: seq<Document>, d: Document, done: set<Document>)
    ensures d !in done ==> Without(docs + [d], done) == Without(docs, done) + [d]
    ensures d in done ==> Without(docs + [d], done) == Without(docs, done)
  {
    assert (docs + [d])[..|docs|] == docs;
  }

  /** Once some documents are current, what is pending is what was pending of the others. */
  lemma {:induction false} PendingWhere(docs: seq<Document>, before: Rows, after: Rows, done: set<Document>)
    requires forall d <- docs :: StateOf(after, d) == if d in done then Current else StateOf(before, d)
    ensures Pending(docs, after, false) == Pending(Without(docs, done), before, false)
  {
    hide Pending, Without, StateOf;
    if docs == [] {
      NothingLeft(before, after, done);
    } else {
      var n := |docs| - 1;
      var d := docs[n];
      assert docs == docs[..n] + [d] && d in docs;
      PendingWhere(docs[..n], before, after, done);
      PendingLast(docs[..n], d, after, false);
      WithoutLast(docs[..n], d, done);
      PendingLast(Without(docs[..n], done), d, before, false);
    }
  }

  lemma NothingLeft(before: Rows, after: Rows, done: set<Document>)
    ensures Pending([], after, false) == Pending(Without([], done), before, false)
  {
  }

  ghost function AsSet(docs: seq<Document>): set<Document> {
    set d | d in docs
  }

  lemma WithoutStranger(docs: seq<Document>, done: set<Document>, d: Document)
    requires d !in docs
    ensures Without(docs, done + {d}) == Without(docs, done)
  {
    if docs != [] {
      var n := |docs| - 1;
      assert docs == docs[..n] + [docs[n]];
      WithoutStranger(docs[..n], done, d);
    }
  }

  lemma NewLast(docs: seq<Document>)
    requires VersionsDistinct(docs) && docs != []
    ensures VersionsDistinct(docs[..|docs| - 1]) && docs[|docs| - 1] !in docs[..|docs| - 1]
  {
    var n := |docs| - 1;
    assert forall i :: 0 <= i < n ==> docs[..n][i].versionId != docs[n].versionId;
  }

  /** What is left to do among the published documents is what is left to do of the pending list. */
  lemma {:induction false} LeftOfPending(docs: seq<Document>, rows: Rows, force: bool, m: nat)
    requires VersionsDistinct(docs) && m <= |Pending(docs, rows, force)|
    ensures var pending := Pending(docs, rows, force);
            Pending(Without(docs, AsSet(pending[..m])), rows, false) == Pending(pending[m..], rows, false)
  {
    hide StateOf, VersionsDistinct, Pending, Without;
    if docs == [] {
      assert Pending(docs, rows, force) == [];
      NothingLeft(rows, rows, AsSet([]));
      WithoutNothing(AsSet([]));
    } else {
      var n := |docs| - 1;
      var d, earlier := docs[n], Pending(docs[..n], rows, force);
      assert docs == docs[..n] + [d];
      NewLast(docs);
      PendingIs(docs[..n], rows, force);
      PendingLast(docs[..n], d, rows, force);
      if m <= |earlier| {
        LeftOfPending(docs[..n], rows, force, m);
        LeftSame(docs[..n], d, rows, force, m);
      } else {
        LeftOfPending(docs[..n], rows, force, m - 1);
        LeftDone(docs[..n], d, rows, force, m);
      }
    }
  }

  lemma WithoutNothing(done: set<Document>)
    ensures Without([], done) == []
  {
  }

  lemma LeftSame(docs: seq<Document>, d: Document, rows: Rows, force: bool, m: nat)
    requires m <= |Pending(docs, rows, force)| && d !in Pending(docs, rows, force)
    requires Pending(Without(docs, AsSet(Pending(docs, rows, force)[..m])), rows, false) ==
             Pending(Pending(docs, rows, force)[m..], rows, false)
    ensures m <= |Pending(docs + [d], rows, force)|
    ensures Pending(Without(docs + [d], AsSet(Pending(docs + [d], rows, force)[..m])), rows, false) ==
            Pending(Pending(docs + [d], rows, force)[m..], rows, false)
  {
    hide StateOf, Pending, Without;
    var earlier, pending := Pending(docs, rows, force), Pending(docs + [d], rows, force);
    PendingLast(docs, d, rows, force);
    assert pending[..m] == earlier[..m] && d !in AsSet(earlier[..m]);
    WithoutLast(docs, d, AsSet(earlier[..m]));
    PendingLast(Without(docs, AsSet(earlier[..m])), d, rows, false);
    PendingLast(earlier[m..], d, rows, false);
    if |pending| > |earlier| {
      assert pending[m..] == earlier[m..] + [d];
    }
  }

  lemma LeftDone(docs: seq<Document>, d: Document, rows: Rows, force: bool, m: nat)
    requires |Pending(docs, rows, force)| < m <= |Pending(docs + [d], rows, force)| && d !in docs
    requires Pending(Without(docs, AsSet(Pending(docs, rows, force)[..m - 1])), rows, false) ==
             Pending(Pending(docs, rows, force)[m - 1..], rows, false)
    ensures Pending(Without(docs + [d], AsSet(Pending(docs + [d], rows, force)[..m])), rows, false) ==
            Pending(Pending(docs + [d], rows, force)[m..], rows, false)
  {
    hide StateOf, Pending, Without;
    var earlier, pending := Pending(docs, rows, force), Pending(docs + [d], rows, force);
    PendingLast(docs, d, rows, force);
    assert pending == earlier + [d] && m == |pending| && pending[..m] == pending && earlier[..m - 1] == earlier;
    assert AsSet(pending[..m]) == AsSet(earlier) + {d};
    WithoutStranger(docs, AsSet(earlier), d);
    WithoutLast(docs, d, AsSet(pending[..m]));
    assert pending[m..] == [] && earlier[m - 1..] == [];
  }

  lemma {:induction false} AllPending(docs: seq<Document>, rows: Rows)
    requires forall d <- docs :: !StateOf(rows, d).Current?
    ensures Pending(docs, rows, false) == docs
  {
    if docs != [] {
      var n := |docs| - 1;
      assert docs == docs[..n] + [docs[n]];
      AllPending(docs[..n], rows);
    }
  }

  /**
   Resuming: after a run that committed the first m pending documents the next
   unforced run has pending those of the uncommitted ones that were not current
   before.  So it takes up all that was left exactly if none of that was current
   before the run, as is always so unless the run was forced.
   */
  lemma ResumesWhereItStopped(docs: seq<Document>, before: Rows, after: Rows, force: bool, m: nat)
    requires VersionsDistinct(docs) && m <= |Pending(docs, before, force)|
    requires Indexed(before, after, Pending(docs, before, force), m)
    ensures Pending(docs, after, false) == Pending(Pending(docs, before, force)[m..], before, false)
    ensures Pending(docs, after, false) == Pending(docs, before, force)[m..] <==>
            forall d <- Pending(docs, before, force)[m..] :: !StateOf(before, d).Current?
    ensures !force ==> Pending(docs, after, false) == Pending(docs, before, force)[m..]
  {
    hide StateOf, VersionsDistinct, Indexed, Pending;
    var pending := Pending(docs, before, force);
    PendingIs(docs, before, force);
    forall d <- docs ensures StateOf(after, d) == if d in AsSet(pending[..m]) then Current else StateOf(before, d) {
      OwnVersion(docs, before, force, d);
      IndexedStates(before, after, pending, m, d);
    }
    PendingWhere(docs, before, after, AsSet(pending[..m]));
    LeftOfPending(docs, before, force, m);
    PendingIs(pending[m..], before, false);
    if !force {
      forall d <- pending[m..] ensures !StateOf(before, d).Current? { assert d in pending; }
    }
    if forall d <- pending[m..] :: !StateOf(before, d).Current? {
      AllPending(pending[m..], before);
    }
  }

  const FIRST := Document("v1", "one", "d1")
  const SECOND := Document("v2", "two", "d2")
  const UP_TO_DATE: Rows := map[
    "v1" := Row("r1", "d1", Vector("m", [1.0]), 0),
    "v2" := Row("r2", "d2", Vector("m", [2.0]), 0)]

  lemma BothPending(rows: Rows, force: bool)
    requires force || (StateOf(rows, FIRST).Current? && StateOf(rows, SECOND).Current?)
    ensures Pending([FIRST, SECOND], rows, force) == if force then [FIRST, SECOND] else []
  {
    hide Pending, StateOf;
    NonePending(rows, force);
    PendingLast([], FIRST, rows, force);
    PendingLast([FIRST], SECOND, rows, force);
    assert [] + [FIRST] == [FIRST] && [FIRST] + [SECOND] == [FIRST, SECOND];
  }

  lemma NonePending(rows: Rows, force: bool)
    ensures Pending([], rows, force) == []
  {
  }

  /** A forced run that failed after its first batch is not resumed: nothing is pending, though one document is left. */
  lemma ForcedRunIsNotResumed()
    ensures var docs, after := [FIRST, SECOND], UP_TO_DATE["v1" := Row("r1", "d1", Vector("m", [3.0]), 1)];
            && VersionsDistinct(docs) && Pending(docs, UP_TO_DATE, true) == docs
            && Indexed(UP_TO_DATE, after, docs, 1)
            && Pending(docs, after, false) == [] != docs[1..]
  {
    hide Pending, Indexed;
    var docs, row := [FIRST, SECOND], Row("r1", "d1", Vector("m", [3.0]), 1);
    BothPending(UP_TO_DATE, true);
    BothPending(UP_TO_DATE["v1" := row], false);
    NothingIndexed(UP_TO_DATE, docs);
    IndexedNext(UP_TO_DATE, UP_TO_DATE, docs, 0, row);
  }
}
