/**
 Reciprocal rank fusion: scores from positions alone, a total order over them, and
 the diagnostics that explain a score.
 */
module RankFusion {
  import opened Common
  import opened Ordering

  /** A search hit: the published version it names, the tool's canonical name, and a strategy's own score. */
  datatype Hit = Hit(id: string, name: string, rank: real)

  type Ranking = seq<Hit>

  /** The rank constant; the constructor refuses anything else. */
  type Positive = n: nat | n > 0 witness 1

  datatype FusionError = LimitNotPositive

  // ------------------------------------------------------------------ scores

  /** The first position of id in a ranking, counted from 1; 0 if it is not there. */
  function FirstPosition(ranking: Ranking, id: string): (p: nat)
    ensures p <= |ranking| && (p > 0 ==> ranking[p - 1].id == id)
  {
    if ranking == [] then 0
    else
      var n := |ranking| - 1;
      var earlier := FirstPosition(ranking[..n], id);
      if earlier > 0 then earlier else if ranking[n].id == id then n + 1 else 0
  }

  lemma {:induction false} FirstPositionIs(ranking: Ranking, id: string)
    ensures FirstPosition(ranking, id) == 0 <==> !Contains(ranking, id)
    ensures forall i :: 0 <= i < FirstPosition(ranking, id) - 1 ==> ranking[i].id != id
  {
    if ranking != [] {
      var n := |ranking| - 1;
      FirstPositionIs(ranking[..n], id);
      if i :| 0 <= i < n && ranking[i].id == id { assert ranking[..n][i].id == id; }
      assert forall i :: 0 <= i < n ==> ranking[..n][i] == ranking[i];
    }
  }

  predicate Contains(ranking: Ranking, id: string) {
    exists i :: 0 <= i < |ranking| && ranking[i].id == id
  }

  /** What one ranking gives to id. */
  function Share(c: nat, ranking: Ranking, id: string): real
    requires c > 0
  {
    var p := FirstPosition(ranking, id);
    if p == 0 then 0.0 else 1.0 / (c + p) as real
  }

  function Score(c: nat, rankings: seq<Ranking>, id: string): real
    requires c > 0
  {
    if rankings == [] then 0.0
    else Score(c, rankings[..|rankings| - 1], id) + Share(c, rankings[|rankings| - 1], id)
  }

  function Ids(ranking: Ranking): set<string> {
    set i | 0 <= i < |ranking| :: ranking[i].id
  }

  function AllIds(rankings: seq<Ranking>): set<string> {
    if rankings == [] then {} else AllIds(rankings[..|rankings| - 1]) + Ids(rankings[|rankings| - 1])
  }

  /** The hit that stands for id: its first in the first ranking that has it. */
  function FirstHit(rankings: seq<Ranking>, id: string): Option<Hit> {
    if rankings == [] then None
    else
      var n := |rankings| - 1;
      match FirstHit(rankings[..n], id)
      case Some(hit) => Some(hit)
      case None => var p := FirstPosition(rankings[n], id); if p == 0 then None else Some(rankings[n][p - 1])
  }

  // ------------------------------------------------------------------- order

  /** (score descending, name, id) */
  predicate Ahead(a: Hit, b: Hit) {
    a.rank > b.rank || (a.rank == b.rank && (Precedes(a.name, b.name) || (a.name == b.name && Precedes(a.id, b.id))))
  }

  lemma AheadTransitive(a: Hit, b: Hit, c: Hit)
    requires Ahead(a, b) && Ahead(b, c)
    ensures Ahead(a, c)
  {
    if a.rank == b.rank == c.rank {
      if Precedes(a.name, b.name) && Precedes(b.name, c.name) { PrecedesTransitive(a.name, b.name, c.name); }
      if Precedes(a.id, b.id) && Precedes(b.id, c.id) { PrecedesTransitive(a.id, b.id, c.id); }
    }
  }

  lemma AheadTotal(a: Hit, b: Hit)
    ensures a.id != b.id ==> Ahead(a, b) || Ahead(b, a)
    ensures !(Ahead(a, b) && Ahead(b, a))
  {
    PrecedesTotal(a.name, b.name);
    PrecedesTotal(a.id, b.id);
    PrecedesItself(a.name);
    PrecedesItself(a.id);
    if Precedes(a.name, b.name) { PrecedesAsymmetric(a.name, b.name); }
    if Precedes(b.name, a.name) { PrecedesAsymmetric(b.name, a.name); }
    if Precedes(a.id, b.id) { PrecedesAsymmetric(a.id, b.id); }
    if Precedes(b.id, a.id) { PrecedesAsymmetric(b.id, a.id); }
  }

  ghost predicate Ordered(hits: Ranking) {
    forall i, j :: 0 <= i < j < |hits| ==> Ahead(hits[i], hits[j])
  }

  function Place(hits: Ranking, hit: Hit): Ranking {
    if hits == [] || Ahead(hit, hits[0]) then [hit] + hits else [hits[0]] + Place(hits[1..], hit)
  }

  lemma {:induction false} PlaceIs(hits: Ranking, hit: Hit)
    requires Ordered(hits) && !Contains(hits, hit.id)
    ensures Ordered(Place(hits, hit)) && |Place(hits, hit)| == |hits| + 1
    ensures forall h :: h in Place(hits, hit) <==> h == hit || h in hits
  {
    if hits == [] {
    } else if Ahead(hit, hits[0]) {
      forall j | 0 < j < |hits| ensures Ahead(hit, hits[j]) { AheadTransitive(hit, hits[0], hits[j]); }
    } else {
      assert hits[0].id != hit.id;
      AheadTotal(hit, hits[0]);
      assert forall i :: 0 <= i < |hits[1..]| ==> hits[1..][i] == hits[i + 1];
      PlaceIs(hits[1..], hit);
      var rest := Place(hits[1..], hit);
      forall j | 0 <= j < |rest| ensures Ahead(hits[0], rest[j]) {
        assert rest[j] in rest;
        assert rest[j] == hit || rest[j] in hits[1..];
      }
      assert hits == [hits[0]] + hits[1..];
    }
  }

  // ------------------------------------------------------------------ fusing

  /** The fused hit of id: the tool of its first hit, its score as the rank. */
  function Fused(c: nat, rankings: seq<Ranking>, id: string): Hit
    requires c > 0
  {
    Hit(id, match FirstHit(rankings, id) case Some(hit) => hit.name case None => "", Score(c, rankings, id))
  }

  /** What fusing promises: the first `limit` of all ids in the order of their fused hits. */
  ghost predicate IsFusion(c: nat, rankings: seq<Ranking>, limit: nat, hits: Ranking)
    requires c > 0
  {
    && |hits| == (if |AllIds(rankings)| < limit then |AllIds(rankings)| else limit)
    && (forall h <- hits :: h.id in AllIds(rankings) && h == Fused(c, rankings, h.id))
    && Ordered(hits)
    && (forall id, h :: id in AllIds(rankings) && !Contains(hits, id) && h in hits ==> Ahead(h, Fused(c, rankings, id)))
  }

  // ---------------------------------------------------------- the two dicts

  /** The dicts after the rankings in `done` and a part of the next one. */
  ghost predicate Tracks(c: nat, done: seq<Ranking>, part: Ranking, scores: map<string, real>, tools: map<string, Hit>)
    requires c > 0
  {
    && scores.Keys == AllIds(done) + Ids(part) && tools.Keys == scores.Keys
    && (forall id <- scores :: scores[id] == Score(c, done, id) + Share(c, part, id))
    && (forall id <- tools :: FirstHit(done + [part], id) == Some(tools[id]))
  }

  lemma PositionGrows(ranking: Ranking, j: nat, id: string)
    requires j < |ranking|
    ensures var before := FirstPosition(ranking[..j], id);
            FirstPosition(ranking[..j + 1], id) ==
            if before > 0 then before else if ranking[j].id == id then j + 1 else 0
  {
    assert ranking[..j + 1][..j] == ranking[..j];
  }

  lemma IdsGrow(ranking: Ranking, j: nat)
    requires j < |ranking|
    ensures Ids(ranking[..j + 1]) == Ids(ranking[..j]) + {ranking[j].id}
  {
    forall id <- Ids(ranking[..j + 1]) ensures id in Ids(ranking[..j]) + {ranking[j].id} {
      var i :| 0 <= i < j + 1 && ranking[..j + 1][i].id == id;
      if i < j { assert ranking[..j][i].id == id; }
    }
    forall id <- Ids(ranking[..j]) ensures id in Ids(ranking[..j + 1]) {
      var i :| 0 <= i < j && ranking[..j][i].id == id;
      assert ranking[..j + 1][i].id == id;
    }
    assert ranking[..j + 1][j].id == ranking[j].id;
  }

  lemma HasPosition(ranking: Ranking, id: string)
    ensures id in Ids(ranking) <==> FirstPosition(ranking, id) > 0
  {
    FirstPositionIs(ranking, id);
    if FirstPosition(ranking, id) > 0 { assert ranking[FirstPosition(ranking, id) - 1].id in Ids(ranking); }
  }

  lemma {:induction false} HasHit(rankings: seq<Ranking>, id: string)
    ensures id in AllIds(rankings) <==> FirstHit(rankings, id).Some?
    ensures FirstHit(rankings, id).Some? ==> FirstHit(rankings, id).value.id == id
  {
    if rankings != [] {
      HasHit(rankings[..|rankings| - 1], id);
      HasPosition(rankings[|rankings| - 1], id);
    }
  }

  lemma HitOfPart(done: seq<Ranking>, part: Ranking, id: string)
    ensures var p := FirstPosition(part, id);
            FirstHit(done + [part], id) ==
            match FirstHit(done, id) case Some(hit) => Some(hit) case None => if p == 0 then None else Some(part[p - 1])
  {
    assert (done + [part])[..|done|] == done;
  }

  lemma {:induction false} NoScore(c: nat, rankings: seq<Ranking>, id: string)
    requires c > 0 && id !in AllIds(rankings)
    ensures Score(c, rankings, id) == 0.0
  {
    if rankings != [] {
      NoScore(c, rankings[..|rankings| - 1], id);
      HasPosition(rankings[|rankings| - 1], id);
    }
  }

  lemma ShareNext(c: nat, ranking: Ranking, j: nat, id: string)
    requires c > 0 && j < |ranking|
    ensures Share(c, ranking[..j + 1], id) ==
            if id == ranking[j].id && id !in Ids(ranking[..j]) then 1.0 / (c + j + 1) as real
            else Share(c, ranking[..j], id)
    ensures id !in Ids(ranking[..j]) ==> Share(c, ranking[..j], id) == 0.0
  {
    hide FirstPosition, Ids;
    PositionGrows(ranking, j, id);
    HasPosition(ranking[..j], id);
  }

  lemma HitNext(done: seq<Ranking>, ranking: Ranking, j: nat, id: string)
    requires j < |ranking|
    ensures FirstHit(done + [ranking[..j + 1]], id) ==
            match FirstHit(done + [ranking[..j]], id)
            case Some(hit) => Some(hit)
            case None => if ranking[j].id == id then Some(ranking[j]) else None
  {
    hide FirstPosition, FirstHit;
    PositionGrows(ranking, j, id);
    HitOfPart(done, ranking[..j], id);
    HitOfPart(done, ranking[..j + 1], id);
  }

  lemma TracksHas(c: nat, done: seq<Ranking>, part: Ranking, id: string)
    requires c > 0
    ensures id in AllIds(done) + Ids(part) <==> FirstHit(done + [part], id).Some?
    ensures id !in AllIds(done) ==> Score(c, done, id) == 0.0
  {
    HitOfPart(done, part, id);
    HasHit(done, id);
    HasPosition(part, id);
    if id !in AllIds(done) { NoScore(c, done, id); }
  }

  lemma TracksRepeat(c: nat, done: seq<Ranking>, ranking: Ranking, j: nat, scores: map<string, real>,
                     tools: map<string, Hit>)
    requires c > 0 && j < |ranking| && Tracks(c, done, ranking[..j], scores, tools)
    requires ranking[j].id in Ids(ranking[..j])
    ensures Tracks(c, done, ranking[..j + 1], scores, tools)
  {
    hide Ids, AllIds, Score, Share, FirstHit;
    IdsGrow(ranking, j);
    forall id <- scores
      ensures Share(c, ranking[..j + 1], id) == Share(c, ranking[..j], id)
      ensures FirstHit(done + [ranking[..j + 1]], id) == FirstHit(done + [ranking[..j]], id)
    {
      ShareNext(c, ranking, j, id);
      HitNext(done, ranking, j, id);
    }
  }

  lemma TracksNew(c: nat, done: seq<Ranking>, ranking: Ranking, j: nat, scores: map<string, real>,
                  tools: map<string, Hit>)
    requires c > 0 && j < |ranking| && Tracks(c, done, ranking[..j], scores, tools)
    requires ranking[j].id !in Ids(ranking[..j])
    ensures var hit := ranking[j];
            Tracks(c, done, ranking[..j + 1],
                   scores[hit.id := (if hit.id in scores then scores[hit.id] else 0.0) + 1.0 / (c + j + 1) as real],
                   if hit.id in tools then tools else tools[hit.id := hit])
  {
    hide Ids, AllIds, Score, Share, FirstHit;
    var hit := ranking[j];
    IdsGrow(ranking, j);
    TracksHas(c, done, ranking[..j], hit.id);
    forall id <- scores.Keys + {hit.id}
      ensures Share(c, ranking[..j + 1], id) ==
              (if id == hit.id then 1.0 / (c + j + 1) as real else Share(c, ranking[..j], id))
      ensures FirstHit(done + [ranking[..j + 1]], id) == Some(if id in tools then tools[id] else hit)
    {
      ShareNext(c, ranking, j, id);
      HitNext(done, ranking, j, id);
    }
    ShareNext(c, ranking, j, hit.id);
  }

  lemma TracksStart(c: nat, done: seq<Ranking>, scores: map<string, real>, tools: map<string, Hit>)
    requires c > 0 && done != [] && Tracks(c, done[..|done| - 1], done[|done| - 1], scores, tools)
    ensures Tracks(c, done, [], scores, tools)
  {
    assert done[..|done| - 1] + [done[|done| - 1]] == done;
    forall id <- tools ensures FirstHit(done + [[]], id) == Some(tools[id]) {
      HitOfPart(done, [], id);
    }
  }

  ghost predicate Sorted(c: nat, rankings: seq<Ranking>, ids: set<string>, hits: Ranking)
    requires c > 0
  {
    && Ordered(hits) && |hits| == |ids|
    && (forall h <- hits :: h.id in ids && h == Fused(c, rankings, h.id))
    && (forall id <- ids :: Fused(c, rankings, id) in hits)
  }

  lemma PlacesNext(c: nat, rankings: seq<Ranking>, ids: set<string>, hits: Ranking, id: string)
    requires c > 0 && Sorted(c, rankings, ids, hits) && id !in ids
    ensures Sorted(c, rankings, ids + {id}, Place(hits, Fused(c, rankings, id)))
  {
    forall i | 0 <= i < |hits| ensures hits[i].id != id { assert hits[i] in hits; }
    PlaceIs(hits, Fused(c, rankings, id));
  }

  lemma PrefixIsFusion(c: nat, rankings: seq<Ranking>, limit: nat, ordered: Ranking)
    requires c > 0 && Sorted(c, rankings, AllIds(rankings), ordered)
    ensures IsFusion(c, rankings, limit, if |ordered| <= limit then ordered else ordered[..limit])
  {
    hide Fused, AllIds;
    var hits := if |ordered| <= limit then ordered else ordered[..limit];
    FusedId(c, rankings);
    forall id, h | id in AllIds(rankings) && !Contains(hits, id) && h in hits ensures Ahead(h, Fused(c, rankings, id)) {
      hide Ahead;
      var k :| 0 <= k < |ordered| && ordered[k] == Fused(c, rankings, id);
      assert forall m :: 0 <= m < |hits| ==> hits[m] == ordered[m] && hits[m].id != id;
      var i :| 0 <= i < |hits| && hits[i] == h;
      assert ordered[i] == h;
    }
  }

  lemma FusedId(c: nat, rankings: seq<Ranking>)
    requires c > 0
    ensures forall id :: Fused(c, rankings, id).id == id
  {
  }

  class ReciprocalRankFusion {
    const rankConstant: Positive

    constructor (rankConstant: Positive)
      ensures this.rankConstant == rankConstant
    {
      this.rankConstant := rankConstant;
    }

    method Fuse(rankings: seq<Ranking>, limit: int) returns (r: Result<Ranking, FusionError>)
      ensures r.Err? <==> limit <= 0
      ensures r.Ok? ==> IsFusion(rankConstant, rankings, limit, r.value)
    {
      hide Tracks, Sorted, IsFusion, Fused;
      if limit <= 0 { return Err(LimitNotPositive); }
      var scores: map<string, real> := map[];
      var tools: map<string, Hit> := map[];
      NothingTracked(rankConstant);
      for i := 0 to |rankings|
        invariant Tracks(rankConstant, rankings[..i], [], scores, tools)
      {
        var ranking := rankings[i];
        var seen: set<string> := {};
        assert ranking[..0] == [];
        for j := 0 to |ranking|
          invariant seen == Ids(ranking[..j])
          invariant Tracks(rankConstant, rankings[..i], ranking[..j], scores, tools)
        {
          var hit := ranking[j];
          IdsGrow(ranking, j);
          if hit.id in seen {
            TracksRepeat(rankConstant, rankings[..i], ranking, j, scores, tools);
          } else {
            TracksNew(rankConstant, rankings[..i], ranking, j, scores, tools);
            seen := seen + {hit.id};
            if hit.id !in tools { tools := tools[hit.id := hit]; }
            var former := if hit.id in scores then scores[hit.id] else 0.0;
            scores := scores[hit.id := former + 1.0 / (rankConstant + j + 1) as real];
          }
        }
        assert ranking[..|ranking|] == ranking && rankings[..i + 1][..i] == rankings[..i];
        TracksStart(rankConstant, rankings[..i + 1], scores, tools);
      }
      assert rankings[..|rankings|] == rankings;
      var ordered := Sort(rankConstant, rankings, scores, tools);
      PrefixIsFusion(rankConstant, rankings, limit, ordered);
      return Ok(if |ordered| <= limit then ordered else ordered[..limit]);
    }
  }

  lemma NothingTracked(c: nat)
    requires c > 0
    ensures Tracks(c, [], [], map[], map[])
  {
  }

  lemma TrackedIsFused(c: nat, rankings: seq<Ranking>, scores: map<string, real>, tools: map<string, Hit>, id: string)
    requires c > 0 && Tracks(c, rankings, [], scores, tools) && id in scores
    ensures id in tools && Fused(c, rankings, id) == Hit(id, tools[id].name, scores[id])
  {
    HitOfPart(rankings, [], id);
  }

  lemma TrackedIds(c: nat, rankings: seq<Ranking>, scores: map<string, real>, tools: map<string, Hit>)
    requires c > 0 && Tracks(c, rankings, [], scores, tools)
    ensures scores.Keys == AllIds(rankings)
  {
    assert Ids([]) == {};
  }

  /** `sorted` with the key (score descending, name, id) */
  method Sort(c: nat, ghost rankings: seq<Ranking>, scores: map<string, real>, tools: map<string, Hit>)
    returns (ordered: Ranking)
    requires c > 0 && Tracks(c, rankings, [], scores, tools)
    ensures Sorted(c, rankings, AllIds(rankings), ordered)
  {
    hide *;
    ordered := [];
    var left := scores.Keys;
    TrackedIds(c, rankings, scores, tools);
    NothingSorted(c, rankings);
    assert scores.Keys - left == {};
    while left != {}
      invariant left <= scores.Keys && Sorted(c, rankings, scores.Keys - left, ordered)
      decreases left
    {
      var id :| id in left;
      PlacesNext(c, rankings, scores.Keys - left, ordered, id);
      TrackedIsFused(c, rankings, scores, tools, id);
      ordered := Place(ordered, Hit(id, tools[id].name, scores[id]));
      assert scores.Keys - (left - {id}) == (scores.Keys - left) + {id};
      left := left - {id};
    }
    assert scores.Keys - {} == AllIds(rankings);
  }

  lemma NothingSorted(c: nat, rankings: seq<Ranking>)
    requires c > 0
    ensures Sorted(c, rankings, {}, [])
  {
  }

  // ---------------------------------------------------------------- theorems

  /** b is somewhere, and wherever b is, a is before it. */
  ghost predicate Dominates(rankings: seq<Ranking>, a: string, b: string) {
    b in AllIds(rankings) && AlwaysBefore(rankings, a, b)
  }

  ghost predicate AlwaysBefore(rankings: seq<Ranking>, a: string, b: string) {
    forall ranking <- rankings :: Contains(ranking, b) ==> 0 < FirstPosition(ranking, a) < FirstPosition(ranking, b)
  }

  lemma ShareGrows(c: nat, ranking: Ranking, a: string, b: string)
    requires c > 0
    ensures Share(c, ranking, a) >= 0.0
    ensures 0 < FirstPosition(ranking, a) < FirstPosition(ranking, b) ==> Share(c, ranking, a) > Share(c, ranking, b)
  {
    var p, q := FirstPosition(ranking, a), FirstPosition(ranking, b);
    if p > 0 { Reciprocal((c + p) as real, (c + p) as real + 1.0); }
    if 0 < p < q { Reciprocal((c + p) as real, (c + q) as real); }
  }

  lemma Reciprocal(x: real, y: real)
    requires 0.0 < x < y
    ensures 1.0 / x > 1.0 / y > 0.0
  {
    assert 1.0 / x - 1.0 / y == (y - x) / (x * y);
  }

  lemma {:induction false} DominatesScore(c: nat, rankings: seq<Ranking>, a: string, b: string)
    requires c > 0 && AlwaysBefore(rankings, a, b)
    ensures Score(c, rankings, a) >= Score(c, rankings, b)
    ensures b in AllIds(rankings) ==> Score(c, rankings, a) > Score(c, rankings, b) && a in AllIds(rankings)
  {
    if rankings != [] {
      var n := |rankings| - 1;
      DominatesScore(c, rankings[..n], a, b);
      ShareGrows(c, rankings[n], a, b);
      HasPosition(rankings[n], a);
      HasPosition(rankings[n], b);
      assert rankings[n] in rankings;
    }
  }

  /**
   An id that is ahead of another in every ranking that has the other comes out ahead
   of it, and is kept if the other is.
   */
  lemma DominanceIsKept(c: nat, rankings: seq<Ranking>, limit: nat, hits: Ranking, a: string, b: string)
    requires c > 0 && IsFusion(c, rankings, limit, hits) && Dominates(rankings, a, b)
    ensures Contains(hits, b) ==> 0 < FirstPosition(hits, a) < FirstPosition(hits, b)
  {
    hide FirstPosition, AllIds, AlwaysBefore, Score, FirstHit;
    DominatesScore(c, rankings, a, b);
    FirstPositionIs(hits, a);
    FirstPositionIs(hits, b);
    if Contains(hits, b) {
      var j := FirstPosition(hits, b) - 1;
      assert hits[j] in hits && hits[j] == Fused(c, rankings, b);
      assert Contains(hits, a);
      var i := FirstPosition(hits, a) - 1;
      assert hits[i] in hits && hits[i] == Fused(c, rankings, a);
      assert !Ahead(hits[j], hits[i]);
    }
  }

  /** Fusing is a function of its input: no other list satisfies the promise. */
  lemma FusionIsUnique(c: nat, rankings: seq<Ranking>, limit: nat, hits: Ranking, others: Ranking)
    requires c > 0 && IsFusion(c, rankings, limit, hits) && IsFusion(c, rankings, limit, others)
    ensures hits == others
  {
    hide IsFusion, Ahead, Ordered, Fused;
    SameLength(c, rankings, limit, hits, others);
    forall i | 0 <= i < |hits| ensures hits[i] == others[i] {
      SamePlace(c, rankings, limit, hits, others, i);
    }
  }

  lemma {:induction false} SamePlace(c: nat, rankings: seq<Ranking>, limit: nat, hits: Ranking, others: Ranking, i: nat)
    requires c > 0 && IsFusion(c, rankings, limit, hits) && IsFusion(c, rankings, limit, others) && i < |hits|
    ensures hits[..i + 1] == others[..i + 1]
  {
    hide IsFusion, Ahead;
    SameLength(c, rankings, limit, hits, others);
    if i > 0 { SamePlace(c, rankings, limit, hits, others, i - 1); }
    if hits[i] != others[i] {
      NotBehind(c, rankings, limit, hits, others, i);
      NotBehind(c, rankings, limit, others, hits, i);
      AheadTotal(hits[i], others[i]);
    }
  }

  lemma SameLength(c: nat, rankings: seq<Ranking>, limit: nat, hits: Ranking, others: Ranking)
    requires c > 0 && IsFusion(c, rankings, limit, hits) && IsFusion(c, rankings, limit, others)
    ensures |hits| == |others|
  {
  }

  lemma OrderedDistinct(hits: Ranking, k: nat, i: nat)
    requires Ordered(hits) && k < i < |hits|
    ensures hits[k] != hits[i]
  {
    AheadTotal(hits[k], hits[i]);
  }

  /** A fused hit is in the list, or everything in the list is ahead of it. */
  lemma InOrBehind(c: nat, rankings: seq<Ranking>, limit: nat, hits: Ranking, others: Ranking, h: Hit)
    requires c > 0 && IsFusion(c, rankings, limit, hits) && IsFusion(c, rankings, limit, others) && h in others
    ensures h in hits || forall g <- hits :: Ahead(g, h)
  {
    hide Fused, Ahead, Ordered;
    if Contains(hits, h.id) {
      var k :| 0 <= k < |hits| && hits[k].id == h.id;
      assert hits[k] in hits;
    }
  }

  lemma NotBehind(c: nat, rankings: seq<Ranking>, limit: nat, hits: Ranking, others: Ranking, i: nat)
    requires c > 0 && IsFusion(c, rankings, limit, hits) && IsFusion(c, rankings, limit, others) && i < |hits|
    requires i < |others|
    requires hits[..i] == others[..i] && hits[i] != others[i]
    ensures Ahead(hits[i], others[i])
  {
    hide Ahead, Fused, AllIds;
    InOrBehind(c, rankings, limit, hits, others, others[i]);
    if others[i] in hits {
      var k :| 0 <= k < |hits| && hits[k] == others[i];
      if k < i {
        assert hits[..i][k] == hits[k] && others[..i][k] == others[k];
        OrderedDistinct(others, k, i);
      }
    } else {
      assert hits[i] in hits;
    }
  }

  // ------------------------------------------------------------- diagnostics

  ghost predicate RanksOf(hits: Ranking, j: nat, ranked: map<string, (nat, real)>)
    requires j <= |hits|
  {
    && ranked.Keys == Ids(hits[..j])
    && forall id <- ranked :: var p := FirstPosition(hits[..j], id); p > 0 && ranked[id] == (p, hits[p - 1].rank)
  }

  lemma RanksNext(hits: Ranking, j: nat, ranked: map<string, (nat, real)>)
    requires j < |hits| && RanksOf(hits, j, ranked)
    ensures RanksOf(hits, j + 1, if hits[j].id in ranked then ranked else ranked[hits[j].id := (j + 1, hits[j].rank)])
  {
    hide Ids, FirstPosition;
    IdsGrow(hits, j);
    forall id <- ranked.Keys + {hits[j].id}
      ensures FirstPosition(hits[..j + 1], id) == if id in ranked then FirstPosition(hits[..j], id) else j + 1
    {
      PositionGrows(hits, j, id);
      HasPosition(hits[..j], id);
    }
  }

  /** `_ranked_hits`: the first position and strategy score of every id. */
  method RankedHits(hits: Ranking) returns (ranked: map<string, (nat, real)>)
    ensures RanksOf(hits, |hits|, ranked)
  {
    ranked := map[];
    for j := 0 to |hits|
      invariant RanksOf(hits, j, ranked)
    {
      RanksNext(hits, j, ranked);
      if hits[j].id !in ranked {
        ranked := ranked[hits[j].id := (j + 1, hits[j].rank)];
      }
    }
  }

  datatype Diagnostics = Diagnostics(rrfScore: real, lexicalRank: Option<nat>, lexicalScore: Option<real>,
                                     vectorRank: Option<nat>, vectorSimilarity: Option<real>)

  function PartOfScore(c: nat, rank: Option<nat>): real
    requires c > 0
  {
    if rank.Some? then 1.0 / (c + rank.value) as real else 0.0
  }

  function Rank(ranking: Ranking, id: string): (r: Option<nat>)
    ensures r.Some? ==> 0 < r.value <= |ranking| && ranking[r.value - 1].id == id
  {
    if FirstPosition(ranking, id) > 0 then Some(FirstPosition(ranking, id)) else None
  }

  /** The two ranks of a diagnosis reconstruct its fused score, and name the positions in the two rankings. */
  ghost predicate Explains(c: nat, lexical: Ranking, vector: Ranking, id: string, d: Diagnostics)
    requires c > 0
  {
    && d.rrfScore == PartOfScore(c, d.lexicalRank) + PartOfScore(c, d.vectorRank)
    && d.lexicalRank == Rank(lexical, id) && d.vectorRank == Rank(vector, id)
    && (d.lexicalRank.Some? || d.vectorRank.Some?)
    && (d.lexicalRank.Some? ==> d.lexicalScore == Some(lexical[d.lexicalRank.value - 1].rank))
    && (d.vectorRank.Some? ==> d.vectorSimilarity == Some(vector[d.vectorRank.value - 1].rank))
  }

  lemma TwoShares(c: nat, lexical: Ranking, vector: Ranking, id: string)
    requires c > 0
    ensures Score(c, [lexical, vector], id) == Share(c, lexical, id) + Share(c, vector, id)
    ensures AllIds([lexical, vector]) == Ids(lexical) + Ids(vector)
  {
    assert [lexical, vector][..1] == [lexical];
    assert [lexical][..0] == [];
    assert Score(c, [lexical], id) == Share(c, lexical, id);
    assert AllIds([lexical]) == Ids(lexical);
  }

  /** What `_ranked_hits` says about one id. */
  lemma RankOf(hits: Ranking, ranked: map<string, (nat, real)>, id: string, c: nat)
    requires RanksOf(hits, |hits|, ranked) && c > 0
    ensures id in ranked <==> Rank(hits, id).Some?
    ensures id in ranked ==> ranked[id] == (Rank(hits, id).value, hits[Rank(hits, id).value - 1].rank)
    ensures Share(c, hits, id) == PartOfScore(c, Rank(hits, id))
    ensures id in Ids(hits) <==> Rank(hits, id).Some?
  {
    hide FirstPosition, Ids;
    assert hits[..|hits|] == hits;
    HasPosition(hits, id);
  }

  function Diagnose(lexical: map<string, (nat, real)>, vector: map<string, (nat, real)>, hit: Hit): Diagnostics {
    Diagnostics(
      hit.rank,
      if hit.id in lexical then Some(lexical[hit.id].0) else None,
      if hit.id in lexical then Some(lexical[hit.id].1) else None,
      if hit.id in vector then Some(vector[hit.id].0) else None,
      if hit.id in vector then Some(vector[hit.id].1) else None)
  }

  /** The diagnosis of a fused hit explains its score. */
  lemma DiagnosisExplains(c: nat, lexicalHits: Ranking, vectorHits: Ranking, lexical: map<string, (nat, real)>,
                          vector: map<string, (nat, real)>, limit: nat, fused: Ranking, hit: Hit)
    requires c > 0 && RanksOf(lexicalHits, |lexicalHits|, lexical) && RanksOf(vectorHits, |vectorHits|, vector)
    requires IsFusion(c, [lexicalHits, vectorHits], limit, fused) && hit in fused
    ensures Explains(c, lexicalHits, vectorHits, hit.id, Diagnose(lexical, vector, hit))
  {
    hide FirstPosition, Share, RanksOf, Score, AllIds, Ids, Ordered, Contains, PartOfScore, Rank;
    TwoShares(c, lexicalHits, vectorHits, hit.id);
    RankOf(lexicalHits, lexical, hit.id, c);
    RankOf(vectorHits, vector, hit.id, c);
  }

  /** `execute_detailed`, given what the two searches returned */
  method ExecuteDetailed(fusion: ReciprocalRankFusion, lexicalHits: Ranking, vectorHits: Ranking, limit: int)
    returns (r: Result<(Ranking, map<string, Diagnostics>), FusionError>)
    ensures r.Err? <==> limit <= 0
    ensures r.Ok? ==> IsFusion(fusion.rankConstant, [lexicalHits, vectorHits], limit, r.value.0)
    ensures r.Ok? ==> r.value.1.Keys == Ids(r.value.0)
    ensures r.Ok? ==>
              forall id <- r.value.1 :: Explains(fusion.rankConstant, lexicalHits, vectorHits, id, r.value.1[id])
  {
    hide IsFusion, RanksOf, Explains, Diagnose, Ids;
    var fused := fusion.Fuse([lexicalHits, vectorHits], limit);
    if fused.Err? { return Err(fused.error); }
    var lexical := RankedHits(lexicalHits);
    var vector := RankedHits(vectorHits);
    var diagnostics: map<string, Diagnostics> := map[];
    NoIds(fused.value);
    for k := 0 to |fused.value|
      invariant diagnostics.Keys == Ids(fused.value[..k])
      invariant forall id <- diagnostics :: Explains(fusion.rankConstant, lexicalHits, vectorHits, id, diagnostics[id])
    {
      IdsGrow(fused.value, k);
      var hit := fused.value[k];
      DiagnosisExplains(fusion.rankConstant, lexicalHits, vectorHits, lexical, vector, limit, fused.value, hit);
      diagnostics := diagnostics[hit.id := Diagnose(lexical, vector, hit)];
    }
    assert fused.value[..|fused.value|] == fused.value;
    return Ok((fused.value, diagnostics));
  }

  lemma NoIds(hits: Ranking)
    ensures Ids(hits[..0]) == {}
  {
  }
}
