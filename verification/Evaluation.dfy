/** Evaluating retrieval: the aggregated metrics, their order among each other, and the latency percentiles. */
module Evaluation {
  import opened Common
  import opened Ordering
  import opened Ndcg

  datatype Strategy = Lexical | Vector | Hybrid

  datatype Case = Case(id: string, relevance: seq<Label>, forbidden: seq<string>)
  {
    /** The constructor's checks that matter here: distinct labels with positive grades. */
    ghost predicate Valid() {
      Labelled(relevance)
    }
  }

  datatype Observation = Observation(caseId: string, strategy: Strategy, ranked: seq<string>, latency: real)
  {
    ghost predicate Valid() {
      Distinct(ranked) && latency >= 0.0
    }
  }

  datatype EvalError = KNotPositive | DuplicateObservation | NotCovered | NoPositiveCase

  // ------------------------------------------------------------- percentiles

  function PlaceReal(values: seq<real>, v: real): (placed: seq<real>)
    ensures |placed| == |values| + 1
  {
    if values == [] || v <= values[0] then [v] + values else [values[0]] + PlaceReal(values[1..], v)
  }

  /** `sorted(values)` */
  function SortReals(values: seq<real>): (ordered: seq<real>)
    ensures |ordered| == |values|
  {
    if values == [] then [] else PlaceReal(SortReals(values[1..]), values[0])
  }

  ghost predicate Rising(values: seq<real>) {
    forall i, j :: 0 <= i <= j < |values| ==> values[i] <= values[j]
  }

  lemma {:induction false} PlacedReals(values: seq<real>, v: real)
    ensures multiset(PlaceReal(values, v)) == multiset(values) + multiset{v}
  {
    if values != [] && v > values[0] {
      PlacedReals(values[1..], v);
      assert values == [values[0]] + values[1..];
    }
  }

  lemma {:induction false} PlaceRealIs(values: seq<real>, v: real)
    requires Rising(values)
    ensures Rising(PlaceReal(values, v)) && multiset(PlaceReal(values, v)) == multiset(values) + multiset{v}
  {
    PlacedReals(values, v);
    if values != [] && v > values[0] {
      PlaceRealIs(values[1..], v);
      var rest := PlaceReal(values[1..], v);
      forall i | 0 <= i < |rest| ensures values[0] <= rest[i] {
        assert rest[i] in multiset(rest);
        assert rest[i] == v || rest[i] in values[1..];
      }
    }
  }

  lemma {:induction false} SortRealsIs(values: seq<real>)
    ensures Rising(SortReals(values)) && multiset(SortReals(values)) == multiset(values)
  {
    if values != [] {
      SortRealsIs(values[1..]);
      PlaceRealIs(SortReals(values[1..]), values[0]);
      assert values == [values[0]] + values[1..];
    }
  }

  /** The value at a fractional position of an ordered list, interpolated between its neighbours. */
  function At(ordered: seq<real>, position: real): real
    requires 0.0 <= position <= (|ordered| - 1) as real
  {
    var lower := position.Floor;
    if lower as real == position then ordered[lower]
    else ordered[lower] + (ordered[lower + 1] - ordered[lower]) * (position - lower as real)
  }

  /** Where a quantile falls in an ordered list of n values. */
  function Position(n: nat, quantile: real): (position: real)
    requires n > 0 && 0.0 <= quantile <= 1.0
    ensures 0.0 <= position <= (n - 1) as real
  {
    PositionInside(n - 1, quantile);
    (n - 1) as real * quantile
  }

  /** `_percentile`, for quantiles between 0 and 1 */
  function Percentile(values: seq<real>, quantile: real): real
    requires 0.0 <= quantile <= 1.0
  {
    if values == [] then 0.0 else At(SortReals(values), Position(|values|, quantile))
  }

  lemma PositionInside(last: nat, quantile: real)
    requires 0.0 <= quantile <= 1.0
    ensures 0.0 <= last as real * quantile <= last as real
  {
    Product(last as real, quantile);
    Product(last as real, 1.0 - quantile);
  }

  lemma AtBetween(ordered: seq<real>, position: real)
    requires Rising(ordered) && 0.0 <= position <= (|ordered| - 1) as real
    ensures var lower := position.Floor;
            ordered[lower] <= At(ordered, position) &&
            (lower + 1 < |ordered| ==> At(ordered, position) <= ordered[lower + 1])
  {
    var lower := position.Floor;
    if lower as real != position {
      var gap, fraction := ordered[lower + 1] - ordered[lower], position - lower as real;
      Product(gap, fraction);
      Product(gap, 1.0 - fraction);
      assert gap * fraction + gap * (1.0 - fraction) == gap;
    }
  }

  lemma AtMonotone(ordered: seq<real>, x: real, y: real)
    requires Rising(ordered) && 0.0 <= x <= y <= (|ordered| - 1) as real
    ensures At(ordered, x) <= At(ordered, y)
  {
    AtBetween(ordered, x);
    AtBetween(ordered, y);
    var lower := x.Floor;
    if lower == y.Floor {
      if lower as real != y {
        var gap := ordered[lower + 1] - ordered[lower];
        Product(gap, y - x);
        assert gap * (y - lower as real) - gap * (x - lower as real) == gap * (y - x);
        assert At(ordered, x) == ordered[lower] + gap * (x - lower as real);
      }
    } else {
      assert ordered[lower + 1] <= ordered[y.Floor];
    }
  }

  lemma PositionsRise(n: nat, p: real, q: real)
    requires n > 0 && 0.0 <= p <= q <= 1.0
    ensures Position(n, p) <= Position(n, q)
  {
    Product((n - 1) as real, q - p);
    assert (n - 1) as real * q - (n - 1) as real * p == (n - 1) as real * (q - p);
  }

  lemma AtEnds(ordered: seq<real>)
    requires ordered != []
    ensures At(ordered, 0.0) == ordered[0] && At(ordered, (|ordered| - 1) as real) == ordered[|ordered| - 1]
  {
  }

  lemma SortedEnds(values: seq<real>)
    requires values != []
    ensures Rising(SortReals(values)) && SortReals(values)[0] in values && SortReals(values)[|values| - 1] in values
  {
    SortRealsIs(values);
    var ordered := SortReals(values);
    assert ordered[0] in multiset(ordered) && ordered[|values| - 1] in multiset(ordered);
    assert forall v :: v in multiset(values) <==> v in values;
  }

  /** Percentiles rise with the quantile and stay between the least and the greatest value. */
  lemma PercentilesRise(values: seq<real>, p: real, q: real)
    requires 0.0 <= p <= q <= 1.0
    ensures Percentile(values, p) <= Percentile(values, q)
    ensures values != [] ==>
              (exists v <- values :: v <= Percentile(values, p)) && (exists v <- values :: Percentile(values, q) <= v)
  {
    hide At, SortReals, Rising, Position;
    if values != [] {
      var n, ordered := |values|, SortReals(values);
      SortedEnds(values);
      PositionsRise(n, p, q);
      AtEnds(ordered);
      AtMonotone(ordered, Position(n, p), Position(n, q));
      AtMonotone(ordered, 0.0, Position(n, p));
      AtMonotone(ordered, Position(n, q), (n - 1) as real);
      assert ordered[0] <= Percentile(values, p) && Percentile(values, q) <= ordered[n - 1];
    }
  }

  // ------------------------------------------------------------- one ranking

  predicate Relevant(labels: seq<Label>, name: string) {
    exists l <- labels :: l.name == name
  }

  /** The position of the first relevant result, counted from 1; 0 if there is none. */
  function FirstRelevant(labels: seq<Label>, ranked: seq<string>): (p: nat)
    ensures p <= |ranked|
    ensures p > 0 ==> Relevant(labels, ranked[p - 1])
    ensures forall i :: 0 <= i < (if p == 0 then |ranked| else p - 1) ==> !Relevant(labels, ranked[i])
  {
    if ranked == [] then 0
    else if Relevant(labels, ranked[0]) then 1
    else
      var rest := FirstRelevant(labels, ranked[1..]);
      assert forall i :: 1 <= i < |ranked| ==> ranked[1..][i - 1] == ranked[i];
      if rest == 0 then 0 else rest + 1
  }

  function ReciprocalRank(labels: seq<Label>, ranked: seq<string>): real {
    var p := FirstRelevant(labels, ranked);
    if p == 0 then 0.0 else 1.0 / p as real
  }

  predicate TopOne(labels: seq<Label>, ranked: seq<string>) {
    ranked != [] && Relevant(labels, ranked[0])
  }

  predicate HitAt(labels: seq<Label>, ranked: seq<string>, k: nat) {
    exists i :: 0 <= i < |ranked| && i < k && Relevant(labels, ranked[i])
  }

  function Leaks(forbidden: seq<string>, ranked: seq<string>): (n: nat)
    ensures n <= |ranked|
  {
    if ranked == [] then 0 else (if ranked[0] in forbidden then 1 else 0) + Leaks(forbidden, ranked[1..])
  }

  lemma {:induction false} RelevantExactlyGraded(labels: seq<Label>, name: string)
    requires Labelled(labels)
    ensures Relevant(labels, name) <==> GradeOf(labels, name) > 0
  {
    if labels != [] {
      GradeOfTail(labels);
      RelevantExactlyGraded(labels[1..], name);
      assert labels == [labels[0]] + labels[1..] && labels[0].grade > 0;
    }
  }

  /** How the metrics of one positive case bound each other. */
  lemma OneCase(d: nat -> real, labels: seq<Label>, ranked: seq<string>, k: nat)
    requires Falling(d) && Labelled(labels) && labels != [] && Distinct(ranked) && k > 0
    ensures TopOne(labels, ranked) ==> HitAt(labels, ranked, k) && ReciprocalRank(labels, ranked) == 1.0
    ensures 0.0 <= ReciprocalRank(labels, ranked) <= 1.0
    ensures 0.0 <= NdcgAt(d, labels, ranked, k) <= (if HitAt(labels, ranked, k) then 1.0 else 0.0)
  {
    hide Falling, Labelled, Distinct, NdcgAt, GradeOf, GradeAt, IdealGradeAt, ReciprocalRank, TopOne;
    TopOneCounts(labels, ranked, k);
    NdcgBounds(d, labels, ranked, k);
    if !HitAt(labels, ranked, k) {
      forall i | 0 <= i < |ranked| && i < k ensures GradeOf(labels, ranked[i]) == 0 {
        RelevantExactlyGraded(labels, ranked[i]);
      }
    }
  }

  lemma TopOneCounts(labels: seq<Label>, ranked: seq<string>, k: nat)
    requires k > 0
    ensures TopOne(labels, ranked) ==> HitAt(labels, ranked, k) && ReciprocalRank(labels, ranked) == 1.0
    ensures 0.0 <= ReciprocalRank(labels, ranked) <= 1.0
  {
    hide Relevant;
    var p := FirstRelevant(labels, ranked);
    if p > 0 { Quotient(1.0, p as real); }
  }

  // --------------------------------------------------------------- all cases

  datatype Totals = Totals(positives: nat, noMatches: nat, top1: nat, hits: nat, reciprocal: real, ndcg: real,
                           noMatchCorrect: nat, leaks: nat, returned: nat)

  const NOTHING := Totals(0, 0, 0, 0, 0.0, 0.0, 0, 0, 0)

  function Counted(b: bool): nat {
    if b then 1 else 0
  }

  /** One more case counted. */
  function Count(t: Totals, d: nat -> real, c: Case, ranked: seq<string>, k: nat): Totals {
    var seen := t.(leaks := t.leaks + Leaks(c.forbidden, ranked), returned := t.returned + |ranked|);
    if c.relevance == [] then
      seen.(noMatches := t.noMatches + 1, noMatchCorrect := t.noMatchCorrect + Counted(ranked == []))
    else
      seen.(positives := t.positives + 1,
            top1 := t.top1 + Counted(TopOne(c.relevance, ranked)),
            hits := t.hits + Counted(HitAt(c.relevance, ranked, k)),
            reciprocal := t.reciprocal + ReciprocalRank(c.relevance, ranked),
            ndcg := t.ndcg + NdcgAt(d, c.relevance, ranked, k))
  }

  function Tally(d: nat -> real, cases: seq<Case>, byCase: map<string, Observation>, k: nat): Totals
    requires forall c <- cases :: c.id in byCase
  {
    if cases == [] then NOTHING
    else
      var n := |cases| - 1;
      Count(Tally(d, cases[..n], byCase, k), d, cases[n], byCase[cases[n].id].ranked, k)
  }

  ghost predicate Ideal(c: Case, ranked: seq<string>, k: nat) {
    forall i :: 0 <= i < k ==> GradeAt(c.relevance, ranked, i) == IdealGradeAt(c.relevance, i)
  }

  ghost predicate AllIdeal(cases: seq<Case>, byCase: map<string, Observation>, k: nat)
    requires forall c <- cases :: c.id in byCase
  {
    forall c <- cases :: c.relevance != [] ==> Ideal(c, byCase[c.id].ranked, k)
  }

  ghost predicate InOrder(t: Totals) {
    && t.top1 <= t.hits <= t.positives
    && t.top1 as real <= t.reciprocal <= t.positives as real
    && 0.0 <= t.ndcg <= t.hits as real
    && t.noMatchCorrect <= t.noMatches && t.leaks <= t.returned
  }

  lemma CountInOrder(t: Totals, d: nat -> real, c: Case, ranked: seq<string>, k: nat)
    requires InOrder(t) && Falling(d) && k > 0 && c.Valid() && Distinct(ranked)
    ensures var next := Count(t, d, c, ranked, k);
            && InOrder(next)
            && (next.ndcg == next.positives as real <==>
                t.ndcg == t.positives as real && (c.relevance != [] ==> Ideal(c, ranked, k)))
  {
    hide NdcgAt, ReciprocalRank, TopOne, HitAt, Falling, Labelled, Distinct, Leaks, Ideal;
    if c.relevance != [] {
      OneCase(d, c.relevance, ranked, k);
      IdealCase(d, c, ranked, k);
    }
  }

  lemma AllIdealNext(cases: seq<Case>, byCase: map<string, Observation>, k: nat)
    requires cases != [] && forall c <- cases :: c.id in byCase
    ensures var n := |cases| - 1;
            && (forall c <- cases[..n] :: c in cases) && cases[n] in cases
            && (AllIdeal(cases, byCase, k) <==>
                  AllIdeal(cases[..n], byCase, k) &&
                    (cases[n].relevance != [] ==> Ideal(cases[n], byCase[cases[n].id].ranked, k)))
  {
    hide Ideal;
    assert cases == cases[..|cases| - 1] + [cases[|cases| - 1]];
  }

  lemma {:induction false} TallyInOrder(d: nat -> real, cases: seq<Case>, byCase: map<string, Observation>, k: nat)
    requires Falling(d) && k > 0 && forall c <- cases :: c.id in byCase && c.Valid() && byCase[c.id].Valid()
    ensures InOrder(Tally(d, cases, byCase, k))
    ensures Tally(d, cases, byCase, k).ndcg == Tally(d, cases, byCase, k).positives as real <==>
            AllIdeal(cases, byCase, k)
  {
    hide Count, InOrder, Falling, Labelled, Distinct, Ideal, AllIdeal;
    if cases == [] {
      NoCases(byCase, k);
    } else {
      var n := |cases| - 1;
      AllIdealNext(cases, byCase, k);
      TallyInOrder(d, cases[..n], byCase, k);
      CountInOrder(Tally(d, cases[..n], byCase, k), d, cases[n], byCase[cases[n].id].ranked, k);
    }
  }

  lemma NoCases(byCase: map<string, Observation>, k: nat)
    ensures InOrder(NOTHING) && AllIdeal([], byCase, k)
  {
  }

  lemma IdealCase(d: nat -> real, c: Case, ranked: seq<string>, k: nat)
    requires Falling(d) && Labelled(c.relevance) && c.relevance != [] && Distinct(ranked) && k > 0
    ensures NdcgAt(d, c.relevance, ranked, k) == 1.0 <==> Ideal(c, ranked, k)
  {
    NdcgBounds(d, c.relevance, ranked, k);
  }

  // -------------------------------------------------------------- evaluation

  datatype Metrics = Metrics(caseCount: nat, positiveCount: nat, noMatchCount: nat, top1: real, hitAtK: real, mrr: real,
                             ndcgAtK: real,
                             noMatchAccuracy: real, p50: real, p95: real, leakCount: nat, leakRate: real)

  function Rate(part: real, whole: nat, otherwise: real): real {
    if whole == 0 then otherwise else part / whole as real
  }

  function MetricsOf(t: Totals, cases: seq<Case>, latencies: seq<real>): Metrics {
    Metrics(|cases|, t.positives, t.noMatches,
            Rate(t.top1 as real, t.positives, 0.0), Rate(t.hits as real, t.positives, 0.0),
            Rate(t.reciprocal, t.positives, 0.0), Rate(t.ndcg, t.positives, 0.0),
            Rate(t.noMatchCorrect as real, t.noMatches, 1.0),
            Percentile(latencies, 0.5), Percentile(latencies, 0.95),
            t.leaks, Rate(t.leaks as real, t.returned, 0.0))
  }

  /** The observations of one strategy, by case. */
  ghost predicate Covers(observations: seq<Observation>, strategy: Strategy, cases: seq<Case>,
                         byCase: map<string, Observation>) {
    && (forall c <- cases :: c.id in byCase)
    && (forall id <- byCase ::
          && byCase[id] in observations && byCase[id].strategy == strategy && byCase[id].caseId == id
          && exists c <- cases :: c.id == id)
    && (forall o <- observations :: o.strategy == strategy ==> o.caseId in byCase && byCase[o.caseId] == o)
  }

  /** The latencies of the cases, in their order. */
  function Latencies(cases: seq<Case>, byCase: map<string, Observation>): seq<real>
    requires forall c <- cases :: c.id in byCase
  {
    seq(|cases|, i requires 0 <= i < |cases| => assert cases[i] in cases; byCase[cases[i].id].latency)
  }

  /** How the metrics are ordered: every rate between 0 and 1, and no metric above the ones it implies. */
  ghost predicate Consistent(m: Metrics) {
    && 0.0 <= m.top1 <= m.hitAtK <= 1.0 && m.top1 <= m.mrr <= 1.0 && 0.0 <= m.ndcgAtK <= m.hitAtK
    && 0.0 <= m.noMatchAccuracy <= 1.0 && 0.0 <= m.leakRate <= 1.0 && m.p50 <= m.p95
  }

  lemma RateOrder(x: real, y: real, whole: nat, otherwise: real)
    requires 0.0 <= x <= y <= whole as real
    ensures whole > 0 ==> 0.0 <= Rate(x, whole, otherwise) <= Rate(y, whole, otherwise) <= 1.0
    ensures whole > 0 ==> (Rate(y, whole, otherwise) == 1.0 <==> y == whole as real)
  {
    if whole > 0 {
      Quotient(x, whole as real);
      Quotient(y, whole as real);
      assert y / whole as real - x / whole as real == (y - x) / whole as real;
      Quotient(y - x, whole as real);
    }
  }

  lemma MetricsConsistent(t: Totals, cases: seq<Case>, latencies: seq<real>)
    requires InOrder(t) && t.positives > 0
    ensures var m := MetricsOf(t, cases, latencies);
            Consistent(m) && (m.ndcgAtK == 1.0 <==> t.ndcg == t.positives as real)
  {
    RateOrder(t.top1 as real, t.hits as real, t.positives, 0.0);
    RateOrder(t.top1 as real, t.reciprocal, t.positives, 0.0);
    RateOrder(t.ndcg, t.hits as real, t.positives, 0.0);
    RateOrder(t.ndcg, t.ndcg, t.positives, 0.0);
    RateOrder(t.noMatchCorrect as real, t.noMatchCorrect as real, t.noMatches, 1.0);
    RateOrder(t.leaks as real, t.leaks as real, t.returned, 0.0);
    PercentilesRise(latencies, 0.5, 0.95);
  }

  ghost predicate HasDuplicate(observations: seq<Observation>, strategy: Strategy) {
    exists i, j ::
      0 <= i < j < |observations| && observations[i].strategy == strategy && observations[j].strategy == strategy &&
      observations[i].caseId == observations[j].caseId
  }

  predicate Observed(observations: seq<Observation>, strategy: Strategy, id: string) {
    exists o <- observations :: o.strategy == strategy && o.caseId == id
  }

  predicate IsCase(cases: seq<Case>, id: string) {
    exists c <- cases :: c.id == id
  }

  ghost predicate SameIds(observations: seq<Observation>, strategy: Strategy, cases: seq<Case>) {
    forall id :: Observed(observations, strategy, id) <==> IsCase(cases, id)
  }

  /** The dict of the selected observations; as large as the selection exactly if no case occurs twice. */
  method SelectByCase(observations: seq<Observation>, strategy: Strategy)
    returns (byCase: map<string, Observation>, selected: nat)
    ensures |byCase| == selected <==> !HasDuplicate(observations, strategy)
    ensures forall id :: id in byCase <==> Observed(observations, strategy, id)
    ensures forall id <- byCase ::
              byCase[id] in observations && byCase[id].strategy == strategy && byCase[id].caseId == id
    ensures !HasDuplicate(observations, strategy) ==>
              forall o <- observations :: o.strategy == strategy ==> o.caseId in byCase && byCase[o.caseId] == o
  {
    hide HasDuplicate, Observed;
    byCase, selected := map[], 0;
    NothingObserved(observations, strategy);
    for i := 0 to |observations|
      invariant |byCase| <= selected && (|byCase| == selected <==> !HasDuplicate(observations[..i], strategy))
      invariant forall id :: id in byCase <==> Observed(observations[..i], strategy, id)
      invariant forall id <- byCase ::
                  byCase[id] in observations && byCase[id].strategy == strategy && byCase[id].caseId == id
      invariant |byCase| == selected ==>
                  forall o <- observations[..i] ::
                    o.strategy == strategy ==> o.caseId in byCase && byCase[o.caseId] == o
    {
      var o := observations[i];
      OneMore(observations, i, strategy);
      if o.strategy == strategy {
        selected := selected + 1;
        byCase := byCase[o.caseId := o];
      }
    }
    assert observations[..|observations|] == observations;
  }

  lemma NothingObserved(observations: seq<Observation>, strategy: Strategy)
    ensures !HasDuplicate(observations[..0], strategy) && forall id :: !Observed(observations[..0], strategy, id)
  {
  }

  lemma OneMore(observations: seq<Observation>, i: nat, strategy: Strategy)
    requires i < |observations|
    ensures var o := observations[i];
            && (HasDuplicate(observations[..i + 1], strategy) <==>
                  HasDuplicate(observations[..i], strategy) ||
                    (o.strategy == strategy && Observed(observations[..i], strategy, o.caseId)))
            && (forall id :: Observed(observations[..i + 1], strategy, id) <==>
                  Observed(observations[..i], strategy, id) || (o.strategy == strategy && o.caseId == id))
            && (forall p <- observations[..i + 1] :: p == o || p in observations[..i])
  {
    var before, after, o := observations[..i], observations[..i + 1], observations[i];
    assert after == before + [o];
    forall id
      ensures Observed(after, strategy, id) <==>
              Observed(before, strategy, id) || (o.strategy == strategy && o.caseId == id)
    {
      ObservedNext(before, after, strategy, o, id);
    }
    OldDuplicate(before, after, strategy, o);
    if HasDuplicate(after, strategy) { NewDuplicate(before, after, strategy, o); }
  }

  lemma ObservedNext(before: seq<Observation>, after: seq<Observation>, strategy: Strategy, o: Observation, id: string)
    requires after == before + [o]
    ensures Observed(after, strategy, id) <==>
            Observed(before, strategy, id) || (o.strategy == strategy && o.caseId == id)
  {
    assert o in after && forall p <- before :: p in after;
    if Observed(after, strategy, id) {
      var p :| p in after && p.strategy == strategy && p.caseId == id;
      assert p in before || p == o;
    }
  }

  lemma OldDuplicate(before: seq<Observation>, after: seq<Observation>, strategy: Strategy, o: Observation)
    requires after == before + [o]
    ensures HasDuplicate(before, strategy) || (o.strategy == strategy && Observed(before, strategy, o.caseId)) ==>
              HasDuplicate(after, strategy)
  {
    if HasDuplicate(before, strategy) {
      var j, l :| 0 <= j < l < |before| && before[j].strategy == strategy && before[l].strategy == strategy &&
        before[j].caseId == before[l].caseId;
      assert after[j] == before[j] && after[l] == before[l];
    } else if o.strategy == strategy && Observed(before, strategy, o.caseId) {
      var p :| p in before && p.strategy == strategy && p.caseId == o.caseId;
      var j :| 0 <= j < |before| && before[j] == p;
      assert after[j] == p && after[|before|] == o;
    }
  }

  lemma NewDuplicate(before: seq<Observation>, after: seq<Observation>, strategy: Strategy, o: Observation)
    requires after == before + [o] && HasDuplicate(after, strategy)
    ensures HasDuplicate(before, strategy) || (o.strategy == strategy && Observed(before, strategy, o.caseId))
  {
    var j, l :| 0 <= j < l < |after| && after[j].strategy == strategy && after[l].strategy == strategy &&
      after[j].caseId == after[l].caseId;
    assert after[j] == before[j] && before[j] in before;
    if l < |before| { assert after[l] == before[l]; }
  }

  /** `evaluate_retrieval` */
  method EvaluateRetrieval(d: nat -> real, cases: seq<Case>, observations: seq<Observation>, strategy: Strategy, k: int)
    returns (r: Result<Metrics, EvalError>, ghost byCase: map<string, Observation>)
    requires Falling(d) && (forall c <- cases :: c.Valid()) && (forall o <- observations :: o.Valid())
    ensures r == Err(KNotPositive) <==> k <= 0
    ensures k > 0 ==> (r == Err(DuplicateObservation) <==> HasDuplicate(observations, strategy))
    ensures k > 0 && !HasDuplicate(observations, strategy) ==>
              (r == Err(NotCovered) <==> !SameIds(observations, strategy, cases))
    ensures r == Err(NoPositiveCase) ==> forall c <- cases :: c.relevance == []
    ensures r.Ok? ==> k > 0 && Covers(observations, strategy, cases, byCase) && Consistent(r.value)
    ensures r.Ok? ==> r.value == MetricsOf(Tally(d, cases, byCase, k), cases, Latencies(cases, byCase))
    ensures r.Ok? ==> (r.value.ndcgAtK == 1.0 <==> AllIdeal(cases, byCase, k))
    ensures r.Ok? ==>
              r.value.caseCount == |cases| == r.value.positiveCount + r.value.noMatchCount && r.value.positiveCount > 0
  {
    hide *;
    byCase := map[];
    if k <= 0 { return Err(KNotPositive), byCase; }
    var selection, selected := SelectByCase(observations, strategy);
    byCase := selection;
    if |selection| != selected { return Err(DuplicateObservation), byCase; }
    var expected := set c | c in cases :: c.id;
    Coverage(observations, strategy, cases, selection, expected);
    if selection.Keys != expected { return Err(NotCovered), byCase; }
    var positives: nat, noMatches: nat, top1: nat, hits: nat := 0, 0, 0, 0;
    var noMatchCorrect: nat, leaks: nat, returned: nat := 0, 0, 0;
    var reciprocal, ndcg := 0.0, 0.0;
    NothingTallied(d, selection, k);
    for i := 0 to |cases|
      invariant Totals(positives, noMatches, top1, hits, reciprocal, ndcg, noMatchCorrect, leaks, returned) ==
                Tally(d, cases[..i], selection, k)
    {
      TallyNext(d, cases, i, selection, k);
      var c, ranked := cases[i], selection[cases[i].id].ranked;
      CountIs(Tally(d, cases[..i], selection, k), d, c, ranked, k);
      returned := returned + |ranked|;
      leaks := leaks + Leaks(c.forbidden, ranked);
      if c.relevance == [] {
        noMatches := noMatches + 1;
        noMatchCorrect := noMatchCorrect + Counted(ranked == []);
        continue;
      }
      positives := positives + 1;
      top1 := top1 + Counted(TopOne(c.relevance, ranked));
      hits := hits + Counted(HitAt(c.relevance, ranked, k));
      reciprocal := reciprocal + ReciprocalRank(c.relevance, ranked);
      ndcg := ndcg + NdcgAt(d, c.relevance, ranked, k);
    }
    assert cases[..|cases|] == cases;
    var totals := Totals(positives, noMatches, top1, hits, reciprocal, ndcg, noMatchCorrect, leaks, returned);
    var latencies := Latencies(cases, selection);
    TallyCounts(d, cases, selection, k);
    if totals.positives == 0 { return Err(NoPositiveCase), byCase; }
    ValidSelection(observations, strategy, cases, selection);
    TallyInOrder(d, cases, selection, k);
    MetricsConsistent(totals, cases, latencies);
    MetricCounts(totals, cases, latencies);
    return Ok(MetricsOf(totals, cases, latencies)), byCase;
  }

  lemma CountIs(t: Totals, d: nat -> real, c: Case, ranked: seq<string>, k: nat)
    ensures Count(t, d, c, ranked, k) ==
      if c.relevance == [] then
        Totals(t.positives, t.noMatches + 1, t.top1, t.hits, t.reciprocal, t.ndcg,
               t.noMatchCorrect + Counted(ranked == []),
               t.leaks + Leaks(c.forbidden, ranked), t.returned + |ranked|)
      else
        Totals(t.positives + 1, t.noMatches, t.top1 + Counted(TopOne(c.relevance, ranked)),
               t.hits + Counted(HitAt(c.relevance, ranked, k)),
               t.reciprocal + ReciprocalRank(c.relevance, ranked), t.ndcg + NdcgAt(d, c.relevance, ranked, k),
               t.noMatchCorrect, t.leaks + Leaks(c.forbidden, ranked), t.returned + |ranked|)
  {
    hide Leaks, TopOne, HitAt, ReciprocalRank, NdcgAt, Counted;
  }

  lemma NothingTallied(d: nat -> real, byCase: map<string, Observation>, k: nat)
    ensures Tally(d, [], byCase, k) == Totals(0, 0, 0, 0, 0.0, 0.0, 0, 0, 0)
  {
  }

  lemma TallyNext(d: nat -> real, cases: seq<Case>, i: nat, byCase: map<string, Observation>, k: nat)
    requires i < |cases| && forall c <- cases :: c.id in byCase
    ensures cases[i].id in byCase
    ensures Tally(d, cases[..i + 1], byCase, k) ==
            Count(Tally(d, cases[..i], byCase, k), d, cases[i], byCase[cases[i].id].ranked, k)
  {
    assert cases[..i + 1][..i] == cases[..i] && cases[i] in cases;
  }

  lemma {:induction false} TallyCounts(d: nat -> real, cases: seq<Case>, byCase: map<string, Observation>, k: nat)
    requires forall c <- cases :: c.id in byCase
    ensures var t := Tally(d, cases, byCase, k);
            t.positives + t.noMatches == |cases| && (t.positives == 0 ==> forall c <- cases :: c.relevance == [])
  {
    if cases != [] {
      var n := |cases| - 1;
      TallyCounts(d, cases[..n], byCase, k);
      assert cases == cases[..n] + [cases[n]];
    }
  }

  lemma MetricCounts(t: Totals, cases: seq<Case>, latencies: seq<real>)
    ensures var m := MetricsOf(t, cases, latencies);
            m.caseCount == |cases| && m.positiveCount == t.positives && m.noMatchCount == t.noMatches
  {
  }

  /** The selection covers the cases exactly if it has the same ids. */
  lemma Coverage(observations: seq<Observation>, strategy: Strategy, cases: seq<Case>, byCase: map<string, Observation>,
                 expected: set<string>)
    requires expected == (set c | c in cases :: c.id)
    requires forall id :: id in byCase <==> Observed(observations, strategy, id)
    ensures byCase.Keys == expected <==> SameIds(observations, strategy, cases)
    ensures byCase.Keys == expected ==> forall c <- cases :: c.id in byCase
  {
    hide Observed;
    assert forall id :: id in expected <==> IsCase(cases, id);
    if byCase.Keys == expected {
      forall c <- cases ensures c.id in byCase { assert c.id in expected; }
    }
  }

  lemma ValidSelection(observations: seq<Observation>, strategy: Strategy, cases: seq<Case>,
                       byCase: map<string, Observation>)
    requires (forall o <- observations :: o.Valid()) && (forall c <- cases :: c.id in byCase) &&
             byCase.Keys == (set c | c in cases :: c.id)
    requires forall id <- byCase ::
               byCase[id] in observations && byCase[id].strategy == strategy && byCase[id].caseId == id
    requires forall o <- observations :: o.strategy == strategy ==> o.caseId in byCase && byCase[o.caseId] == o
    ensures Covers(observations, strategy, cases, byCase) && forall c <- cases :: byCase[c.id].Valid()
  {
  }
}
