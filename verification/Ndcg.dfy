/** The retrieval metric NDCG@k: it lies between 0 and 1, and is 1 exactly for an ideal prefix. */
module Ndcg {
  import opened Common
  import opened Ordering

  datatype Label = Label(name: string, grade: nat)

  /** What a position is worth: 1 / log2(position + 1) in the program, any positive strictly falling function here. */
  ghost predicate Falling(d: nat -> real) {
    forall i: nat, j: nat :: i < j ==> 0.0 < d(j) < d(i)
  }

  ghost predicate Labelled(labels: seq<Label>) {
    && (forall i, j :: 0 <= i < j < |labels| ==> labels[i].name != labels[j].name)
    && (forall i :: 0 <= i < |labels| ==> labels[i].grade > 0)
  }

  /** `grades.get(name, 0)` */
  function GradeOf(labels: seq<Label>, name: string): nat {
    if labels == [] then 0 else if labels[0].name == name then labels[0].grade else GradeOf(labels[1..], name)
  }

  function Gain(grade: nat): real {
    (Pow2(grade) - 1) as real
  }

  function Gains(labels: seq<Label>, names: seq<string>): (gains: seq<real>)
    ensures |gains| == |names| && forall i :: 0 <= i < |names| ==> gains[i] == Gain(GradeOf(labels, names[i]))
  {
    seq(|names|, i requires 0 <= i < |names| => Gain(GradeOf(labels, names[i])))
  }

  function Dcg(d: nat -> real, gains: seq<real>): real {
    if gains == [] then 0.0
    else
      var n := |gains| - 1;
      Dcg(d, gains[..n]) + gains[n] * d(n)
  }

  // ------------------------------------------------------------ ideal order

  function PlaceLabel(labels: seq<Label>, item: Label): seq<Label> {
    if labels == [] || item.grade >= labels[0].grade then [item] + labels
    else [labels[0]] + PlaceLabel(labels[1..], item)
  }

  /** `sorted(grades.values(), reverse=True)`, with the names still attached. */
  function ByGrade(labels: seq<Label>): (sorted: seq<Label>)
    ensures |sorted| == |labels|
  {
    if labels == [] then []
    else
      PlaceKeepsLength(ByGrade(labels[1..]), labels[0]);
      PlaceLabel(ByGrade(labels[1..]), labels[0])
  }

  lemma {:induction false} PlaceKeepsLength(labels: seq<Label>, item: Label)
    ensures |PlaceLabel(labels, item)| == |labels| + 1
  {
    if labels != [] && item.grade < labels[0].grade { PlaceKeepsLength(labels[1..], item); }
  }

  function LabelGains(labels: seq<Label>): (gains: seq<real>)
    ensures |gains| == |labels| && forall i :: 0 <= i < |labels| ==> gains[i] == Gain(labels[i].grade)
  {
    seq(|labels|, i requires 0 <= i < |labels| => Gain(labels[i].grade))
  }

  function Upto<T>(s: seq<T>, k: nat): (prefix: seq<T>)
    ensures |prefix| <= k && prefix <= s
  {
    if |s| <= k then s else s[..k]
  }

  /** `_ndcg_at_k` */
  function NdcgAt(d: nat -> real, labels: seq<Label>, ranked: seq<string>, k: nat): real {
    var ideal := Dcg(d, LabelGains(Upto(ByGrade(labels), k)));
    if ideal == 0.0 then 0.0 else Dcg(d, Gains(labels, Upto(ranked, k))) / ideal
  }

  // --------------------------------------------------- sums and their weights

  /** Every prefix of g adds up to at most the same prefix of h. */
  ghost predicate Majorizes(h: seq<real>, g: seq<real>) {
    |g| == |h| && forall j :: 0 <= j <= |g| ==> Sum(g[..j]) <= Sum(h[..j])
  }

  lemma Prefixes(h: seq<real>, g: seq<real>, n: nat)
    requires Majorizes(h, g) && n <= |g|
    ensures Majorizes(h[..n], g[..n]) && Sum(g[..n]) <= Sum(h[..n])
  {
    forall j | 0 <= j <= n ensures Sum(g[..n][..j]) <= Sum(h[..n][..j]) {
      assert g[..n][..j] == g[..j] && h[..n][..j] == h[..j];
    }
  }

  /** Summation by parts: under falling weights the lead of h is at least its unweighted lead at the last weight. */
  lemma {:induction false} WeightedLead(d: nat -> real, h: seq<real>, g: seq<real>)
    requires Falling(d) && Majorizes(h, g)
    ensures Dcg(d, h) - Dcg(d, g) >= (if |g| == 0 then 0.0 else (Sum(h) - Sum(g)) * d(|g| - 1))
    ensures Dcg(d, h) >= Dcg(d, g)
  {
    assert g[..|g|] == g && h[..|h|] == h;
    if |g| > 0 {
      var n := |g| - 1;
      Prefixes(h, g, n);
      Prefixes(h, g, n + 1);
      WeightedLead(d, h[..n], g[..n]);
      var before, after := Sum(h[..n]) - Sum(g[..n]), Sum(h) - Sum(g);
      if n > 0 { Product(before, d(n - 1) - d(n)); }
      assert (h[n] - g[n]) * d(n) == (after - before) * d(n);
      assert d(n + 1) < d(n);
      Product(after, d(n));
    }
  }

  lemma Product(x: real, y: real)
    requires x >= 0.0 && y >= 0.0
    ensures x * y >= 0.0
  {
  }

  lemma LastTerm(d: nat -> real, gains: seq<real>, n: nat)
    requires |gains| == n + 1
    ensures Dcg(d, gains) == Dcg(d, gains[..n]) + gains[n] * d(n) && Sum(gains) == Sum(gains[..n]) + gains[n]
  {
  }

  lemma LeadsAt(h: seq<real>, g: seq<real>, n: nat)
    requires Majorizes(h, g) && n <= |g|
    ensures |h| == |g| && Majorizes(h[..n], g[..n]) && Sum(g[..n]) <= Sum(h[..n]) && Sum(g) <= Sum(h)
    ensures n == 0 ==> Sum(h[..n]) == Sum(g[..n])
  {
    Prefixes(h, g, n);
    assert g[..|g|] == g && h[..|h|] == h;
  }

  /** Equal weighted sums leave no lead anywhere: the lists are the same. */
  lemma {:induction false} NoLeadNoDifference(d: nat -> real, h: seq<real>, g: seq<real>)
    requires Falling(d) && Majorizes(h, g) && Dcg(d, h) == Dcg(d, g)
    ensures h == g
  {
    hide Falling, Majorizes, Dcg, Sum;
    LeadsAt(h, g, 0);
    if |g| > 0 {
      var n := |g| - 1;
      LeadsAt(h, g, n);
      WeightedLead(d, h[..n], g[..n]);
      LastTerm(d, h, n);
      LastTerm(d, g, n);
      var before, after := Sum(h[..n]) - Sum(g[..n]), Sum(h) - Sum(g);
      assert (after - before) * d(n) == h[n] * d(n) - g[n] * d(n);
      NoLead(before, after, d, n, Dcg(d, h[..n]) - Dcg(d, g[..n]));
      NoLeadNoDifference(d, h[..n], g[..n]);
      assert h == h[..n] + [h[n]] && g == g[..n] + [g[n]];
    }
  }

  lemma NoLead(before: real, after: real, d: nat -> real, n: nat, lead: real)
    requires Falling(d) && before >= 0.0 && after >= 0.0
    requires lead >= (if n == 0 then 0.0 else before * d(n - 1)) && (n == 0 ==> before == 0.0)
    requires lead + (after - before) * d(n) == 0.0
    ensures before == 0.0 && after == 0.0 && lead == 0.0
  {
    assert 0.0 < d(n + 1) < d(n);
    if n > 0 {
      assert d(n) < d(n - 1);
      assert before * (d(n - 1) - d(n)) + after * d(n) <= 0.0;
      Product(before, d(n - 1) - d(n));
      Product(after, d(n));
    }
    assert after * d(n) <= 0.0;
    Positive(after, d(n));
    if n > 0 { Positive(before, d(n - 1) - d(n)); }
  }

  lemma Positive(x: real, y: real)
    requires x >= 0.0 && y > 0.0
    ensures x * y <= 0.0 ==> x == 0.0
  {
  }

  // -------------------------------------------- no ranking beats the ideal one

  ghost predicate Descending(labels: seq<Label>) {
    forall i, j :: 0 <= i < j < |labels| ==> labels[i].grade >= labels[j].grade
  }

  lemma GradeOfTail(labels: seq<Label>)
    requires Labelled(labels) && labels != []
    ensures Labelled(labels[1..]) && GradeOf(labels[1..], labels[0].name) == 0
  {
    NotLabelled(labels[1..], labels[0].name);
  }

  lemma {:induction false} NotLabelled(labels: seq<Label>, name: string)
    requires forall i :: 0 <= i < |labels| ==> labels[i].name != name
    ensures GradeOf(labels, name) == 0
  {
    if labels != [] { NotLabelled(labels[1..], name); }
  }

  lemma {:induction false} GradeBelowHead(labels: seq<Label>, name: string)
    requires Descending(labels) && labels != []
    ensures GradeOf(labels, name) <= labels[0].grade
    decreases |labels|
  {
    if labels[0].name != name && |labels| > 1 {
      GradeBelowHead(labels[1..], name);
    }
  }

  lemma {:induction false} GainGrows(a: nat, b: nat)
    requires a <= b
    ensures Gain(a) <= Gain(b) && (a < b ==> Gain(a) < Gain(b)) && Gain(a) >= 0.0
    decreases b
  {
    if a < b { GainGrows(a, b - 1); }
  }

  lemma {:induction false} SumOfConcat(a: seq<real>, b: seq<real>)
    ensures Sum(a + b) == Sum(a) + Sum(b)
  {
    if b == [] {
      assert a + b == a;
    } else {
      var n := |b| - 1;
      assert (a + b)[..|a| + n] == a + b[..n];
      SumOfConcat(a, b[..n]);
    }
  }

  lemma SumWithout(labels: seq<Label>, names: seq<string>, p: nat)
    requires p < |names|
    ensures Sum(Gains(labels, names)) ==
            Gain(GradeOf(labels, names[p])) + Sum(Gains(labels, names[..p] + names[p + 1..]))
  {
    var gains := Gains(labels, names);
    assert gains == gains[..p] + [gains[p]] + gains[p + 1..];
    assert Gains(labels, names[..p] + names[p + 1..]) == gains[..p] + gains[p + 1..];
    SumOfConcat(gains[..p] + [gains[p]], gains[p + 1..]);
    SumOfConcat(gains[..p], [gains[p]]);
    SumOfConcat(gains[..p], gains[p + 1..]);
    assert Sum([gains[p]]) == gains[p];
  }

  lemma TailGains(labels: seq<Label>, names: seq<string>)
    requires labels != [] && labels[0].name !in names
    ensures Gains(labels, names) == Gains(labels[1..], names)
  {
    forall i | 0 <= i < |names| ensures GradeOf(labels, names[i]) == GradeOf(labels[1..], names[i]) {
      assert names[i] in names;
    }
  }

  lemma HeadSum(labels: seq<Label>, j: nat)
    requires labels != [] && j > 0
    ensures Sum(LabelGains(Upto(labels, j))) == Gain(labels[0].grade) + Sum(LabelGains(Upto(labels[1..], j - 1)))
  {
    var gains := LabelGains(Upto(labels, j));
    assert gains == [gains[0]] + LabelGains(Upto(labels[1..], j - 1));
    SumOfConcat([gains[0]], LabelGains(Upto(labels[1..], j - 1)));
    assert Sum([gains[0]]) == gains[0];
  }

  /** The gains of any j different names add up to at most the j greatest gains. */
  lemma {:induction false} BestSum(sorted: seq<Label>, names: seq<string>, j: nat)
    requires Labelled(sorted) && Descending(sorted) && Distinct(names) && |names| <= j
    ensures Sum(Gains(sorted, names)) <= Sum(LabelGains(Upto(sorted, j)))
    decreases |sorted|, |names|
  {
    hide Sum, Labelled, Descending, Gain, GradeOf, Distinct;
    if names == [] {
      GainsNotNegative(Upto(sorted, j));
      assert Gains(sorted, names) == [];
      NoSum();
    } else if sorted == [] {
      ZeroGains(names);
      assert LabelGains(Upto(sorted, j)) == [];
      NoSum();
    } else {
      var p := SetAside(sorted[0].name, names);
      GradeOfTail(sorted);
      DescendingTail(sorted);
      BestSum(sorted[1..], names[..p] + names[p + 1..], j - 1);
      BestStep(sorted, names, j, p);
    }
  }

  lemma NoSum()
    ensures Sum([]) == 0.0
  {
  }

  lemma GainsNotNegative(labels: seq<Label>)
    ensures Sum(LabelGains(labels)) >= 0.0
  {
    NonNegative(LabelGains(labels));
  }

  lemma DescendingTail(labels: seq<Label>)
    requires Descending(labels) && labels != []
    ensures Descending(labels[1..])
  {
  }

  /** Of different names one can be set aside so that a given name is not among the others. */
  lemma SetAside(name: string, names: seq<string>) returns (p: nat)
    requires names != [] && Distinct(names)
    ensures p < |names| && Distinct(names[..p] + names[p + 1..]) && name !in names[..p] + names[p + 1..]
  {
    p := if name in names then IndexOf(names, name) else 0;
    OthersDistinct(names, p);
  }

  /** Setting one name aside costs at most the greatest gain. */
  lemma BestStep(sorted: seq<Label>, names: seq<string>, j: nat, p: nat)
    requires Labelled(sorted) && Descending(sorted) && sorted != [] && j > 0 && p < |names|
    requires sorted[0].name !in names[..p] + names[p + 1..]
    requires Sum(Gains(sorted[1..], names[..p] + names[p + 1..])) <= Sum(LabelGains(Upto(sorted[1..], j - 1)))
    ensures Sum(Gains(sorted, names)) <= Sum(LabelGains(Upto(sorted, j)))
  {
    hide Sum, Labelled, Descending, Gain;
    HeadSum(sorted, j);
    SumWithout(sorted, names, p);
    GradeBelowHead(sorted, names[p]);
    GainGrows(GradeOf(sorted, names[p]), sorted[0].grade);
    TailGains(sorted, names[..p] + names[p + 1..]);
  }

  function IndexOf(names: seq<string>, name: string): (p: nat)
    requires name in names
    ensures p < |names| && names[p] == name
  {
    if names[0] == name then 0 else 1 + IndexOf(names[1..], name)
  }

  lemma OthersDistinct(names: seq<string>, p: nat)
    requires Distinct(names) && p < |names|
    ensures var others := names[..p] + names[p + 1..];
            Distinct(others) && names[p] !in others && forall x <- others :: x in names
  {
  }

  lemma {:induction false} NonNegative(gains: seq<real>)
    requires forall i :: 0 <= i < |gains| ==> gains[i] >= 0.0
    ensures Sum(gains) >= 0.0
  {
    if gains != [] { NonNegative(gains[..|gains| - 1]); }
  }

  lemma {:induction false} ZeroGains(names: seq<string>)
    ensures Sum(Gains([], names)) == 0.0
  {
    if names != [] {
      var n := |names| - 1;
      ZeroGains(names[..n]);
      assert Gains([], names)[..n] == Gains([], names[..n]);
    }
  }

  // ---------------------------------------------------------------- theorems

  lemma {:induction false} PlacedLabels(labels: seq<Label>, item: Label)
    ensures forall l :: l in PlaceLabel(labels, item) <==> l == item || l in labels
  {
    if labels != [] && item.grade < labels[0].grade {
      PlacedLabels(labels[1..], item);
      assert labels == [labels[0]] + labels[1..];
    }
  }

  ghost predicate NoneNamed(labels: seq<Label>, name: string) {
    forall i :: 0 <= i < |labels| ==> labels[i].name != name
  }

  lemma {:induction false} PlacedDescends(labels: seq<Label>, item: Label)
    requires Descending(labels)
    ensures Descending(PlaceLabel(labels, item))
  {
    if labels != [] && item.grade < labels[0].grade {
      PlacedDescends(labels[1..], item);
      PlacedLabels(labels[1..], item);
      var rest := PlaceLabel(labels[1..], item);
      forall i | 0 <= i < |rest| ensures rest[i].grade <= labels[0].grade {
        assert rest[i] in rest;
        assert rest[i] == item || rest[i] in labels[1..];
      }
    }
  }

  lemma {:induction false} PlacedIsLabelled(labels: seq<Label>, item: Label)
    requires Labelled(labels) && item.grade > 0 && NoneNamed(labels, item.name)
    ensures Labelled(PlaceLabel(labels, item))
  {
    if labels != [] && item.grade < labels[0].grade {
      assert NoneNamed(labels[1..], item.name);
      PlacedIsLabelled(labels[1..], item);
      PlacedLabels(labels[1..], item);
      var rest := PlaceLabel(labels[1..], item);
      forall i | 0 <= i < |rest| ensures rest[i].name != labels[0].name {
        assert rest[i] in rest;
        assert rest[i] == item || rest[i] in labels[1..];
      }
    }
  }

  lemma {:induction false} PlacedGrade(labels: seq<Label>, item: Label, name: string)
    requires NoneNamed(labels, item.name)
    ensures GradeOf(PlaceLabel(labels, item), name) == if name == item.name then item.grade else GradeOf(labels, name)
  {
    if labels != [] && item.grade < labels[0].grade {
      PlacedGrade(labels[1..], item, name);
    }
  }

  /** The ideal order has the same labels, best grade first. */
  lemma {:induction false} ByGradeIs(labels: seq<Label>)
    requires Labelled(labels)
    ensures var sorted := ByGrade(labels);
            && Labelled(sorted) && Descending(sorted) && (forall l :: l in sorted <==> l in labels)
            && forall name :: GradeOf(sorted, name) == GradeOf(labels, name)
  {
    if labels != [] {
      ByGradeIs(labels[1..]);
      var rest := ByGrade(labels[1..]);
      forall i | 0 <= i < |rest| ensures rest[i].name != labels[0].name {
        assert rest[i] in rest && rest[i] in labels[1..];
      }
      PlacedLabels(rest, labels[0]);
      PlacedDescends(rest, labels[0]);
      PlacedIsLabelled(rest, labels[0]);
      forall name ensures GradeOf(ByGrade(labels), name) == GradeOf(labels, name) {
        PlacedGrade(rest, labels[0], name);
      }
      assert labels == [labels[0]] + labels[1..];
    }
  }

  function Padded(gains: seq<real>, k: nat): (padded: seq<real>)
    requires |gains| <= k
    ensures |padded| == k && gains <= padded && forall i :: |gains| <= i < k ==> padded[i] == 0.0
  {
    gains + seq(k - |gains|, i => 0.0)
  }

  lemma {:induction false} PaddingIsFree(d: nat -> real, gains: seq<real>, k: nat)
    requires |gains| <= k
    ensures Dcg(d, Padded(gains, k)) == Dcg(d, gains)
    decreases k
  {
    var padded := Padded(gains, k);
    if |gains| == k {
      assert padded == gains;
    } else {
      PaddingIsFree(d, gains, k - 1);
      assert padded[..k - 1] == Padded(gains, k - 1);
    }
  }

  lemma {:induction false} PaddedPrefix(gains: seq<real>, k: nat, j: nat)
    requires |gains| <= k && j <= k
    ensures Sum(Padded(gains, k)[..j]) == Sum(Upto(gains, j))
    decreases j
  {
    var padded := Padded(gains, k);
    if j <= |gains| {
      assert padded[..j] == Upto(gains, j);
    } else {
      PaddedPrefix(gains, k, j - 1);
      assert padded[..j][..j - 1] == padded[..j - 1];
      assert Upto(gains, j) == gains && Upto(gains, j - 1) == gains;
    }
  }

  /** The ideal gains, padded with zeros, majorize those of any ranking without duplicates. */
  lemma IdealMajorizes(labels: seq<Label>, ranked: seq<string>, k: nat)
    requires Labelled(labels) && Distinct(ranked)
    ensures Majorizes(Padded(LabelGains(Upto(ByGrade(labels), k)), k), Padded(Gains(labels, Upto(ranked, k)), k))
  {
    hide Labelled, Sum, Gain, GradeOf, ByGrade, Padded, Descending;
    ByGradeIs(labels);
    var sorted := ByGrade(labels);
    var ideal, gains := LabelGains(Upto(sorted, k)), Gains(labels, Upto(ranked, k));
    forall j | 0 <= j <= k ensures Sum(Padded(gains, k)[..j]) <= Sum(Padded(ideal, k)[..j]) {
      PaddedPrefix(gains, k, j);
      PaddedPrefix(ideal, k, j);
      assert Upto(gains, j) == Gains(sorted, Upto(ranked, j));
      assert Upto(ideal, j) == LabelGains(Upto(sorted, j));
      BestSum(sorted, Upto(ranked, j), j);
    }
  }

  lemma {:induction false} DcgSign(d: nat -> real, gains: seq<real>)
    requires Falling(d) && forall i :: 0 <= i < |gains| ==> gains[i] >= 0.0
    ensures Dcg(d, gains) >= 0.0
    ensures Dcg(d, gains) == 0.0 <==> forall i :: 0 <= i < |gains| ==> gains[i] == 0.0
  {
    if gains != [] {
      var n := |gains| - 1;
      DcgSign(d, gains[..n]);
      assert d(n + 1) < d(n);
      Product(gains[n], d(n));
      Positive(gains[n], d(n));
      assert forall i :: 0 <= i < n ==> gains[..n][i] == gains[i];
    }
  }

  /** The grade at a position of a ranking, and of the ideal one; nothing there counts as 0. */
  function GradeAt(labels: seq<Label>, ranked: seq<string>, i: nat): nat {
    if i < |ranked| then GradeOf(labels, ranked[i]) else 0
  }

  function IdealGradeAt(labels: seq<Label>, i: nat): nat {
    if i < |labels| then ByGrade(labels)[i].grade else 0
  }

  lemma SameGainsSameGrades(labels: seq<Label>, ranked: seq<string>, k: nat)
    ensures Padded(LabelGains(Upto(ByGrade(labels), k)), k) == Padded(Gains(labels, Upto(ranked, k)), k) <==>
            forall i :: 0 <= i < k ==> GradeAt(labels, ranked, i) == IdealGradeAt(labels, i)
  {
    hide Gain, GradeOf, ByGrade;
    var ideal, gains := Padded(LabelGains(Upto(ByGrade(labels), k)), k), Padded(Gains(labels, Upto(ranked, k)), k);
    GainOfNothing();
    forall i | 0 <= i < k
      ensures ideal[i] == Gain(IdealGradeAt(labels, i)) && gains[i] == Gain(GradeAt(labels, ranked, i))
      ensures ideal[i] == gains[i] <==> GradeAt(labels, ranked, i) == IdealGradeAt(labels, i)
    {
      GainInjective(GradeAt(labels, ranked, i), IdealGradeAt(labels, i));
    }
    if forall i :: 0 <= i < k ==> GradeAt(labels, ranked, i) == IdealGradeAt(labels, i) {
      assert ideal == gains;
    }
  }

  lemma GainOfNothing()
    ensures Gain(0) == 0.0
  {
  }

  lemma GainInjective(a: nat, b: nat)
    ensures Gain(a) == Gain(b) ==> a == b
  {
    if a < b { GainGrows(a, b); } else { GainGrows(b, a); }
  }

  lemma IdealPositive(d: nat -> real, labels: seq<Label>, k: nat)
    requires Falling(d) && Labelled(labels)
    ensures var ideal := Dcg(d, LabelGains(Upto(ByGrade(labels), k)));
            ideal >= 0.0 && (ideal > 0.0 <==> labels != [] && k > 0)
  {
    hide Gain, Falling, GradeOf;
    ByGradeIs(labels);
    var gains := LabelGains(Upto(ByGrade(labels), k));
    GainOfNothing();
    forall i | 0 <= i < |gains| ensures gains[i] > 0.0 {
      GainGrows(0, ByGrade(labels)[i].grade);
    }
    DcgSign(d, gains);
    if labels != [] && k > 0 { assert gains[0] > 0.0; }
  }

  lemma RankedGains(d: nat -> real, labels: seq<Label>, ranked: seq<string>, k: nat)
    requires Falling(d)
    ensures Dcg(d, Gains(labels, Upto(ranked, k))) >= 0.0
    ensures Dcg(d, Gains(labels, Upto(ranked, k))) == 0.0 <==>
            forall i :: 0 <= i < |ranked| && i < k ==> GradeOf(labels, ranked[i]) == 0
  {
    hide Gain, Falling, GradeOf;
    var gains := Gains(labels, Upto(ranked, k));
    GainOfNothing();
    forall i | 0 <= i < |gains| ensures gains[i] >= 0.0 && (gains[i] == 0.0 <==> GradeOf(labels, ranked[i]) == 0) {
      GainGrows(0, GradeOf(labels, ranked[i]));
      GainInjective(0, GradeOf(labels, ranked[i]));
    }
    DcgSign(d, gains);
    assert forall i :: 0 <= i < |ranked| && i < k ==> gains[i] == Gain(GradeOf(labels, ranked[i]));
  }

  /**
   NDCG@k of a ranking without duplicates lies between 0 and 1.  It is 1 exactly
   if something is relevant and the grades of the first k results, padded with
   zeros, are the k greatest grades in descending order; it is 0 exactly if none
   of the first k results is relevant.
   */
  lemma NdcgBounds(d: nat -> real, labels: seq<Label>, ranked: seq<string>, k: nat)
    requires Falling(d) && Labelled(labels) && Distinct(ranked)
    ensures 0.0 <= NdcgAt(d, labels, ranked, k) <= 1.0
    ensures NdcgAt(d, labels, ranked, k) == 1.0 <==>
            labels != [] && k > 0 && forall i :: 0 <= i < k ==> GradeAt(labels, ranked, i) == IdealGradeAt(labels, i)
    ensures labels != [] && k > 0 ==>
            (NdcgAt(d, labels, ranked, k) == 0.0 <==>
               forall i :: 0 <= i < |ranked| && i < k ==> GradeOf(labels, ranked[i]) == 0)
  {
    hide Falling, Labelled, Distinct, Dcg, Gain, GradeOf, ByGrade, Padded, GradeAt, IdealGradeAt, Majorizes;
    var ideal, gains := LabelGains(Upto(ByGrade(labels), k)), Gains(labels, Upto(ranked, k));
    IdealPositive(d, labels, k);
    RankedGains(d, labels, ranked, k);
    IdealMajorizes(labels, ranked, k);
    PaddingIsFree(d, ideal, k);
    PaddingIsFree(d, gains, k);
    WeightedLead(d, Padded(ideal, k), Padded(gains, k));
    SameGainsSameGrades(labels, ranked, k);
    if Dcg(d, ideal) == Dcg(d, gains) {
      NoLeadNoDifference(d, Padded(ideal, k), Padded(gains, k));
    }
    Quotient(Dcg(d, gains), Dcg(d, ideal));
  }

  lemma Quotient(x: real, y: real)
    ensures 0.0 <= x <= y && y > 0.0 ==>
              0.0 <= x / y <= 1.0 && (x / y == 1.0 <==> x == y) && (x / y == 0.0 <==> x == 0.0)
  {
    if 0.0 <= x <= y && y > 0.0 {
      assert x == (x / y) * y && x / y == x * (1.0 / y) && 1.0 / y > 0.0;
      Product(x, 1.0 / y);
    }
  }
}
