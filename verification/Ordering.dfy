/** The order of strings by code points, and lists kept sorted by it. */
module Ordering {

  predicate Precedes(a: string, b: string) {
    if b == "" then false
    else if a == "" then true
    else if a[0] != b[0] then a[0] < b[0]
    else Precedes(a[1..], b[1..])
  }

  lemma {:induction false} PrecedesItself(a: string)
    ensures !Precedes(a, a)
  {
    if a != "" { PrecedesItself(a[1..]); }
  }

  lemma {:induction false} PrecedesTransitive(a: string, b: string, c: string)
    requires Precedes(a, b) && Precedes(b, c)
    ensures Precedes(a, c)
  {
    if a != "" && a[0] == b[0] && b[0] == c[0] {
      PrecedesTransitive(a[1..], b[1..], c[1..]);
    }
  }

  lemma {:induction false} PrecedesTotal(a: string, b: string)
    ensures a == b || Precedes(a, b) || Precedes(b, a)
  {
    if a != "" && b != "" && a[0] == b[0] {
      PrecedesTotal(a[1..], b[1..]);
      assert a == [a[0]] + a[1..] && b == [b[0]] + b[1..];
    }
  }

  lemma PrecedesAsymmetric(a: string, b: string)
    requires Precedes(a, b)
    ensures !Precedes(b, a) && a != b
  {
    PrecedesItself(a);
    if Precedes(b, a) { PrecedesTransitive(a, b, a); }
  }

  predicate Distinct(ids: seq<string>) {
    forall i, j :: 0 <= i < j < |ids| ==> ids[i] != ids[j]
  }

  /** Sorted without duplicates. */
  predicate Ascending(ids: seq<string>) {
    forall i, j :: 0 <= i < j < |ids| ==> Precedes(ids[i], ids[j])
  }

  /** An id added to a sorted list, once. */
  function Insert(ids: seq<string>, id: string): seq<string> {
    if ids == [] then [id]
    else if ids[0] == id then ids
    else if Precedes(id, ids[0]) then [id] + ids
    else [ids[0]] + Insert(ids[1..], id)
  }

  lemma {:induction false} InsertContents(ids: seq<string>, id: string)
    ensures forall x :: x in Insert(ids, id) <==> x == id || x in ids
  {
    if ids != [] && ids[0] != id && !Precedes(id, ids[0]) {
      InsertContents(ids[1..], id);
      assert ids == [ids[0]] + ids[1..];
    }
  }

  lemma {:induction false} InsertAscends(ids: seq<string>, id: string)
    requires Ascending(ids)
    ensures Ascending(Insert(ids, id))
  {
    if ids == [] || ids[0] == id {
    } else if Precedes(id, ids[0]) {
      forall j | 0 < j < |ids| ensures Precedes(id, ids[j]) { PrecedesTransitive(id, ids[0], ids[j]); }
    } else {
      PrecedesTotal(ids[0], id);
      InsertAscends(ids[1..], id);
      InsertContents(ids[1..], id);
      var rest := Insert(ids[1..], id);
      forall j | 0 <= j < |rest| ensures Precedes(ids[0], rest[j]) {
        assert rest[j] in rest;
        assert rest[j] == id || rest[j] in ids[1..];
      }
    }
  }

  /** `sorted(set(values))` */
  function Normalized(values: seq<string>): seq<string> {
    if values == [] then [] else Insert(Normalized(values[..|values| - 1]), values[|values| - 1])
  }

  lemma {:induction false} NormalizedIs(values: seq<string>)
    ensures Ascending(Normalized(values)) && forall x :: x in Normalized(values) <==> x in values
  {
    if values != [] {
      var n := |values| - 1;
      NormalizedIs(values[..n]);
      InsertAscends(Normalized(values[..n]), values[n]);
      InsertContents(Normalized(values[..n]), values[n]);
      assert values == values[..n] + [values[n]];
    }
  }

  /** A sorted list without duplicates is determined by what it contains. */
  lemma {:induction false} AscendingUnique(a: seq<string>, b: seq<string>)
    requires Ascending(a) && Ascending(b) && forall x :: x in a <==> x in b
    ensures a == b
  {
    assert |b| > 0 ==> b[0] in b;
    if a != [] {
      assert a[0] in a;
      assert b != [] && b[0] in b;
      HeadIsLeast(a, b[0]);
      HeadIsLeast(b, a[0]);
      if a[0] != b[0] { PrecedesAsymmetric(a[0], b[0]); }
      TailContents(a);
      TailContents(b);
      AscendingUnique(a[1..], b[1..]);
    }
  }

  lemma HeadIsLeast(a: seq<string>, x: string)
    requires Ascending(a) && x in a
    ensures x == a[0] || Precedes(a[0], x)
  {
  }

  lemma TailContents(a: seq<string>)
    requires Ascending(a) && a != []
    ensures forall x :: x in a[1..] <==> x in a && x != a[0]
  {
    PrecedesItself(a[0]);
    assert a == [a[0]] + a[1..];
  }

  lemma AscendingIsDistinct(a: seq<string>, i: nat, j: nat)
    requires Ascending(a) && i < j < |a|
    ensures a[i] != a[j]
  {
    PrecedesItself(a[i]);
  }

  lemma NormalizedFixed(values: seq<string>)
    requires Ascending(values)
    ensures Normalized(values) == values
  {
    NormalizedIs(values);
    AscendingUnique(Normalized(values), values);
  }
}
