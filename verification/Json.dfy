/**
 JSON documents.  An object is the list of its fields in insertion order, as a
 Python dict keeps them; lookups take the first field with the key.
 */
module Json {
  import opened Common

  datatype Field = Field(key: string, value: Json)

  datatype Json =
    | Null
    | Bool(b: bool)
    | Num(n: int)
    | Str(s: string)
    | Arr(items: seq<Json>)
    | Obj(fields: seq<Field>)

  type Fields = seq<Field>

  function Get(fields: Fields, key: string): Option<Json> {
    if fields == [] then None
    else if fields[0].key == key then Some(fields[0].value)
    else Get(fields[1..], key)
  }

  function Without(fields: Fields, key: string): (kept: Fields)
    ensures |kept| <= |fields|
  {
    if fields == [] then []
    else if fields[0].key == key then Without(fields[1..], key)
    else [fields[0]] + Without(fields[1..], key)
  }

  /** Assignment to one key of a dict: an existing key keeps its place. */
  function Put(fields: Fields, f: Field): Fields {
    if fields == [] then [f]
    else if fields[0].key == f.key then [f] + fields[1..]
    else [fields[0]] + Put(fields[1..], f)
  }

  /** The display {**base, **over}. */
  function Merge(base: Fields, over: Fields): Fields
    decreases |over|
  {
    if over == [] then base else Merge(Put(base, over[0]), over[1..])
  }

  lemma {:induction false} PutFields(fields: Fields, f: Field)
    ensures forall g <- Put(fields, f) :: g == f || g in fields
  {
    if fields != [] && fields[0].key != f.key {
      PutFields(fields[1..], f);
    }
  }

  lemma {:induction false} MergeFields(base: Fields, over: Fields)
    ensures forall g <- Merge(base, over) :: g in base || g in over
    decreases |over|
  {
    if over != [] {
      PutFields(base, over[0]);
      MergeFields(Put(base, over[0]), over[1..]);
    }
  }

  function Values(fields: Fields): (r: seq<Json>)
    ensures |r| == |fields|
    ensures forall i :: 0 <= i < |r| ==> r[i] == fields[i].value
  {
    seq(|fields|, i requires 0 <= i < |fields| => fields[i].value)
  }

  /** The fields with the same keys and new values. */
  function Rekey(fields: Fields, values: seq<Json>): (r: Fields)
    requires |fields| == |values|
    ensures |r| == |fields|
    ensures forall i :: 0 <= i < |r| ==> r[i] == Field(fields[i].key, values[i])
  {
    seq(|fields|, i requires 0 <= i < |fields| => Field(fields[i].key, values[i]))
  }

  /** Nesting of v is at most n levels (a scalar or an empty container has none). */
  ghost predicate HeightWithin(v: Json, n: int)
    decreases v
  {
    0 <= n &&
    match v
    case Arr(items) => forall x <- items :: HeightWithin(x, n - 1)
    case Obj(fields) => forall f <- fields :: HeightWithin(f.value, n - 1)
    case _ => true
  }

  lemma {:induction false} HeightMonotone(v: Json, m: int, n: int)
    requires HeightWithin(v, m) && m <= n
    ensures HeightWithin(v, n)
    decreases v
  {
    match v
    case Arr(items) =>
      forall x <- items ensures HeightWithin(x, n - 1) { HeightMonotone(x, m - 1, n - 1); }
    case Obj(fields) =>
      forall f <- fields ensures HeightWithin(f.value, n - 1) { HeightMonotone(f.value, m - 1, n - 1); }
    case _ =>
  }

  lemma {:induction false} GetIsAField(fields: Fields, key: string)
    ensures Get(fields, key).Some? ==> Field(key, Get(fields, key).value) in fields
    ensures Get(fields, key).None? ==> forall f <- fields :: f.key != key
  {
    if fields != [] && fields[0].key != key {
      GetIsAField(fields[1..], key);
    }
  }
}
