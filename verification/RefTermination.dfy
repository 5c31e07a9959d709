/**
 The cycle stack alone makes unfolding terminate: `Acyclic` is `_resolve_node`
 without the depth guard, accepted because the references not yet on the stack
 run out.  It succeeds exactly when some depth bound would have been enough.
 */
module RefTermination {
  import opened Common
  import opened Json
  import opened JsonPointer
  import opened RefResolver

  /** Every reference string that occurs in v. */
  ghost function Refs(v: Json): set<string>
    decreases v
  {
    match v
    case Arr(items) => set i, r | 0 <= i < |items| && r in Refs(items[i]) :: r
    case Obj(fields) =>
      (set i, r | 0 <= i < |fields| && r in Refs(fields[i].value) :: r) + OwnRef(fields)
    case _ => {}
  }

  ghost function OwnRef(fields: Fields): set<string> {
    if ReferenceOf(fields).Some? && ReferenceOf(fields).value.Str? then {ReferenceOf(fields).value.s} else {}
  }

  ghost predicate AllWithin(values: seq<Json>, universe: set<string>) {
    forall v <- values :: Refs(v) <= universe
  }

  /** Following a reference of the universe leads to references of the universe. */
  ghost predicate Closed(deref: Deref, universe: set<string>) {
    forall r <- universe :: deref(r).Some? ==> Refs(deref(r).value) <= universe
  }

  ghost function Weight(v: Json): nat
    decreases v, 0
  {
    match v
    case Arr(items) => 1 + WeightAll(items)
    case Obj(fields) => 1 + WeightFields(fields)
    case _ => 0
  }

  ghost function WeightAll(values: seq<Json>): nat
    decreases values, 1
  {
    if values == [] then 0 else 1 + Weight(values[0]) + WeightAll(values[1..])
  }

  ghost function WeightFields(fields: Fields): nat
    decreases fields, 1
  {
    if fields == [] then 0 else 1 + Weight(fields[0].value) + WeightFields(fields[1..])
  }

  lemma {:induction false} ValuesWeigh(fields: Fields)
    ensures WeightAll(Values(WithoutExamples(fields))) <= WeightFields(fields)
  {
    if fields != [] {
      ValuesWeigh(fields[1..]);
      var kept := WithoutExamples(fields);
      if fields[0].key !in EXAMPLE_KEYS {
        assert Values(kept)[1..] == Values(kept[1..]);
      }
    }
  }

  lemma {:induction false} SiblingsWeigh(fields: Fields)
    ensures WeightFields(Without(fields, "$ref")) <= WeightFields(fields)
    ensures ReferenceOf(fields).Some? ==> WeightFields(Without(fields, "$ref")) < WeightFields(fields)
  {
    if fields != [] {
      SiblingsWeigh(fields[1..]);
    }
  }

  lemma {:induction false} WithoutKeeps(fields: Fields, key: string)
    ensures forall f <- Without(fields, key) :: f in fields && f.key != key
  {
    if fields != [] {
      WithoutKeeps(fields[1..], key);
    }
  }

  lemma SiblingsWithin(fields: Fields, universe: set<string>)
    requires Refs(Obj(fields)) <= universe
    ensures Refs(Obj(Without(fields, "$ref"))) <= universe
  {
    var kept := Without(fields, "$ref");
    WithoutKeeps(fields, "$ref");
    NoReference(kept);
    forall i, r | 0 <= i < |kept| && r in Refs(kept[i].value) ensures r in universe {
      var j :| 0 <= j < |fields| && fields[j] == kept[i];
      assert r in Refs(fields[j].value);
    }
  }

  lemma PlainWithin(fields: Fields, universe: set<string>)
    requires Refs(Obj(fields)) <= universe
    ensures AllWithin(Values(WithoutExamples(fields)), universe)
  {
    var kept := WithoutExamples(fields);
    WithoutExamplesKeeps(fields);
    forall v, r | v in Values(kept) && r in Refs(v) ensures r in universe {
      var i :| 0 <= i < |kept| && Values(kept)[i] == v;
      var j :| 0 <= j < |fields| && fields[j] == kept[i];
      assert r in Refs(fields[j].value);
    }
  }

  /** A reference that is not on the stack yet leaves fewer references to follow. */
  lemma StackProgress(fields: Fields, deref: Deref, stack: seq<string>, universe: set<string>)
    requires Refs(Obj(fields)) <= universe && Closed(deref, universe)
    requires ReferenceOf(fields).Some? && ReferenceOf(fields).value.Str? && ReferenceOf(fields).value.s !in stack
    ensures var r := ReferenceOf(fields).value.s;
            Left(stack + [r], universe) < Left(stack, universe) &&
            (deref(r).Some? ==> Refs(deref(r).value) <= universe)
  {
    var r := ReferenceOf(fields).value.s;
    assert r in universe;
    assert r in Left(stack, universe) && r !in Left(stack + [r], universe);
  }

  /** The references still allowed. */
  ghost function Left(stack: seq<string>, universe: set<string>): set<string> {
    set r | r in universe && r !in stack
  }

  ghost function Acyclic(value: Json, deref: Deref, stack: seq<string>, universe: set<string>): Result<Json, Error>
    requires Refs(value) <= universe && Closed(deref, universe)
    decreases Left(stack, universe), Weight(value)
  {
    match value
    case Arr(items) =>
      var resolved :- AcyclicAll(items, deref, stack, universe);
      Ok(Arr(resolved))
    case Obj(fields) =>
      (match ReferenceOf(fields)
       case Some(reference) =>
         if !IsLocal(reference) || reference.s in stack then Err(Unsupported)
         else
           StackProgress(fields, deref, stack, universe);
           SiblingsWithin(fields, universe);
           SiblingsWeigh(fields);
           (match deref(reference.s)
            case None => Err(InvalidDocument)
            case Some(target) =>
              var resolved :- Acyclic(target, deref, stack + [reference.s], universe);
              if !resolved.Obj? then Err(InvalidDocument)
              else
                var siblings :- Acyclic(Obj(Without(fields, "$ref")), deref, stack, universe);
                if !siblings.Obj? then Err(InvalidDocument)
                else Ok(Obj(Merge(resolved.fields, siblings.fields))))
       case None =>
         var kept := WithoutExamples(fields);
         PlainWithin(fields, universe);
         ValuesWeigh(fields);
         var resolved :- AcyclicAll(Values(kept), deref, stack, universe);
         Ok(Obj(Rekey(kept, resolved))))
    case _ => Ok(value)
  }

  ghost function AcyclicAll(values: seq<Json>, deref: Deref, stack: seq<string>,
                            universe: set<string>): (r: Result<seq<Json>, Error>)
    requires AllWithin(values, universe) && Closed(deref, universe)
    ensures r.Ok? ==> |r.value| == |values|
    decreases Left(stack, universe), WeightAll(values)
  {
    if values == [] then Ok([])
    else
      assert values[0] in values && forall v <- values[1..] :: v in values;
      var first :- Acyclic(values[0], deref, stack, universe);
      var rest :- AcyclicAll(values[1..], deref, stack, universe);
      Ok([first] + rest)
  }

  lemma {:induction false} GuardedIsAcyclic(limit: nat, value: Json, deref: Deref, stack: seq<string>, depth: nat,
                                            universe: set<string>)
    requires Refs(value) <= universe && Closed(deref, universe)
    requires Walk(true, limit, value, deref, stack, depth).Ok?
    ensures Acyclic(value, deref, stack, universe) == Walk(true, limit, value, deref, stack, depth)
    decreases Remaining(limit, depth), 0, 1
  {
    match value
    case Arr(items) =>
      GuardedAreAcyclic(limit, items, deref, stack, depth + 1, universe);
    case Obj(fields) =>
      if ReferenceOf(fields).Some? {
        GuardedReferenceIsAcyclic(limit, fields, deref, stack, depth, universe);
      } else {
        PlainWithin(fields, universe);
        GuardedAreAcyclic(limit, Values(WithoutExamples(fields)), deref, stack, depth + 1, universe);
      }
    case _ =>
  }

  lemma {:induction false} GuardedReferenceIsAcyclic(limit: nat, fields: Fields, deref: Deref, stack: seq<string>,
                                                     depth: nat, universe: set<string>)
    requires Refs(Obj(fields)) <= universe && Closed(deref, universe) && ReferenceOf(fields).Some?
    requires Walk(true, limit, Obj(fields), deref, stack, depth).Ok?
    ensures Acyclic(Obj(fields), deref, stack, universe) == Walk(true, limit, Obj(fields), deref, stack, depth)
    decreases Remaining(limit, depth), 0, 0
  {
    var reference := ReferenceOf(fields).value;
    StackProgress(fields, deref, stack, universe);
    SiblingsWithin(fields, universe);
    GuardedIsAcyclic(limit, deref(reference.s).value, deref, stack + [reference.s], depth + 1, universe);
    GuardedIsAcyclic(limit, Obj(Without(fields, "$ref")), deref, stack, depth + 1, universe);
  }

  lemma {:induction false} GuardedAreAcyclic(limit: nat, values: seq<Json>, deref: Deref, stack: seq<string>,
                                             depth: nat, universe: set<string>)
    requires AllWithin(values, universe) && Closed(deref, universe)
    requires WalkAll(true, limit, values, deref, stack, depth).Ok?
    ensures AcyclicAll(values, deref, stack, universe) == WalkAll(true, limit, values, deref, stack, depth)
    decreases Remaining(limit, depth), |values|
  {
    if values != [] {
      assert values[0] in values && forall v <- values[1..] :: v in values;
      GuardedIsAcyclic(limit, values[0], deref, stack, depth, universe);
      GuardedAreAcyclic(limit, values[1..], deref, stack, depth, universe);
    }
  }

  function Max(a: nat, b: nat): nat {
    if a < b then b else a
  }

  lemma {:induction false} AcyclicHasDepth(value: Json, deref: Deref, stack: seq<string>, universe: set<string>)
    returns (limit: nat)
    requires Refs(value) <= universe && Closed(deref, universe)
    requires Acyclic(value, deref, stack, universe).Ok?
    ensures Walk(true, limit, value, deref, stack, 0) == Acyclic(value, deref, stack, universe)
    decreases Left(stack, universe), Weight(value)
  {
    match value
    case Arr(items) =>
      var n := AcyclicAllHaveDepth(items, deref, stack, universe);
      limit := n + 1;
      RelaxAll(true, n, items, deref, stack, 0, true, limit, stack, 1);
    case Obj(fields) =>
      match ReferenceOf(fields) {
        case Some(reference) =>
          StackProgress(fields, deref, stack, universe);
          SiblingsWithin(fields, universe);
          SiblingsWeigh(fields);
          var target := deref(reference.s).value;
          var m := AcyclicHasDepth(target, deref, stack + [reference.s], universe);
          var n := AcyclicHasDepth(Obj(Without(fields, "$ref")), deref, stack, universe);
          limit := Max(m, n) + 1;
          Relax(true, m, target, deref, stack + [reference.s], 0, true, limit, stack + [reference.s], 1);
          Relax(true, n, Obj(Without(fields, "$ref")), deref, stack, 0, true, limit, stack, 1);
        case None =>
          PlainWithin(fields, universe);
          ValuesWeigh(fields);
          var values := Values(WithoutExamples(fields));
          var n := AcyclicAllHaveDepth(values, deref, stack, universe);
          limit := n + 1;
          RelaxAll(true, n, values, deref, stack, 0, true, limit, stack, 1);
      }
    case _ =>
      limit := 0;
  }

  lemma {:induction false} AcyclicAllHaveDepth(values: seq<Json>, deref: Deref, stack: seq<string>,
                                               universe: set<string>)
    returns (limit: nat)
    requires AllWithin(values, universe) && Closed(deref, universe)
    requires AcyclicAll(values, deref, stack, universe).Ok?
    ensures WalkAll(true, limit, values, deref, stack, 0) == AcyclicAll(values, deref, stack, universe)
    decreases Left(stack, universe), WeightAll(values)
  {
    if values == [] {
      limit := 0;
    } else {
      assert values[0] in values && forall v <- values[1..] :: v in values;
      var m := AcyclicHasDepth(values[0], deref, stack, universe);
      var n := AcyclicAllHaveDepth(values[1..], deref, stack, universe);
      limit := Max(m, n);
      Relax(true, m, values[0], deref, stack, 0, true, limit, stack, 0);
      RelaxAll(true, n, values[1..], deref, stack, 0, true, limit, stack, 0);
    }
  }

  /** The references of a document and of a node into it are closed under the document's pointers. */
  lemma DocumentCloses(value: Json, document: Fields)
    ensures Closed(Dereferencer(document), Refs(Obj(document)) + Refs(value))
  {
    forall reference | |reference| >= 2 && Lookup(document, reference).Some?
      ensures Refs(Lookup(document, reference).value) <= Refs(Obj(document))
    {
      RefsBelow(Obj(document), Unescaped(Split(reference[2..])));
    }
  }

  lemma {:induction false} RefsBelow(node: Json, path: seq<string>)
    requires At(node, path).Some?
    ensures Refs(At(node, path).value) <= Refs(node)
    decreases |path|
  {
    if path != [] {
      GetIsAField(node.fields, path[0]);
      var child := Get(node.fields, path[0]).value;
      var i :| 0 <= i < |node.fields| && node.fields[i] == Field(path[0], child);
      assert Refs(node.fields[i].value) <= Refs(node);
      RefsBelow(child, path[1..]);
    }
  }

  /**
   With the cycle stack as its only guard, resolution of a node in its document
   ends (the measure above), agrees with the guarded resolution wherever that
   succeeds, and succeeds exactly when plain unfolding is finite.
   */
  lemma StackAloneSuffices(value: Json, document: Fields)
    ensures var universe := Refs(Obj(document)) + Refs(value);
            Closed(Dereferencer(document), universe) &&
            (Resolve(value, document, [], 0).Ok? ==>
               Acyclic(value, Dereferencer(document), [], universe) == Resolve(value, document, [], 0)) &&
            (Acyclic(value, Dereferencer(document), [], universe).Ok? <==>
               exists n: nat :: Unfolds(value, Dereferencer(document), n))
  {
    var deref, universe := Dereferencer(document), Refs(Obj(document)) + Refs(value);
    DocumentCloses(value, document);
    if Resolve(value, document, [], 0).Ok? {
      GuardedIsAcyclic(MAX_REF_DEPTH, value, deref, [], 0, universe);
    }
    if Acyclic(value, deref, [], universe).Ok? {
      var n := AcyclicHasDepth(value, deref, [], universe);
      Relax(true, n, value, deref, [], 0, false, n, [], 0);
      assert Unfolds(value, deref, n);
    }
    if n: nat :| Unfolds(value, deref, n) {
      CycleGuardIdle(n, value, deref, [], 0);
      GuardedIsAcyclic(n, value, deref, [], 0, universe);
    }
  }

  /** n lists around a null. */
  function Nest(n: nat): Json {
    if n == 0 then Null else Arr([Nest(n - 1)])
  }

  lemma {:induction false} NestNeedsDepth(n: nat, deref: Deref, depth: nat)
    ensures Walk(true, MAX_REF_DEPTH, Nest(n), deref, [], depth).Ok? <==> depth + n <= MAX_REF_DEPTH
    decreases n
  {
    if n > 0 && depth <= MAX_REF_DEPTH {
      NestNeedsDepth(n - 1, deref, depth + 1);
      assert WalkAll(true, MAX_REF_DEPTH, [Nest(n - 1)][1..], deref, [], depth + 1) == Ok([]);
    }
  }

  /** The depth guard does decide outcomes: nesting without any reference is rejected beyond 32 levels. */
  lemma DepthGuardDecides(n: nat, document: Fields)
    ensures Resolve(Nest(n), document, [], 0).Ok? <==> n <= MAX_REF_DEPTH
  {
    NestNeedsDepth(n, Dereferencer(document), 0);
  }
}
