/**
 Unfolding of local references: `_resolve_node` with its cycle stack and depth
 guard.  `Walk` carries two switches that the code does not have, so that the
 effect of each guard can be stated: `checked` turns the cycle guard off, and
 `limit` is the depth bound (32 in the code).
 */
module RefResolver {
  import opened Common
  import opened Json
  import opened JsonPointer

  const MAX_REF_DEPTH := 32

  datatype Error = Unsupported | InvalidDocument

  const EXAMPLE_KEYS := {"example", "examples"}

  function WithoutExamples(fields: Fields): (kept: Fields)
    ensures |kept| <= |fields|
  {
    if fields == [] then []
    else if fields[0].key in EXAMPLE_KEYS then WithoutExamples(fields[1..])
    else [fields[0]] + WithoutExamples(fields[1..])
  }

  lemma {:induction false} WithoutExamplesKeeps(fields: Fields)
    ensures forall f <- WithoutExamples(fields) :: f in fields && f.key !in EXAMPLE_KEYS
    ensures (forall f <- fields :: f.key !in EXAMPLE_KEYS) ==> WithoutExamples(fields) == fields
  {
    if fields != [] {
      WithoutExamplesKeeps(fields[1..]);
      assert [fields[0]] + fields[1..] == fields;
    }
  }

  predicate IsLocal(reference: Json) {
    reference.Str? && "#/" <= reference.s
  }

  /** The value under "$ref" when it is there and not null (keys of an object are unique). */
  function ReferenceOf(fields: Fields): Option<Json> {
    if fields == [] then None
    else if fields[0].key == "$ref" && !fields[0].value.Null? then Some(fields[0].value)
    else ReferenceOf(fields[1..])
  }

  function Remaining(limit: nat, depth: nat): nat {
    if depth <= limit + 1 then limit + 1 - depth else 0
  }

  /** What a local reference denotes in the document at hand. */
  type Deref = string -> Option<Json>

  function Walk(checked: bool, limit: nat, value: Json, deref: Deref,
                stack: seq<string>, depth: nat): Result<Json, Error>
    decreases Remaining(limit, depth), 0
  {
    if depth > limit then Err(Unsupported)
    else match value
      case Arr(items) =>
        var resolved :- WalkAll(checked, limit, items, deref, stack, depth + 1);
        Ok(Arr(resolved))
      case Obj(fields) =>
        (match ReferenceOf(fields)
         case Some(reference) =>
           if !IsLocal(reference) then Err(Unsupported)
           else if checked && reference.s in stack then Err(Unsupported)
           else (match deref(reference.s)
                 case None => Err(InvalidDocument)
                 case Some(target) =>
                   var resolved :- Walk(checked, limit, target, deref, stack + [reference.s], depth + 1);
                   if !resolved.Obj? then Err(InvalidDocument)
                   else
                     var siblings :- Walk(checked, limit, Obj(Without(fields, "$ref")), deref, stack, depth + 1);
                     if !siblings.Obj? then Err(InvalidDocument)
                     else Ok(Obj(Merge(resolved.fields, siblings.fields))))
         case None =>
           var kept := WithoutExamples(fields);
           var resolved :- WalkAll(checked, limit, Values(kept), deref, stack, depth + 1);
           Ok(Obj(Rekey(kept, resolved))))
      case _ => Ok(value)
  }

  function WalkAll(checked: bool, limit: nat, values: seq<Json>, deref: Deref,
                   stack: seq<string>, depth: nat): (r: Result<seq<Json>, Error>)
    ensures r.Ok? ==> |r.value| == |values|
    decreases Remaining(limit, depth), |values|
  {
    if values == [] then Ok([])
    else
      var first :- Walk(checked, limit, values[0], deref, stack, depth);
      var rest :- WalkAll(checked, limit, values[1..], deref, stack, depth);
      Ok([first] + rest)
  }

  function Dereferencer(document: Fields): Deref {
    reference => if |reference| < 2 then None else Lookup(document, reference)
  }

  /** `_resolve_node` */
  function Resolve(value: Json, document: Fields, stack: seq<string>, depth: nat): Result<Json, Error> {
    Walk(true, MAX_REF_DEPTH, value, Dereferencer(document), stack, depth)
  }

  // ---------------------------------------------------------------- guards

  /** Turning guards down never changes a success. */
  lemma {:induction false} Relax(checked: bool, limit: nat, value: Json, deref: Deref, stack: seq<string>, depth: nat,
              checked': bool, limit': nat, stack': seq<string>, depth': nat)
    requires checked' ==> checked && forall r <- stack' :: r in stack
    requires limit - depth <= limit' - depth'
    requires Walk(checked, limit, value, deref, stack, depth).Ok?
    ensures Walk(checked', limit', value, deref, stack', depth')
         == Walk(checked, limit, value, deref, stack, depth)
    decreases Remaining(limit, depth), 0
  {
    match value
    case Arr(items) =>
      RelaxAll(checked, limit, items, deref, stack, depth + 1, checked', limit', stack', depth' + 1);
    case Obj(fields) =>
      match ReferenceOf(fields) {
        case Some(reference) =>
          RelaxReference(checked, limit, fields, deref, stack, depth, checked', limit', stack', depth');
        case None =>
          RelaxAll(checked, limit, Values(WithoutExamples(fields)), deref, stack, depth + 1,
                   checked', limit', stack', depth' + 1);
      }
    case _ =>
  }

  lemma {:induction false} RelaxReference(checked: bool, limit: nat, fields: Fields, deref: Deref, stack: seq<string>,
                                          depth: nat,
                 checked': bool, limit': nat, stack': seq<string>, depth': nat)
    requires checked' ==> checked && forall r <- stack' :: r in stack
    requires limit - depth <= limit' - depth'
    requires ReferenceOf(fields).Some? && Walk(checked, limit, Obj(fields), deref, stack, depth).Ok?
    ensures Walk(checked', limit', Obj(fields), deref, stack', depth')
         == Walk(checked, limit, Obj(fields), deref, stack, depth)
    decreases Remaining(limit, depth), 0, 0
  {
    var r := ReferenceOf(fields).value.s;
    Relax(checked, limit, deref(r).value, deref, stack + [r], depth + 1,
          checked', limit', stack' + [r], depth' + 1);
    Relax(checked, limit, Obj(Without(fields, "$ref")), deref, stack, depth + 1,
          checked', limit', stack', depth' + 1);
  }

  lemma {:induction false} RelaxAll(checked: bool, limit: nat, values: seq<Json>, deref: Deref, stack: seq<string>,
                                    depth: nat,
                 checked': bool, limit': nat, stack': seq<string>, depth': nat)
    requires checked' ==> checked && forall r <- stack' :: r in stack
    requires limit - depth <= limit' - depth'
    requires WalkAll(checked, limit, values, deref, stack, depth).Ok?
    ensures WalkAll(checked', limit', values, deref, stack', depth')
         == WalkAll(checked, limit, values, deref, stack, depth)
    decreases Remaining(limit, depth), |values|
  {
    if values != [] {
      Relax(checked, limit, values[0], deref, stack, depth, checked', limit', stack', depth');
      RelaxAll(checked, limit, values[1..], deref, stack, depth, checked', limit', stack', depth');
    }
  }

  /**
   The guards only turn success into error: a success at some stack and depth
   gives the same value at any smaller stack and depth.
   */
  lemma GuardsOnlyReject(value: Json, document: Fields, stack: seq<string>, depth: nat, stack': seq<string>,
                         depth': nat)
    requires forall r <- stack' :: r in stack
    requires depth' <= depth
    requires Resolve(value, document, stack, depth).Ok?
    ensures Resolve(value, document, stack', depth') == Resolve(value, document, stack, depth)
  {
    Relax(true, MAX_REF_DEPTH, value, Dereferencer(document), stack, depth, true, MAX_REF_DEPTH, stack', depth');
  }

  // ------------------------------------------- the cycle guard is redundant

  /** Unfolding without the cycle guard, within n levels. */
  ghost predicate Unfolds(value: Json, deref: Deref, n: nat) {
    Walk(false, n, value, deref, [], 0).Ok?
  }

  /** Within any number of levels that unfolds outer, inner unfolds too. */
  ghost predicate Nested(inner: Json, outer: Json, deref: Deref) {
    forall n: nat :: Unfolds(outer, deref, n) ==> Unfolds(inner, deref, n)
  }

  /** value lies inside the unfolding of every target on the stack. */
  ghost predicate Enclosing(value: Json, deref: Deref, stack: seq<string>) {
    forall r <- stack :: deref(r).Some? &&
      Nested(value, deref(r).value, deref)
  }

  ghost predicate EnclosingAll(values: seq<Json>, deref: Deref, stack: seq<string>) {
    forall v <- values :: Enclosing(v, deref, stack)
  }

  lemma UnfoldsMore(value: Json, deref: Deref, m: nat, n: nat)
    requires Unfolds(value, deref, m) && m <= n
    ensures Unfolds(value, deref, n)
  {
    Relax(false, m, value, deref, [], 0, false, n, [], 0);
  }

  lemma WalkUnfolds(value: Json, deref: Deref, limit: nat, stack: seq<string>, depth: nat)
    requires depth <= limit
    ensures Walk(false, limit, value, deref, stack, depth).Ok? <==> Unfolds(value, deref, limit - depth)
  {
    if Walk(false, limit, value, deref, stack, depth).Ok? {
      Relax(false, limit, value, deref, stack, depth, false, limit - depth, [], 0);
    }
    if Unfolds(value, deref, limit - depth) {
      Relax(false, limit - depth, value, deref, [], 0, false, limit, stack, depth);
    }
  }

  /** An element of a list, or a field of a plain object, unfolds in one level less. */
  lemma {:induction false} PartUnfolds(values: seq<Json>, deref: Deref, n: nat, part: Json)
    requires part in values
    requires WalkAll(false, n, values, deref, [], 1).Ok?
    ensures n >= 1 && Unfolds(part, deref, n - 1)
    decreases |values|
  {
    if values[0] == part {
      WalkUnfolds(part, deref, n, [], 1);
    } else {
      PartUnfolds(values[1..], deref, n, part);
    }
  }

  lemma EnclosingParts(value: Json, values: seq<Json>, deref: Deref, stack: seq<string>)
    requires Enclosing(value, deref, stack)
    requires forall n: nat :: Unfolds(value, deref, n) ==> WalkAll(false, n, values, deref, [], 1).Ok?
    ensures EnclosingAll(values, deref, stack)
  {
    forall v, r | v in values && r in stack ensures Nested(v, deref(r).value, deref) {
      NestedPart(value, values, deref, deref(r).value, v);
    }
  }

  lemma NestedPart(value: Json, values: seq<Json>, deref: Deref, outer: Json, part: Json)
    requires Nested(value, outer, deref) && part in values
    requires forall n: nat :: Unfolds(value, deref, n) ==> WalkAll(false, n, values, deref, [], 1).Ok?
    ensures Nested(part, outer, deref)
  {
    forall n: nat | Unfolds(outer, deref, n) ensures Unfolds(part, deref, n) {
      assert Unfolds(value, deref, n);
      PartUnfolds(values, deref, n, part);
      UnfoldsMore(part, deref, n - 1, n);
    }
  }

  /** A reference and its siblings both unfold in one level less. */
  lemma ReferenceUnfolds(fields: Fields, deref: Deref, n: nat)
    requires ReferenceOf(fields).Some? && Unfolds(Obj(fields), deref, n)
    ensures n >= 1 && IsLocal(ReferenceOf(fields).value)
    ensures deref(ReferenceOf(fields).value.s).Some?
    ensures Unfolds(deref(ReferenceOf(fields).value.s).value, deref, n - 1)
    ensures Unfolds(Obj(Without(fields, "$ref")), deref, n - 1)
  {
    var r := ReferenceOf(fields).value.s;
    assert [] + [r] == [r];
    WalkUnfolds(deref(r).value, deref, n, [r], 1);
    WalkUnfolds(Obj(Without(fields, "$ref")), deref, n, [], 1);
  }

  /** Whatever unfolds in n levels unfolds in a least number of levels. */
  lemma {:induction false} LeastUnfolding(value: Json, deref: Deref, n: nat) returns (least: nat)
    requires Unfolds(value, deref, n)
    ensures Unfolds(value, deref, least) && (least > 0 ==> !Unfolds(value, deref, least - 1))
  {
    if n > 0 && Unfolds(value, deref, n - 1) {
      least := LeastUnfolding(value, deref, n - 1);
    } else {
      least := n;
    }
  }

  /** The target and the siblings of a reference are nested in it, and it is not nested in its target. */
  lemma ReferenceNests(fields: Fields, deref: Deref, n: nat)
    requires ReferenceOf(fields).Some? && Unfolds(Obj(fields), deref, n)
    ensures IsLocal(ReferenceOf(fields).value) && deref(ReferenceOf(fields).value.s).Some?
    ensures Nested(deref(ReferenceOf(fields).value.s).value, Obj(fields), deref)
    ensures Nested(Obj(Without(fields, "$ref")), Obj(fields), deref)
    ensures !Nested(Obj(fields), deref(ReferenceOf(fields).value.s).value, deref)
  {
    var least := LeastUnfolding(Obj(fields), deref, n);
    ReferenceUnfolds(fields, deref, least);
    var target := deref(ReferenceOf(fields).value.s).value;
    forall m: nat | Unfolds(Obj(fields), deref, m)
      ensures Unfolds(target, deref, m) && Unfolds(Obj(Without(fields, "$ref")), deref, m)
    {
      ReferenceUnfolds(fields, deref, m);
      UnfoldsMore(target, deref, m - 1, m);
      UnfoldsMore(Obj(Without(fields, "$ref")), deref, m - 1, m);
    }
  }

  lemma EnclosingInner(inner: Json, outer: Json, deref: Deref, stack: seq<string>)
    requires Enclosing(outer, deref, stack) && Nested(inner, outer, deref)
    ensures Enclosing(inner, deref, stack)
  {
  }

  lemma EnclosingPush(target: Json, deref: Deref, stack: seq<string>, r: string)
    requires Enclosing(target, deref, stack)
    requires deref(r) == Some(target)
    ensures Enclosing(target, deref, stack + [r])
  {
  }

  /** A reference met inside the targets on the stack is not one of them, and its own target is enclosed in turn. */
  lemma ReferenceEnclosed(fields: Fields, deref: Deref, stack: seq<string>, n: nat)
    requires ReferenceOf(fields).Some? && Unfolds(Obj(fields), deref, n)
    requires Enclosing(Obj(fields), deref, stack)
    ensures IsLocal(ReferenceOf(fields).value) && ReferenceOf(fields).value.s !in stack
    ensures deref(ReferenceOf(fields).value.s).Some?
    ensures Enclosing(deref(ReferenceOf(fields).value.s).value, deref, stack + [ReferenceOf(fields).value.s])
    ensures Enclosing(Obj(Without(fields, "$ref")), deref, stack)
  {
    ReferenceNests(fields, deref, n);
    var r := ReferenceOf(fields).value.s;
    var target := deref(r).value;
    EnclosingInner(target, Obj(fields), deref, stack);
    EnclosingInner(Obj(Without(fields, "$ref")), Obj(fields), deref, stack);
    EnclosingPush(target, deref, stack, r);
  }

  /** One level of agreement between the guarded and the unguarded walk, at a reference. */
  lemma ReferenceAgrees(limit: nat, fields: Fields, deref: Deref, stack: seq<string>, depth: nat, r: string,
                        target: Json)
    requires depth <= limit && ReferenceOf(fields) == Some(Str(r)) && IsLocal(Str(r)) && r !in stack
    requires deref(r) == Some(target)
    requires Walk(true, limit, target, deref, stack + [r], depth + 1) ==
             Walk(false, limit, target, deref, stack + [r], depth + 1)
    requires Walk(false, limit, target, deref, stack + [r], depth + 1).Ok?
    requires Walk(true, limit, Obj(Without(fields, "$ref")), deref, stack, depth + 1)
          == Walk(false, limit, Obj(Without(fields, "$ref")), deref, stack, depth + 1)
    ensures Walk(true, limit, Obj(fields), deref, stack, depth) == Walk(false, limit, Obj(fields), deref, stack, depth)
  {
  }

  /** The parts of a reference resolve whenever it does. */
  lemma ReferenceParts(limit: nat, fields: Fields, deref: Deref, stack: seq<string>, depth: nat)
    requires ReferenceOf(fields).Some? && Walk(false, limit, Obj(fields), deref, stack, depth).Ok?
    ensures depth <= limit && IsLocal(ReferenceOf(fields).value)
    ensures deref(ReferenceOf(fields).value.s).Some?
    ensures Walk(false, limit, deref(ReferenceOf(fields).value.s).value, deref,
                 stack + [ReferenceOf(fields).value.s], depth + 1).Ok?
    ensures Walk(false, limit, Obj(Without(fields, "$ref")), deref, stack, depth + 1).Ok?
  {
  }

  lemma {:induction false} CycleGuardIdle(limit: nat, value: Json, deref: Deref, stack: seq<string>, depth: nat)
    requires Enclosing(value, deref, stack)
    requires Walk(false, limit, value, deref, stack, depth).Ok?
    ensures Walk(true, limit, value, deref, stack, depth) == Walk(false, limit, value, deref, stack, depth)
    decreases Remaining(limit, depth), 0
  {
    match value
    case Arr(items) =>
      EnclosingParts(value, items, deref, stack);
      CycleGuardIdleAll(limit, items, deref, stack, depth + 1);
    case Obj(fields) =>
      match ReferenceOf(fields) {
        case Some(reference) =>
          CycleGuardIdleReference(limit, fields, deref, stack, depth);
        case None =>
          EnclosingParts(value, Values(WithoutExamples(fields)), deref, stack);
          CycleGuardIdleAll(limit, Values(WithoutExamples(fields)), deref, stack, depth + 1);
      }
    case _ =>
  }

  lemma {:induction false} CycleGuardIdleReference(limit: nat, fields: Fields, deref: Deref, stack: seq<string>,
                                                   depth: nat)
    requires ReferenceOf(fields).Some? && Enclosing(Obj(fields), deref, stack)
    requires Walk(false, limit, Obj(fields), deref, stack, depth).Ok?
    ensures Walk(true, limit, Obj(fields), deref, stack, depth) == Walk(false, limit, Obj(fields), deref, stack, depth)
    decreases Remaining(limit, depth), 0, 0
  {
    ReferenceParts(limit, fields, deref, stack, depth);
    WalkUnfolds(Obj(fields), deref, limit, stack, depth);
    ReferenceEnclosed(fields, deref, stack, limit - depth);
    var r := ReferenceOf(fields).value.s;
    var target := deref(r).value;
    CycleGuardIdle(limit, target, deref, stack + [r], depth + 1);
    CycleGuardIdle(limit, Obj(Without(fields, "$ref")), deref, stack, depth + 1);
    ReferenceAgrees(limit, fields, deref, stack, depth, r, target);
  }

  lemma {:induction false} CycleGuardIdleAll(limit: nat, values: seq<Json>, deref: Deref, stack: seq<string>,
                                             depth: nat)
    requires EnclosingAll(values, deref, stack)
    requires WalkAll(false, limit, values, deref, stack, depth).Ok?
    ensures WalkAll(true, limit, values, deref, stack, depth) == WalkAll(false, limit, values, deref, stack, depth)
    decreases Remaining(limit, depth), |values|
  {
    if values != [] {
      CycleGuardIdle(limit, values[0], deref, stack, depth);
      CycleGuardIdleAll(limit, values[1..], deref, stack, depth);
    }
  }

  /**
   From an empty stack the cycle guard never decides the outcome: with it the
   node resolves exactly when plain unfolding stays within the depth bound, to
   the same value.  A cyclic reference is rejected by the depth bound anyway.
   */
  lemma CycleGuardRedundant(value: Json, document: Fields)
    ensures Resolve(value, document, [], 0).Ok? <==> Unfolds(value, Dereferencer(document), MAX_REF_DEPTH)
    ensures Resolve(value, document, [], 0).Ok? ==>
              Resolve(value, document, [], 0) == Walk(false, MAX_REF_DEPTH, value, Dereferencer(document), [], 0)
  {
    if Unfolds(value, Dereferencer(document), MAX_REF_DEPTH) {
      CycleGuardIdle(MAX_REF_DEPTH, value, Dereferencer(document), [], 0);
    } else if Resolve(value, document, [], 0).Ok? {
      Relax(true, MAX_REF_DEPTH, value, Dereferencer(document), [], 0, false, MAX_REF_DEPTH, [], 0);
    }
  }

  // ------------------------------------------------------------- the result

  /** No reference is left (only a null "$ref" may stay) and no example. */
  ghost predicate Clean(v: Json)
    decreases v
  {
    match v
    case Arr(items) => forall x <- items :: Clean(x)
    case Obj(fields) => forall f <- fields ::
      f.key !in EXAMPLE_KEYS && (f.key == "$ref" ==> f.value.Null?) && Clean(f.value)
    case _ => true
  }

  ghost predicate Settled(v: Json, n: int) {
    Clean(v) && HeightWithin(v, n)
  }

  lemma MergedIsClean(base: Fields, over: Fields, n: int)
    requires Settled(Obj(base), n - 1) && Settled(Obj(over), n - 1)
    ensures Settled(Obj(Merge(base, over)), n)
  {
    MergeFields(base, over);
    forall f <- Merge(base, over) ensures HeightWithin(f.value, n - 1) {
      HeightMonotone(f.value, n - 2, n - 1);
    }
  }

  lemma {:induction false} ResultIsClean(checked: bool, limit: nat, value: Json, deref: Deref, stack: seq<string>,
                                         depth: nat)
    requires Walk(checked, limit, value, deref, stack, depth).Ok?
    ensures Settled(Walk(checked, limit, value, deref, stack, depth).value, limit - depth)
    decreases Remaining(limit, depth), 0
  {
    match value
    case Arr(items) =>
      ResultsAreClean(checked, limit, items, deref, stack, depth + 1);
    case Obj(fields) =>
      if ReferenceOf(fields).Some? {
        ReferenceResultIsClean(checked, limit, fields, deref, stack, depth);
      } else {
        PlainResultIsClean(checked, limit, fields, deref, stack, depth);
      }
    case _ =>
  }

  lemma {:induction false} ReferenceResultIsClean(checked: bool, limit: nat, fields: Fields, deref: Deref,
                                                  stack: seq<string>, depth: nat)
    requires ReferenceOf(fields).Some? && Walk(checked, limit, Obj(fields), deref, stack, depth).Ok?
    ensures Settled(Walk(checked, limit, Obj(fields), deref, stack, depth).value, limit - depth)
    decreases Remaining(limit, depth), 0, 0
  {
    var r := ReferenceOf(fields).value.s;
    var target := deref(r).value;
    var base, over := ReferenceResult(checked, limit, fields, deref, stack, depth);
    assert Settled(Obj(base), limit - depth - 1) by {
      ResultIsClean(checked, limit, target, deref, stack + [r], depth + 1);
    }
    assert Settled(Obj(over), limit - depth - 1) by {
      ResultIsClean(checked, limit, Obj(Without(fields, "$ref")), deref, stack, depth + 1);
    }
    MergedIsClean(base, over, limit - depth);
  }

  /** A resolved reference is its target's fields overlaid with its siblings'. */
  lemma ReferenceResult(checked: bool, limit: nat, fields: Fields, deref: Deref, stack: seq<string>, depth: nat)
    returns (base: Fields, over: Fields)
    requires ReferenceOf(fields).Some? && Walk(checked, limit, Obj(fields), deref, stack, depth).Ok?
    ensures IsLocal(ReferenceOf(fields).value) && deref(ReferenceOf(fields).value.s).Some?
    ensures depth <= limit
    ensures Walk(checked, limit, deref(ReferenceOf(fields).value.s).value, deref,
                 stack + [ReferenceOf(fields).value.s], depth + 1) == Ok(Obj(base))
    ensures Walk(checked, limit, Obj(Without(fields, "$ref")), deref, stack, depth + 1) == Ok(Obj(over))
    ensures Walk(checked, limit, Obj(fields), deref, stack, depth) == Ok(Obj(Merge(base, over)))
  {
    var r := ReferenceOf(fields).value.s;
    base := Walk(checked, limit, deref(r).value, deref, stack + [r], depth + 1).value.fields;
    over := Walk(checked, limit, Obj(Without(fields, "$ref")), deref, stack, depth + 1).value.fields;
  }

  lemma {:induction false} PlainResultIsClean(checked: bool, limit: nat, fields: Fields, deref: Deref,
                                              stack: seq<string>, depth: nat)
    requires ReferenceOf(fields).None? && Walk(checked, limit, Obj(fields), deref, stack, depth).Ok?
    ensures Settled(Walk(checked, limit, Obj(fields), deref, stack, depth).value, limit - depth)
    decreases Remaining(limit, depth), 0, 0
  {
    var kept, resolved := PlainResult(checked, limit, fields, deref, stack, depth);
    ResultsAreClean(checked, limit, Values(kept), deref, stack, depth + 1);
    RekeyedIsClean(kept, resolved, limit - depth);
  }

  /** One level of resolution at a plain object. */
  lemma PlainUnfolds(checked: bool, limit: nat, fields: Fields, deref: Deref, stack: seq<string>, depth: nat)
    returns (resolved: seq<Json>)
    requires ReferenceOf(fields).None? && Walk(checked, limit, Obj(fields), deref, stack, depth).Ok?
    ensures depth <= limit && |resolved| == |WithoutExamples(fields)|
    ensures WalkAll(checked, limit, Values(WithoutExamples(fields)), deref, stack, depth + 1) == Ok(resolved)
    ensures Walk(checked, limit, Obj(fields), deref, stack, depth) == Ok(Obj(Rekey(WithoutExamples(fields), resolved)))
  {
    resolved := WalkAll(checked, limit, Values(WithoutExamples(fields)), deref, stack, depth + 1).value;
  }

  /** A resolved plain object keeps its keys, except the examples; a "$ref" in it is null and stays null. */
  lemma PlainResult(checked: bool, limit: nat, fields: Fields, deref: Deref, stack: seq<string>, depth: nat)
    returns (kept: Fields, resolved: seq<Json>)
    requires ReferenceOf(fields).None? && Walk(checked, limit, Obj(fields), deref, stack, depth).Ok?
    ensures depth <= limit && kept == WithoutExamples(fields) && |resolved| == |kept|
    ensures WalkAll(checked, limit, Values(kept), deref, stack, depth + 1) == Ok(resolved)
    ensures Walk(checked, limit, Obj(fields), deref, stack, depth) == Ok(Obj(Rekey(kept, resolved)))
    ensures forall f <- kept :: f.key !in EXAMPLE_KEYS
    ensures forall i :: 0 <= i < |kept| && kept[i].key == "$ref" ==> resolved[i].Null?
  {
    hide Walk, WalkAll, Rekey;
    kept := WithoutExamples(fields);
    resolved := PlainUnfolds(checked, limit, fields, deref, stack, depth);
    NoReference(fields);
    WithoutExamplesKeeps(fields);
    forall i | 0 <= i < |kept| && kept[i].key == "$ref" ensures resolved[i].Null? {
      assert kept[i] in kept;
      NullStaysNull(checked, limit, Values(kept), deref, stack, depth + 1, i);
    }
  }

  lemma RekeyedIsClean(kept: Fields, values: seq<Json>, n: int)
    requires |kept| == |values| && n >= 0
    requires forall f <- kept :: f.key !in EXAMPLE_KEYS
    requires forall v <- values :: Settled(v, n - 1)
    requires forall i :: 0 <= i < |kept| && kept[i].key == "$ref" ==> values[i].Null?
    ensures Settled(Obj(Rekey(kept, values)), n)
  {
    forall f <- Rekey(kept, values)
      ensures f.key !in EXAMPLE_KEYS && (f.key == "$ref" ==> f.value.Null?) && Clean(f.value)
      ensures HeightWithin(f.value, n - 1)
    {
      var i :| 0 <= i < |kept| && Rekey(kept, values)[i] == f;
      assert kept[i] in kept && values[i] in values;
    }
  }

  lemma {:induction false} NullStaysNull(checked: bool, limit: nat, values: seq<Json>, deref: Deref,
                                         stack: seq<string>, depth: nat, i: nat)
    requires WalkAll(checked, limit, values, deref, stack, depth).Ok?
    requires i < |values| && values[i].Null?
    ensures WalkAll(checked, limit, values, deref, stack, depth).value[i].Null?
    decreases i
  {
    if i > 0 {
      NullStaysNull(checked, limit, values[1..], deref, stack, depth, i - 1);
    }
  }

  lemma {:induction false} ResultsAreClean(checked: bool, limit: nat, values: seq<Json>, deref: Deref,
                                           stack: seq<string>, depth: nat)
    requires WalkAll(checked, limit, values, deref, stack, depth).Ok?
    ensures forall r <- WalkAll(checked, limit, values, deref, stack, depth).value ::
              Settled(r, limit - depth)
    decreases Remaining(limit, depth), |values|
  {
    if values != [] {
      ResultIsClean(checked, limit, values[0], deref, stack, depth);
      ResultsAreClean(checked, limit, values[1..], deref, stack, depth);
    }
  }

  // ------------------------------------------------------------ idempotence

  lemma {:induction false} CleanIsFixed(checked: bool, limit: nat, value: Json, deref: Deref, stack: seq<string>,
                                        depth: nat)
    requires Settled(value, limit - depth)
    ensures Walk(checked, limit, value, deref, stack, depth) == Ok(value)
    decreases Remaining(limit, depth), 0
  {
    match value
    case Arr(items) =>
      CleanAreFixed(checked, limit, items, deref, stack, depth + 1);
    case Obj(fields) =>
      CleanFields(fields, limit - depth);
      CleanAreFixed(checked, limit, Values(fields), deref, stack, depth + 1);
    case _ =>
  }

  lemma CleanFields(fields: Fields, n: int)
    requires Settled(Obj(fields), n)
    ensures ReferenceOf(fields).None? && WithoutExamples(fields) == fields
    ensures Rekey(fields, Values(fields)) == fields
    ensures forall v <- Values(fields) :: Settled(v, n - 1)
  {
    NoReference(fields);
    WithoutExamplesKeeps(fields);
    forall v <- Values(fields) ensures Settled(v, n - 1) {
      var i :| 0 <= i < |fields| && Values(fields)[i] == v;
      assert fields[i] in fields;
    }
  }

  lemma {:induction false} NoReference(fields: Fields)
    ensures ReferenceOf(fields).None? <==> forall f <- fields :: f.key == "$ref" ==> f.value.Null?
  {
    if fields != [] {
      NoReference(fields[1..]);
    }
  }

  lemma {:induction false} CleanAreFixed(checked: bool, limit: nat, values: seq<Json>, deref: Deref, stack: seq<string>,
                                         depth: nat)
    requires forall v <- values :: Settled(v, limit - depth)
    ensures WalkAll(checked, limit, values, deref, stack, depth) == Ok(values)
    decreases Remaining(limit, depth), |values|
  {
    if values != [] {
      assert values[0] in values && forall v <- values[1..] :: v in values;
      CleanIsFixed(checked, limit, values[0], deref, stack, depth);
      CleanAreFixed(checked, limit, values[1..], deref, stack, depth);
      assert [values[0]] + values[1..] == values;
    }
  }

  /** What a resolution returns: no reference, no example, and at most 32 - depth levels. */
  lemma ResolutionSettles(value: Json, document: Fields, stack: seq<string>, depth: nat)
    requires Resolve(value, document, stack, depth).Ok?
    ensures Settled(Resolve(value, document, stack, depth).value, MAX_REF_DEPTH - depth)
  {
    ResultIsClean(true, MAX_REF_DEPTH, value, Dereferencer(document), stack, depth);
  }

  /**
   Resolving a resolved node again returns it unchanged, against any document.
   So does resolving a part of it, which is how the importer treats a schema
   inside a resolved parameter, body or response.
   */
  lemma ResolveIdempotent(value: Json, document: Fields, stack: seq<string>, depth: nat,
                          document': Fields, part: Json)
    requires Resolve(value, document, stack, depth).Ok?
    ensures var resolved := Resolve(value, document, stack, depth).value;
            Resolve(resolved, document', [], 0) == Ok(resolved) &&
            (PartOf(part, resolved) ==> Resolve(part, document', [], 0) == Ok(part))
  {
    var resolved := Resolve(value, document, stack, depth).value;
    ResolutionSettles(value, document, stack, depth);
    HeightMonotone(resolved, MAX_REF_DEPTH - depth, MAX_REF_DEPTH);
    CleanIsFixed(true, MAX_REF_DEPTH, resolved, Dereferencer(document'), [], 0);
    if PartOf(part, resolved) {
      PartIsClean(part, resolved, MAX_REF_DEPTH);
      CleanIsFixed(true, MAX_REF_DEPTH, part, Dereferencer(document'), [], 0);
    }
  }

  /** part is whole or is nested somewhere in it. */
  ghost predicate PartOf(part: Json, whole: Json)
    decreases whole
  {
    part == whole ||
    match whole
    case Arr(items) => exists x <- items :: PartOf(part, x)
    case Obj(fields) => exists f <- fields :: PartOf(part, f.value)
    case _ => false
  }

  lemma {:induction false} PartIsClean(part: Json, whole: Json, n: int)
    requires PartOf(part, whole) && Settled(whole, n)
    ensures Settled(part, n)
    decreases whole
  {
    if part != whole {
      match whole
      case Arr(items) =>
        var x :| x in items && PartOf(part, x);
        PartIsClean(part, x, n - 1);
        HeightMonotone(part, n - 1, n);
      case Obj(fields) =>
        var f :| f in fields && PartOf(part, f.value);
        PartIsClean(part, f.value, n - 1);
        HeightMonotone(part, n - 1, n);
    }
  }
}
