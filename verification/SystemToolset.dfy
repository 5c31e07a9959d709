/**
 The system toolset of a tenant: which grants its set-up leaves, exactly when the
 set-up succeeds, and what becomes of two instances that set it up at once.
 */
module SystemToolsets {
  import opened Common
  import opened Text
  import opened ToolsetDomain
  import opened ToolsetStore
  import opened ToolsetTheorems

  // ------------------------------------------------------------------ grants

  lemma SystemIs(store: Toolsets, tenant: string, id: string)
    requires Inv(store) && IsSystem(store, tenant, id)
    ensures SystemToolset(store, tenant) == Some(store[id])
  {
    hide Good;
  }

  /** These principals and no others have a grant. */
  ghost predicate GrantsExactly(t: Toolset, principalIds: seq<string>) {
    forall p :: p in PrincipalIds(t.grants) <==> p in principalIds
  }

  lemma NewSystemGrants(tenant: string, principalIds: seq<string>, id: string, createdAt: Time, grantedAt: Time)
    ensures var r := NewSystem(tenant, principalIds, id, createdAt, grantedAt);
            r.Ok? ==> GrantsExactly(r.value, principalIds) && r.value.slug == SYSTEM_SLUG
  {
    hide Good, ReplaceGrants, GrantsExactly;
    CreatedSystem(tenant, id, createdAt);
    var created := CreateAllPublished(id, tenant, createdAt);
    if created.Ok? {
      GrantsReplaced(created.value, principalIds, "system", grantedAt);
      ReplaceGrantsMutates(created.value, created.value.revision, principalIds, "system", grantedAt);
    }
  }

  lemma CreatedSystem(tenant: string, id: string, now: Time)
    ensures var r := CreateAllPublished(id, tenant, now);
            r.Ok? ==> Good(r.value) && GrantsExactly(r.value, []) && r.value.slug == SYSTEM_SLUG
  {
    SystemIsGood(tenant, [], id, now, now);
  }

  lemma GrantsReplaced(t: Toolset, principalIds: seq<string>, actor: string, now: Time)
    requires Good(t)
    ensures var r := ReplaceGrants(t, t.revision, principalIds, actor, now);
            r.Ok? ==> GrantsExactly(r.value, principalIds)
  {
    ReplaceGrantsExactly(t, principalIds, actor, now);
  }

  /**
   Both ways to an answer: the tenant's system toolset grants all that was asked
   for; the first transaction's grants nothing else, the second's keeps what was
   granted before and nothing else.
   */
  lemma EnsuredGrants(store: Toolsets, found: bool, tenant: string, principalIds: seq<string>, id: string,
                      createdAt: Time, grantedAt: Time, now: Time)
    requires Inv(store)
    ensures var (after, answer) := EnsureCreateTx(store, found, tenant, principalIds, id, createdAt, grantedAt);
            answer.Some? && answer.value.Ok? ==>
              && SystemToolset(store, tenant).None? && SystemToolset(after, tenant) == Some(answer.value.value)
              && GrantsExactly(answer.value.value, principalIds)
    ensures var (after, r) := EnsureMergeTx(store, tenant, principalIds, now);
            r.Ok? ==>
              && SystemToolset(store, tenant).Some? && SystemToolset(after, tenant) == Some(r.value)
              && GrantsExactly(r.value, PrincipalIds(SystemToolset(store, tenant).value.grants) + principalIds)
  {
    hide Inv, EnsureCreateTx, GrantsExactly, MergeGrants;
    CreatedGrants(store, found, tenant, principalIds, id, createdAt, grantedAt);
    if SystemToolset(store, tenant).Some? {
      MergedGrants(store, tenant, principalIds, now);
    }
  }

  lemma CreatedGrants(store: Toolsets, found: bool, tenant: string, principalIds: seq<string>, id: string,
                      createdAt: Time, grantedAt: Time)
    requires Inv(store)
    ensures var (after, answer) := EnsureCreateTx(store, found, tenant, principalIds, id, createdAt, grantedAt);
            answer.Some? && answer.value.Ok? ==>
              && SystemToolset(store, tenant).None? && SystemToolset(after, tenant) == Some(answer.value.value)
              && GrantsExactly(answer.value.value, principalIds)
  {
    hide Good, NewSystem, GrantsExactly, Inv;
    var step := EnsureCreateStep(found, tenant, principalIds, id, createdAt, grantedAt);
    var (after, answer) := EnsureCreateTx(store, found, tenant, principalIds, id, createdAt, grantedAt);
    SystemIsGood(tenant, principalIds, id, createdAt, grantedAt);
    NewSystemGrants(tenant, principalIds, id, createdAt, grantedAt);
    GoodRows(store);
    EnsureCreateShape(store, step);
    ShapeKeeps(store, after, id);
    if answer.Some? && answer.value.Ok? {
      SystemIs(after, tenant, id);
    }
  }

  lemma MergedGrants(store: Toolsets, tenant: string, principalIds: seq<string>, now: Time)
    requires Inv(store) && SystemToolset(store, tenant).Some?
    ensures var (after, r) := EnsureMergeTx(store, tenant, principalIds, now);
            r.Ok? ==>
              && SystemToolset(after, tenant) == Some(r.value)
              && GrantsExactly(r.value, PrincipalIds(SystemToolset(store, tenant).value.grants) + principalIds)
  {
    hide Good, GrantsExactly, Inv, ReplaceGrants;
    var t := SystemToolset(store, tenant).value;
    var wanted := PrincipalIds(t.grants) + principalIds;
    var (after, r) := EnsureMergeTx(store, tenant, principalIds, now);
    GoodRows(store);
    ReplaceGrantsMutates(t, t.revision, wanted, "system", now);
    GrantsReplaced(t, wanted, "system", now);
    EnsureMergeShape(store, EnsureMergeStep(tenant, principalIds, now));
    ShapeKeeps(store, after, t.id);
    if r.Ok? {
      SystemIs(after, tenant, t.id);
    }
  }

  /**
   The first transaction gives no answer exactly if the lookup found a system
   toolset, or there is one now, or the new one's id or slug is taken.
   */
  lemma EnsureGoesOnExactly(store: Toolsets, found: bool, tenant: string, principalIds: seq<string>, id: string,
                            createdAt: Time, grantedAt: Time)
    requires Inv(store)
    ensures EnsureCreateTx(store, found, tenant, principalIds, id, createdAt, grantedAt).1.None? <==>
            || found
            || (NewSystem(tenant, principalIds, id, createdAt, grantedAt).Ok? &&
                (SystemToolset(store, tenant).Some? || id in store ||
                 exists o <- store :: store[o].tenant == tenant && store[o].slug == SYSTEM_SLUG))
  {
    hide Good, NewSystem;
    SystemIsGood(tenant, principalIds, id, createdAt, grantedAt);
    NewSystemGrants(tenant, principalIds, id, createdAt, grantedAt);
    forall o | o in store && store[o].tenant == tenant && store[o].kind.AllPublished?
      ensures SystemToolset(store, tenant).Some?
    {
      assert IsSystem(store, tenant, o);
    }
  }

  /** Whatever others commit in between, a system toolset there at the first transaction is there at the second. */
  lemma SystemStays(store: Toolsets, steps: seq<Step>, tenant: string)
    requires Inv(store) && SystemToolset(store, tenant).Some?
    ensures var system := SystemToolset(Run(store, steps), tenant);
            system.Some? && SameIdentity(SystemToolset(store, tenant).value, system.value)
  {
    hide Good, Run;
    var id := SystemToolset(store, tenant).value.id;
    RevisionCountsChanges(store, steps, id);
    EveryRunKeeps(store, steps);
    SystemIs(store, tenant, id);
    SystemIs(Run(store, steps), tenant, id);
  }

  // ------------------------------------------------------- when it succeeds

  lemma SystemSlug()
    ensures IsSlug(SYSTEM_SLUG)
  {
  }

  lemma SystemTextsNamed()
    ensures IsSlug(SYSTEM_SLUG) && !Blank("All Published Tools") && !Blank("system")
  {
    hide Blank, IsSlug;
    SystemSlug();
    NotBlank("All Published Tools");
    NotBlank("system");
  }

  lemma CreatesExactly(tenant: string, id: string, now: Time)
    ensures var r := CreateAllPublished(id, tenant, now);
            && (r.Ok? <==> !Blank(id) && !Blank(tenant))
            && (r.Ok? ==>
                && Good(r.value) && r.value.grants == [] && r.value.updatedAt == now
                && r.value.id == id && r.value.tenant == tenant && r.value.kind.AllPublished?)
            && (r.Err? ==> r.error == Invalid)
  {
    hide Blank, IsSlug;
    SystemTextsNamed();
    assert forall texts :: texts == [id, tenant, "All Published Tools", "system"] ==> id in texts && tenant in texts;
  }

  /** What the set-up is given: whom to admit, and the readings of generator and clock. */
  datatype Bootstrap = Bootstrap(tenant: string, principalIds: seq<string>, newId: string, createdAt: Time,
                                 grantedAt: Time, mergedAt: Time)

  /** A new system toolset can be built. */
  predicate Creatable(b: Bootstrap) {
    && !Blank(b.newId) && !Blank(b.tenant) && NoneBlank(b.principalIds)
    && (b.principalIds == [] || b.createdAt <= b.grantedAt)
  }

  lemma NewSystemExactly(b: Bootstrap)
    ensures var r := NewSystem(b.tenant, b.principalIds, b.newId, b.createdAt, b.grantedAt);
            (r.Ok? <==> Creatable(b)) && (r.Err? ==> r.error == Invalid)
  {
    hide Good, ReplaceGrants, CreateAllPublished, Blank;
    CreatesExactly(b.tenant, b.newId, b.createdAt);
    SystemTextsNamed();
    var created := CreateAllPublished(b.newId, b.tenant, b.createdAt);
    if created.Ok? {
      ReplaceGrantsExactly(created.value, b.principalIds, "system", b.grantedAt);
      assert b.principalIds != [] ==> b.principalIds[0] in b.principalIds;
    }
  }

  /** The principals can be merged into t: nobody new is asked for, or the clock is not behind t's last change. */
  predicate Mergeable(t: Toolset, principalIds: seq<string>, now: Time) {
    NoneBlank(principalIds) && (AllGranted(t, principalIds) || t.updatedAt <= now)
  }

  /** The second transaction fails exactly if an id is blank, or a grant is missing and its clock is behind. */
  lemma MergeSucceedsExactly(store: Toolsets, tenant: string, principalIds: seq<string>, now: Time)
    requires Inv(store) && SystemToolset(store, tenant).Some?
    ensures var t, (after, r) := SystemToolset(store, tenant).value, EnsureMergeTx(store, tenant, principalIds, now);
            && (r.Ok? <==> Mergeable(t, principalIds, now))
            && (r.Err? ==> r.error == Invalid && after == store)
            && (r.Ok? ==> (after == store <==> AllGranted(t, principalIds)))
  {
    hide Good, ReplaceGrants, Blank, SlugsUnique, OneSystem;
    var t := SystemToolset(store, tenant).value;
    var wanted := PrincipalIds(t.grants) + principalIds;
    GoodRows(store);
    SystemTextsNamed();
    ReplaceGrantsExactly(t, wanted, "system", now);
    ReplaceGrantsMutates(t, t.revision, wanted, "system", now);
    SaveNeverRefuses(store, t, t.revision, ReplaceGrants(t, t.revision, wanted, "system", now), now);
    GrantsNamed(t);
  }

  lemma GrantsNamed(t: Toolset)
    requires Good(t)
    ensures NoneBlank(PrincipalIds(t.grants))
  {
    forall p <- PrincipalIds(t.grants) ensures !Blank(p) {
      var i :| 0 <= i < |t.grants| && PrincipalIds(t.grants)[i] == p;
      assert t.grants[i] in t.grants;
    }
  }

  // ------------------------------------------------------ both transactions

  /** The whole set-up: the first transaction on one store, the second, if it comes to that, on a later one. */
  ghost function EnsureTx(store: Toolsets, found: bool, between: Toolsets, b: Bootstrap)
    : (Toolsets, Result<Toolset, Error>)
  {
    var (created, answer) :=
      EnsureCreateTx(store, found, b.tenant, b.principalIds, b.newId, b.createdAt, b.grantedAt);
    match answer
    case Some(r) => (created, r)
    case None => EnsureMergeTx(between, b.tenant, b.principalIds, b.mergedAt)
  }

  /** An explicit toolset has the slug of the system toolset. */
  ghost predicate SlugHeld(store: Toolsets, tenant: string) {
    exists o <- store :: store[o].tenant == tenant && store[o].slug == SYSTEM_SLUG && store[o].kind.Explicit?
  }

  /** Once an explicit toolset has the slug, it keeps it, and the tenant never has a system toolset. */
  lemma SlugHeldForEver(store: Toolsets, steps: seq<Step>, tenant: string)
    requires Inv(store) && SlugHeld(store, tenant)
    ensures SlugHeld(Run(store, steps), tenant) && SystemToolset(Run(store, steps), tenant).None?
  {
    hide Run;
    var o :| o in store && store[o].tenant == tenant && store[o].slug == SYSTEM_SLUG && store[o].kind.Explicit?;
    RevisionCountsChanges(store, steps, o);
    EveryRunKeeps(store, steps);
    GoodRows(Run(store, steps));
  }

  /** The first transaction leaves the answer to the second. */
  ghost predicate GoesOn(store: Toolsets, found: bool, b: Bootstrap) {
    found || (Creatable(b) && (SystemToolset(store, b.tenant).Some? || b.newId in store || SlugHeld(store, b.tenant)))
  }

  lemma GoesOnExactly(store: Toolsets, found: bool, b: Bootstrap)
    requires Inv(store)
    ensures EnsureCreateTx(store, found, b.tenant, b.principalIds, b.newId, b.createdAt, b.grantedAt).1.None? <==>
            GoesOn(store, found, b)
  {
    hide Good, NewSystem, Creatable, EnsureCreateTx;
    NewSystemExactly(b);
    EnsureGoesOnExactly(store, found, b.tenant, b.principalIds, b.newId, b.createdAt, b.grantedAt);
    forall o | o in store && store[o].tenant == b.tenant && store[o].slug == SYSTEM_SLUG
      ensures SystemToolset(store, b.tenant).Some? || SlugHeld(store, b.tenant)
    {
      if store[o].kind.AllPublished? { assert IsSystem(store, b.tenant, o); }
    }
    if SystemToolset(store, b.tenant).Some? {
      SystemHasSlug(store, b.tenant);
    }
  }

  lemma SystemHasSlug(store: Toolsets, tenant: string)
    requires Inv(store) && SystemToolset(store, tenant).Some?
    ensures SystemToolset(store, tenant).value.slug == SYSTEM_SLUG
  {
  }

  /**
   The set-up over both transactions, with anything committed in between.  It ends
   in a conflict exactly if the tenant's slug is held by an explicit toolset, or the
   new id was taken and there is still no system toolset; it succeeds exactly if
   the toolset could be created, or merged into once the first transaction went on.
   Every failure leaves the store it found.
   */
  lemma EnsureEndsExactly(store: Toolsets, found: bool, steps: seq<Step>, b: Bootstrap)
    requires Inv(store) && (found ==> SystemToolset(store, b.tenant).Some?)
    ensures var between := Run(store, steps);
            var (after, r) := EnsureTx(store, found, between, b);
            var system, goesOn := SystemToolset(between, b.tenant), GoesOn(store, found, b);
            && (r == Err(Conflict) <==>
                Creatable(b) && (SlugHeld(store, b.tenant) || (b.newId in store && system.None?)))
            && (r.Ok? <==>
                if goesOn then system.Some? && Mergeable(system.value, b.principalIds, b.mergedAt) else Creatable(b))
            && (r.Err? ==> r.error in {Conflict, Invalid} && after == if goesOn then between else store)
  {
    hide Good, Run, NewSystem, Creatable, Mergeable, EnsureMergeTx, Inv;
    var between := Run(store, steps);
    EveryRunKeeps(store, steps);
    GoesOnExactly(store, found, b);
    NewSystemExactly(b);
    if SlugHeld(store, b.tenant) {
      SlugHeldForEver(store, steps, b.tenant);
      SlugHeldForEver(store, [], b.tenant);
      NoSteps(store);
    }
    if SystemToolset(store, b.tenant).Some? {
      SystemStays(store, steps, b.tenant);
    }
    if SystemToolset(between, b.tenant).Some? {
      MergeSucceedsExactly(between, b.tenant, b.principalIds, b.mergedAt);
    } else {
      NothingToMerge(between, b.tenant, b.principalIds, b.mergedAt);
    }
  }

  lemma NoSteps(store: Toolsets)
    ensures Run(store, []) == store
  {
  }

  lemma NothingToMerge(store: Toolsets, tenant: string, principalIds: seq<string>, now: Time)
    requires SystemToolset(store, tenant).None?
    ensures EnsureMergeTx(store, tenant, principalIds, now) == (store, Err(Conflict))
  {
  }

  // --------------------------------------------------------------- witnesses

  const WINNER := EnsureCreateStep(false, "t", [], "a", 10, 10)
  const LOSER := Bootstrap("t", ["p"], "b", 9, 9, 9)

  lemma LoserCreatable()
    ensures Creatable(LOSER) && !Blank("t") && !Blank("a")
  {
    NotBlank("t");
    NotBlank("p");
    NotBlank("a");
    NotBlank("b");
  }

  lemma AfterWinner()
    ensures var store, created := Run(map[], [WINNER]), CreateAllPublished("a", "t", 10);
            created.Ok? && store == map["a" := created.value] && Inv(store)
  {
    hide CreateAllPublished, Good, Blank;
    LoserCreatable();
    CreatesExactly("t", "a", 10);
    assert [WINNER][..0] == [];
    EveryRunKeeps(map[], [WINNER]);
  }

  /**
   A lost race can make the set-up fail: alone the loser would have succeeded, but
   after the winner its clock is behind the toolset's last change.
   */
  lemma LoserFailsBehindWinnersClock()
    ensures var store := Run(map[], [WINNER]);
            && SystemToolset(store, "t").Some? && EnsureTx(store, false, store, LOSER) == (store, Err(Invalid))
            && EnsureTx(map[], false, map[], LOSER).1.Ok?
  {
    hide Run, CreateAllPublished, EnsureTx, Good, Blank;
    var store := Run(map[], [WINNER]);
    LoserCreatable();
    AfterWinner();
    CreatesExactly("t", "a", 10);
    SystemIs(store, "t", "a");
    NoSteps(store);
    EnsureEndsExactly(store, false, [], LOSER);
    assert "p" in LOSER.principalIds && PrincipalIds(store["a"].grants) == [];
    NoSteps(map[]);
    EnsureEndsExactly(map[], false, [], LOSER);
  }

  const HOLDER := CreateStep(CreateCommand("t", "p", SYSTEM_SLUG, "Mine", None, Direct), "a", 0)

  const MINE := Toolset("a", "t", SYSTEM_SLUG, "Mine", None, Explicit, Direct, Draft, 1, ExplicitDigest([]), "p", 0, 0,
                        [], [])

  lemma AfterHolder()
    ensures Inv(Run(map[], [HOLDER])) && SlugHeld(Run(map[], [HOLDER]), "t")
  {
    hide Blank, IsSlug;
    LoserCreatable();
    SystemTextsNamed();
    NotBlank("p");
    NotBlank("Mine");
    assert MINE.Named();
    HolderAdded();
    EveryRunKeeps(map[], [HOLDER]);
  }

  lemma HolderAdded()
    requires MINE.Named()
    ensures Run(map[], [HOLDER]) == map["a" := MINE] && SlugHeld(map["a" := MINE], "t")
  {
    hide Blank, IsSlug;
    assert [HOLDER][..0] == [];
  }

  /** An explicit toolset may hold the slug; whatever happens then, no set-up of the tenant ever succeeds. */
  lemma SlugHolderBlocksForEver(earlier: seq<Step>, steps: seq<Step>, b: Bootstrap)
    requires b.tenant == "t" && Creatable(b)
    ensures var store := Run(Run(map[], [HOLDER]), earlier);
            SlugHeld(store, "t") && EnsureTx(store, false, Run(store, steps), b).1 == Err(Conflict)
  {
    hide *;
    AfterHolder();
    var holding := Run(map[], [HOLDER]);
    EveryRunKeeps(holding, earlier);
    SlugHeldForEver(holding, earlier, "t");
    EnsureEndsExactly(Run(holding, earlier), false, steps, b);
  }
}
