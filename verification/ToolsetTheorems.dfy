/** Toolsets over whole runs: the aggregate invariant, what a revision counts, and where a member comes from. */
module ToolsetTheorems {
  import opened Common
  import opened Ordering
  import opened ToolsetDomain
  import opened ToolsetStore

  ghost predicate AllGood(store: Toolsets) {
    forall t <- store :: store[t].id == t && Good(store[t])
  }

  ghost predicate SlugsUnique(store: Toolsets) {
    forall s, t :: s in store && t in store && s != t && store[s].tenant == store[t].tenant ==>
      store[s].slug != store[t].slug
  }

  predicate OneSystem(store: Toolsets) {
    forall s <- store, t <- store ::
      s != t && store[s].tenant == store[t].tenant && store[s].kind.AllPublished? ==> !store[t].kind.AllPublished?
  }

  ghost predicate Inv(store: Toolsets) {
    AllGood(store) && SlugsUnique(store) && OneSystem(store)
  }

  /** One revision more of the same toolset, no earlier. */
  ghost predicate Revised(t: Toolset, u: Toolset) {
    Good(u) && SameIdentity(t, u) && u.revision == t.revision + 1 && t.updatedAt <= u.updatedAt
  }

  /** A transaction changes at most one toolset: it adds one, or revises one. */
  ghost predicate Shape(before: Toolsets, after: Toolsets, id: string) {
    || after == before
    || (id in before && id in after && after == before[id := after[id]] && Revised(before[id], after[id]))
    || (id !in before && id in after && after == before[id := after[id]] && after[id].id == id && Good(after[id]) &&
        !SlugTaken(before, after[id]) && !SystemTaken(before, after[id]))
  }

  lemma ShapeKeeps(before: Toolsets, after: Toolsets, id: string)
    requires Inv(before) && Shape(before, after, id)
    ensures Inv(after)
  {
    hide Good;
  }

  lemma SavedShape(store: Toolsets, t: Toolset, expected: int, r: Result<Toolset, Error>, now: Time)
    requires AllGood(store) && t.id in store && store[t.id] == t && Mutation(t, expected, r, now)
    ensures Shape(store, Saved(store, r).0, t.id)
    ensures expected != t.revision ==> Saved(store, r) == (store, Err(RevisionConflict))
  {
    hide Good;
  }

  /** Saving a mutation never fails: identity, revision and uniqueness hold by construction. */
  lemma SaveNeverRefuses(store: Toolsets, t: Toolset, expected: int, r: Result<Toolset, Error>, now: Time)
    requires Inv(store) && t.id in store && store[t.id] == t && Mutation(t, expected, r, now)
    ensures Saved(store, r).1 == r
  {
    hide Good;
  }

  lemma CreateShape(store: Toolsets, cmd: CreateCommand, id: string, now: Time)
    ensures Shape(store, CreateTx(store, cmd, id, now).0, id)
  {
    NormalizedFixed([]);
  }

  lemma SystemIsGood(tenant: string, principalIds: seq<string>, id: string, createdAt: Time, grantedAt: Time)
    ensures var r := NewSystem(tenant, principalIds, id, createdAt, grantedAt);
            r.Ok? ==> Good(r.value) && r.value.id == id && r.value.tenant == tenant && r.value.kind.AllPublished?
  {
    var created := CreateAllPublished(id, tenant, createdAt);
    if created.Ok? {
      ReplaceGrantsMutates(created.value, created.value.revision, principalIds, "system", grantedAt);
    }
  }

  /** The toolset a step is about. */
  ghost function Subject(store: Toolsets, step: Step): string {
    match step
    case CreateStep(_, newId, _) => newId
    case EnsureCreateStep(_, _, _, newId, _, _) => newId
    case EnsureMergeStep(tenant, _, _) =>
      if SystemToolset(store, tenant).Some? then SystemToolset(store, tenant).value.id else ""
    case _ => step.id
  }

  lemma EnsureCreateShape(store: Toolsets, step: Step)
    requires AllGood(store) && step.EnsureCreateStep?
    ensures Shape(store, Apply(store, step), step.newId)
  {
    hide Good;
    SystemIsGood(step.tenant, step.principalIds, step.newId, step.createdAt, step.grantedAt);
  }

  lemma EnsureMergeShape(store: Toolsets, step: Step)
    requires AllGood(store) && step.EnsureMergeStep?
    ensures Shape(store, Apply(store, step), Subject(store, step))
  {
    hide Good;
    if SystemToolset(store, step.tenant).Some? {
      var t := SystemToolset(store, step.tenant).value;
      var wanted := PrincipalIds(t.grants) + step.principalIds;
      ReplaceGrantsMutates(t, t.revision, wanted, "system", step.now);
      SavedShape(store, t, t.revision, ReplaceGrants(t, t.revision, wanted, "system", step.now), step.now);
    }
  }

  /** Each step changes at most its subject; a command that expects another revision changes nothing. */
  lemma StepShape(store: Toolsets, step: Step)
    requires AllGood(store)
    ensures Shape(store, Apply(store, step), Subject(store, step))
    ensures (exists n ::
             Issued(step, Subject(store, step), n) && Subject(store, step) in store &&
               store[Subject(store, step)].revision != n) ==>
              Apply(store, step) == store
  {
    hide Good, Shape, Saved, Mutation, CreateTx, EnsureCreateTx, EnsureMergeTx, UpdateProfile, ReplaceMembers;
    hide ReplaceGrants, Activate, Disable;
    Unchanged(store, Subject(store, step));
    match step
    case CreateStep(cmd, newId, now) => CreateShape(store, cmd, newId, now);
    case EnsureCreateStep(_, _, _, _, _, _) => EnsureCreateShape(store, step);
    case EnsureMergeStep(_, _, _) => EnsureMergeShape(store, step);
    case UpdateStep(tenant, id, expected, name, description, mode, now) =>
      if Locked(store, tenant, id).Some? {
        UpdateProfileMutates(store[id], expected, name, description, mode, now);
        SavedShape(store, store[id], expected, UpdateProfile(store[id], expected, name, description, mode, now), now);
      }
    case MembersStep(catalog, tenant, id, expected, toolIds, actor, now) =>
      if Locked(store, tenant, id).Some? {
        ReplaceMembersMutates(store[id], expected, Normalized(toolIds), actor, now);
        SavedShape(store, store[id], expected, ReplaceMembers(store[id], expected, Normalized(toolIds), actor, now),
                   now);
      }
    case GrantsStep(tenant, id, expected, principalIds, actor, now) =>
      if Locked(store, tenant, id).Some? {
        ReplaceGrantsMutates(store[id], expected, principalIds, actor, now);
        SavedShape(store, store[id], expected, ReplaceGrants(store[id], expected, principalIds, actor, now), now);
      }
    case ActivateStep(catalog, tenant, id, expected, now) =>
      if Locked(store, tenant, id).Some? {
        ActivateMutates(store[id], expected, now);
        SavedShape(store, store[id], expected, Activate(store[id], expected, now), now);
      }
    case DisableStep(tenant, id, expected, now) =>
      if Locked(store, tenant, id).Some? {
        DisableMutates(store[id], expected, now);
        SavedShape(store, store[id], expected, Disable(store[id], expected, now), now);
      }
  }

  lemma Unchanged(store: Toolsets, id: string)
    ensures Shape(store, store, id)
  {
  }

  lemma {:induction false} EveryRunKeeps(store: Toolsets, steps: seq<Step>)
    requires Inv(store)
    ensures Inv(Run(store, steps))
  {
    hide Apply, Subject, Shape, Good;
    if steps != [] {
      var n := |steps| - 1;
      EveryRunKeeps(store, steps[..n]);
      StepShape(Run(store, steps[..n]), steps[n]);
      ShapeKeeps(Run(store, steps[..n]), Run(store, steps), Subject(Run(store, steps[..n]), steps[n]));
    }
  }

  // --------------------------------------------------------------- revisions

  /** How many of the steps changed toolset id. */
  ghost function Changes(store: Toolsets, steps: seq<Step>, id: string): nat {
    if steps == [] then 0
    else
      var n := |steps| - 1;
      Changes(store, steps[..n], id) + (if Changed(store, steps, n, id) then 1 else 0)
  }

  ghost predicate Changed(store: Toolsets, steps: seq<Step>, k: nat, id: string)
    requires k < |steps|
  {
    id in Run(store, steps[..k]) && id in Run(store, steps[..k + 1]) &&
      Run(store, steps[..k + 1])[id] != Run(store, steps[..k])[id]
  }

  lemma OneStep(store: Toolsets, steps: seq<Step>, k: nat)
    requires k < |steps|
    ensures Run(store, steps[..k + 1]) == Apply(Run(store, steps[..k]), steps[k])
  {
    assert steps[..k + 1][..k] == steps[..k];
  }

  lemma ShapeRevises(before: Toolsets, after: Toolsets, subject: string, id: string)
    requires Shape(before, after, subject) && id in before
    ensures id in after && SameIdentity(before[id], after[id])
    ensures after[id].revision == before[id].revision + (if after[id] != before[id] then 1 else 0)
    ensures after[id] != before[id] ==> id == subject
  {
    hide Good;
  }

  /** The revision counts the effective changes: one for each, none for a command that changes nothing. */
  lemma {:induction false} RevisionCountsChanges(store: Toolsets, steps: seq<Step>, id: string)
    requires Inv(store) && id in store
    ensures id in Run(store, steps) && Run(store, steps)[id].revision == store[id].revision + Changes(store, steps, id)
    ensures SameIdentity(store[id], Run(store, steps)[id])
  {
    hide Apply, Subject, Shape, Good, Inv;
    if steps != [] {
      var n := |steps| - 1;
      assert steps[..n + 1] == steps;
      RevisionCountsChanges(store, steps[..n], id);
      EveryRunKeeps(store, steps[..n]);
      GoodRows(Run(store, steps[..n]));
      StepShape(Run(store, steps[..n]), steps[n]);
      ShapeRevises(Run(store, steps[..n]), Run(store, steps), Subject(Run(store, steps[..n]), steps[n]), id);
    }
  }

  lemma GoodRows(store: Toolsets)
    requires Inv(store)
    ensures AllGood(store)
  {
  }

  lemma {:induction false} RevisionGrows(store: Toolsets, steps: seq<Step>, j: nat, k: nat, id: string)
    requires Inv(store) && j <= k <= |steps| && id in Run(store, steps[..j])
    ensures id in Run(store, steps[..k]) && Run(store, steps[..j])[id].revision <= Run(store, steps[..k])[id].revision
    decreases k
  {
    hide Apply, Subject, Shape, Good, Inv, Run;
    if j < k {
      RevisionGrows(store, steps, j, k - 1, id);
      EveryRunKeeps(store, steps[..k - 1]);
      GoodRows(Run(store, steps[..k - 1]));
      OneStep(store, steps, k - 1);
      StepShape(Run(store, steps[..k - 1]), steps[k - 1]);
      ShapeRevises(Run(store, steps[..k - 1]), Run(store, steps[..k]),
                   Subject(Run(store, steps[..k - 1]), steps[k - 1]), id);
    }
  }

  /** A command that took effect found the revision it expected, and left the next one. */
  lemma EffectNeedsRevision(store: Toolsets, steps: seq<Step>, k: nat, id: string, expected: int)
    requires Inv(store) && k < |steps| && Issued(steps[k], id, expected) && Changed(store, steps, k, id)
    ensures Run(store, steps[..k])[id].revision == expected && Run(store, steps[..k + 1])[id].revision == expected + 1
  {
    hide Apply, Shape, Good, Inv, Run;
    EveryRunKeeps(store, steps[..k]);
    GoodRows(Run(store, steps[..k]));
    OneStep(store, steps, k);
    StepShape(Run(store, steps[..k]), steps[k]);
    ShapeRevises(Run(store, steps[..k]), Run(store, steps[..k + 1]), Subject(Run(store, steps[..k]), steps[k]), id);
  }

  /** Optimistic locking: of all commands issued against one revision of a toolset at most one takes effect. */
  lemma AtMostOneTakesEffect(store: Toolsets, steps: seq<Step>, j: nat, k: nat, id: string, expected: int)
    requires Inv(store) && j < k < |steps|
    requires Issued(steps[j], id, expected) && Changed(store, steps, j, id)
    requires Issued(steps[k], id, expected)
    ensures !Changed(store, steps, k, id)
  {
    hide Issued, Run, Inv, Apply;
    EffectNeedsRevision(store, steps, j, id, expected);
    RevisionGrows(store, steps, j + 1, k, id);
    if Changed(store, steps, k, id) {
      EffectNeedsRevision(store, steps, k, id, expected);
    }
  }

  // -------------------------------------------------------------- provenance

  /** Where the members of a toolset come from in one step: they were there, or this command added them. */
  ghost predicate MembersFrom(before: Toolsets, after: Toolsets, step: Step, id: string) {
    id in after ==>
      forall m <- after[id].members ::
        (id in before && m in before[id].members) || AddedBy(before, step, id, m)
  }

  ghost predicate AddedBy(before: Toolsets, step: Step, id: string, m: Member) {
    && step.MembersStep? && step.id == id && m.addedBy == step.actor && m.addedAt == step.now
    && m.toolId in step.toolIds
    && id in before && m.toolId !in ToolIds(before[id].members)
  }

  lemma SavedMembers(store: Toolsets, r: Result<Toolset, Error>, id: string)
    requires id in store && store[id].id == id && (r.Ok? ==> SameIdentity(store[id], r.value))
    ensures var after := Saved(store, r).0;
            after == store || (r.Ok? && after == store[id := r.value])
  {
  }

  lemma StepMembers(store: Toolsets, step: Step, id: string)
    requires AllGood(store)
    ensures MembersFrom(store, Apply(store, step), step, id)
  {
    hide Good, Saved, Mutation, Add;
    match step
    case CreateStep(cmd, newId, now) => CreateMembers(store, step, id);
    case EnsureCreateStep(_, _, _, _, _, _) => EnsureCreateMembers(store, step, id);
    case EnsureMergeStep(_, _, _) => EnsureMergeMembers(store, step, id);
    case MembersStep(catalog, tenant, toolsetId, expected, toolIds, actor, now) => MembersStepMembers(store, step, id);
    case UpdateStep(tenant, toolsetId, expected, name, description, mode, now) =>
      if Locked(store, tenant, toolsetId).Some? {
        UpdateProfileMutates(store[toolsetId], expected, name, description, mode, now);
        SameMembersSaved(store, toolsetId, UpdateProfile(store[toolsetId], expected, name, description, mode, now),
                         step, id);
      }
    case GrantsStep(tenant, toolsetId, expected, principalIds, actor, now) =>
      if Locked(store, tenant, toolsetId).Some? {
        ReplaceGrantsMutates(store[toolsetId], expected, principalIds, actor, now);
        SameMembersSaved(store, toolsetId, ReplaceGrants(store[toolsetId], expected, principalIds, actor, now), step,
                         id);
      }
    case ActivateStep(catalog, tenant, toolsetId, expected, now) =>
      if Locked(store, tenant, toolsetId).Some? {
        ActivateMutates(store[toolsetId], expected, now);
        SameMembersSaved(store, toolsetId, Activate(store[toolsetId], expected, now), step, id);
      }
    case DisableStep(tenant, toolsetId, expected, now) =>
      if Locked(store, tenant, toolsetId).Some? {
        DisableMutates(store[toolsetId], expected, now);
        SameMembersSaved(store, toolsetId, Disable(store[toolsetId], expected, now), step, id);
      }
  }

  lemma SameMembersSaved(store: Toolsets, subject: string, r: Result<Toolset, Error>, step: Step, id: string)
    requires subject in store && store[subject].id == subject
    requires r.Ok? ==> SameIdentity(store[subject], r.value) && r.value.members == store[subject].members
    ensures MembersFrom(store, Saved(store, r).0, step, id)
  {
    SavedMembers(store, r, subject);
  }

  lemma NewHasNoMembers(store: Toolsets, after: Toolsets, newId: string, id: string, step: Step)
    requires after == store ||
             (newId !in store && newId in after && after == store[newId := after[newId]] && after[newId].members == [])
    ensures MembersFrom(store, after, step, id)
  {
  }

  lemma CreateMembers(store: Toolsets, step: Step, id: string)
    requires step.CreateStep?
    ensures MembersFrom(store, Apply(store, step), step, id)
  {
    NewHasNoMembers(store, Apply(store, step), step.newId, id, step);
  }

  lemma NewSystemIsEmpty(tenant: string, principalIds: seq<string>, id: string, createdAt: Time, grantedAt: Time)
    ensures var r := NewSystem(tenant, principalIds, id, createdAt, grantedAt);
            r.Ok? ==> r.value.members == [] && r.value.id == id
  {
    SystemIsGood(tenant, principalIds, id, createdAt, grantedAt);
  }

  lemma AddIs(store: Toolsets, t: Toolset)
    ensures Add(store, t).Ok? ==> t.id !in store && Add(store, t).value == store[t.id := t]
  {
  }

  lemma EnsureCreateMembers(store: Toolsets, step: Step, id: string)
    requires AllGood(store) && step.EnsureCreateStep?
    ensures MembersFrom(store, Apply(store, step), step, id)
  {
    hide Good, Add, NewSystem, MembersFrom;
    NewSystemIsEmpty(step.tenant, step.principalIds, step.newId, step.createdAt, step.grantedAt);
    var created := NewSystem(step.tenant, step.principalIds, step.newId, step.createdAt, step.grantedAt);
    if created.Ok? { AddIs(store, created.value); }
    NewHasNoMembers(store, Apply(store, step), step.newId, id, step);
  }

  lemma EnsureMergeMembers(store: Toolsets, step: Step, id: string)
    requires AllGood(store) && step.EnsureMergeStep?
    ensures MembersFrom(store, Apply(store, step), step, id)
  {
    hide Saved, Mutation, AddedBy, Good;
    if SystemToolset(store, step.tenant).Some? {
      var t := SystemToolset(store, step.tenant).value;
      var wanted := PrincipalIds(t.grants) + step.principalIds;
      ReplaceGrantsMutates(t, t.revision, wanted, "system", step.now);
      SameMembersSaved(store, t.id, ReplaceGrants(t, t.revision, wanted, "system", step.now), step, id);
    }
  }

  lemma MembersStepMembers(store: Toolsets, step: Step, id: string)
    requires AllGood(store) && step.MembersStep?
    ensures MembersFrom(store, Apply(store, step), step, id)
  {
    hide Good, Saved, Mutation;
    if Locked(store, step.tenant, step.id).Some? {
      var t, requested := store[step.id], Normalized(step.toolIds);
      var r := ReplaceMembers(t, step.expected, requested, step.actor, step.now);
      ReplaceMembersMutates(t, step.expected, requested, step.actor, step.now);
      SavedMembers(store, r, step.id);
      NormalizedIs(step.toolIds);
      NormalizedIs(requested);
      MembersForAre(t, Normalized(requested), step.actor, step.now);
    }
  }

  /** m is a member of toolset id after each of the first k, k+1, ... steps. */
  ghost predicate MemberSince(store: Toolsets, steps: seq<Step>, id: string, m: Member, k: nat) {
    forall j :: k <= j <= |steps| ==> HasMember(Run(store, steps[..j]), id, m)
  }

  ghost predicate HasMember(store: Toolsets, id: string, m: Member) {
    id in store && m in store[id].members
  }

  /**
   Provenance: every member was there from the start, or names in added_by and
   added_at the one command of the run that added it, since which it has been a
   member without interruption, with the same record.
   */
  lemma {:induction false} MemberProvenance(store: Toolsets, steps: seq<Step>, id: string, m: Member) returns (k: nat)
    requires Inv(store) && HasMember(Run(store, steps), id, m)
    ensures k <= |steps| && MemberSince(store, steps, id, m, k)
    ensures k > 0 ==> AddedBy(Run(store, steps[..k - 1]), steps[k - 1], id, m)
  {
    hide Apply, AddedBy, Inv, Good;
    var n := |steps|;
    assert steps[..n] == steps;
    if n == 0 {
      return 0;
    }
    EveryRunKeeps(store, steps[..n - 1]);
    GoodRows(Run(store, steps[..n - 1]));
    OneStep(store, steps, n - 1);
    StepMembers(Run(store, steps[..n - 1]), steps[n - 1], id);
    if HasMember(Run(store, steps[..n - 1]), id, m) {
      k := MemberProvenance(store, steps[..n - 1], id, m);
      forall j | k <= j <= n ensures HasMember(Run(store, steps[..j]), id, m) {
        if j < n { assert steps[..n - 1][..j] == steps[..j]; }
      }
      assert k > 0 ==> steps[..n - 1][..k - 1] == steps[..k - 1];
    } else {
      k := n;
    }
  }
}
