/** The administrative use cases of toolsets as code: lock, check, mutate, save, commit. */
module ToolsetUseCases {
  import opened Common
  import opened Ordering
  import opened ToolsetDomain
  import opened ToolsetStore
  import opened ToolsetTheorems
  import opened SystemToolsets

  class Storage {
    var toolsets: Toolsets

    constructor ()
      ensures toolsets == map[]
    {
      toolsets := map[];
    }
  }

  class ToolsetUnitOfWork {
    const storage: Storage
    var working: Toolsets

    constructor Enter(storage: Storage)
      ensures this.storage == storage && working == storage.toolsets
    {
      this.storage := storage;
      working := storage.toolsets;
    }

    method Commit()
      modifies storage
      ensures storage.toolsets == working
    {
      storage.toolsets := working;
    }

    method GetAllPublished(tenant: string) returns (r: Option<Toolset>)
      requires OneSystem(working)
      ensures r == SystemToolset(working, tenant)
    {
      if t :| t in working && IsSystem(working, tenant, t) {
        return Some(working[t]);
      }
      return None;
    }

    method Insert(t: Toolset) returns (error: Option<Error>)
      modifies this
      ensures match Add(old(working), t)
              case Ok(added) => error.None? && working == added
              case Err(e) => error == Some(e) && working == old(working)
    {
      if t.id in working || SlugTaken(working, t) || SystemTaken(working, t) { return Some(Invalid); }
      working := working[t.id := t];
      return None;
    }

    /** A repeated save of the same value is not written again. */
    method Update(t: Toolset) returns (error: Option<Error>)
      modifies this
      ensures match Save(old(working), t)
              case Ok(saved) => error.None? && working == saved
              case Err(e) => error == Some(e) && working == old(working)
    {
      if t.id !in working || working[t.id].tenant != t.tenant || !KeepsIdentity(working[t.id], t) {
        return Some(Invalid);
      }
      if t == working[t.id] { return None; }
      if t.revision != working[t.id].revision + 1 { return Some(RevisionConflict); }
      if SlugTaken(working, t) || SystemTaken(working, t) { return Some(Invalid); }
      working := working[t.id := t];
      return None;
    }

    /** The end of every command: save what the mutation made, and commit. */
    method SaveAndCommit(mutated: Result<Toolset, Error>) returns (r: Result<Toolset, Error>)
      requires working == storage.toolsets
      modifies this, storage
      ensures (storage.toolsets, r) == Saved(old(working), mutated)
    {
      if mutated.Err? { return mutated; }
      var error := Update(mutated.value);
      if error.Some? { return Err(error.value); }
      Commit();
      return mutated;
    }
  }

  method CreateToolset(storage: Storage, cmd: CreateCommand, id: string, now: Time) returns (r: Result<Toolset, Error>)
    modifies storage
    ensures (storage.toolsets, r) == CreateTx(old(storage.toolsets), cmd, id, now)
  {
    var created := CreateExplicit(id, cmd.tenant, cmd.slug, cmd.name, cmd.description, cmd.actor, now, cmd.mode);
    if created.Err? { return created; }
    var uow := new ToolsetUnitOfWork.Enter(storage);
    if SlugTaken(uow.working, created.value) { return Err(Conflict); }
    var error := uow.Insert(created.value);
    if error.Some? { return Err(Conflict); }
    uow.Commit();
    return created;
  }

  /** What other instances commit; the unique index admits one system toolset per tenant. */
  method OthersCommit(storage: Storage)
    requires OneSystem(storage.toolsets)
    modifies storage
    ensures OneSystem(storage.toolsets)
  {
    var others: Toolsets := *;
    if OneSystem(others) {
      storage.toolsets := others;
    }
  }

  /** Two transactions, between which others may commit what they like. */
  method EnsureAllPublishedToolset(storage: Storage, b: Bootstrap)
    returns (r: Result<Toolset, Error>, ghost between: Toolsets)
    requires OneSystem(storage.toolsets)
    modifies storage
    ensures OneSystem(between)
    ensures var found := SystemToolset(old(storage.toolsets), b.tenant).Some?;
            (storage.toolsets, r) == EnsureTx(old(storage.toolsets), found, between, b)
  {
    hide Save, ReplaceGrants, CreateAllPublished, OneSystem;
    var uow := new ToolsetUnitOfWork.Enter(storage);
    between := storage.toolsets;
    var present := uow.GetAllPublished(b.tenant);
    if present.None? {
      var created := NewSystem(b.tenant, b.principalIds, b.newId, b.createdAt, b.grantedAt);
      if created.Err? { return created, between; }
      var error := uow.Insert(created.value);
      if error.None? {
        uow.Commit();
        return created, between;
      }
    }
    OthersCommit(storage);
    between := storage.toolsets;
    uow := new ToolsetUnitOfWork.Enter(storage);
    present := uow.GetAllPublished(b.tenant);
    if present.None? { return Err(Conflict), between; }
    var t := present.value;
    var wanted := PrincipalIds(t.grants) + b.principalIds;
    r := uow.SaveAndCommit(ReplaceGrants(t, t.revision, wanted, "system", b.mergedAt));
  }

  method UpdateToolset(storage: Storage, tenant: string, id: string, expected: int, name: string,
                       description: Option<string>, mode: DiscoveryMode, now: Time)
    returns (r: Result<Toolset, Error>)
    modifies storage
    ensures (storage.toolsets, r) == UpdateTx(old(storage.toolsets), tenant, id, expected, name, description, mode, now)
  {
    var uow := new ToolsetUnitOfWork.Enter(storage);
    var t := Locked(uow.working, tenant, id);
    if t.None? { return Err(NotFound); }
    r := uow.SaveAndCommit(UpdateProfile(t.value, expected, name, description, mode, now));
  }

  method ReplaceToolsetMembers(storage: Storage, catalog: CatalogView, tenant: string, id: string, expected: int,
                               toolIds: seq<string>, actor: string, now: Time)
    returns (r: Result<Toolset, Error>)
    modifies storage
    ensures (storage.toolsets, r) ==
            MembersTx(old(storage.toolsets), catalog, tenant, id, expected, toolIds, actor, now)
  {
    var uow := new ToolsetUnitOfWork.Enter(storage);
    var t := Locked(uow.working, tenant, id);
    if t.None? { return Err(NotFound); }
    if t.value.revision != expected { return Err(RevisionConflict); }
    var requested := Normalized(toolIds);
    if !AllExist(catalog, tenant, requested) { return Err(InvalidMembers); }
    if t.value.status.Active? && !AllAvailable(catalog, tenant, requested) { return Err(MemberUnavailable); }
    r := uow.SaveAndCommit(ReplaceMembers(t.value, expected, requested, actor, now));
  }

  method ReplaceToolsetGrants(storage: Storage, tenant: string, id: string, expected: int, principalIds: seq<string>,
                              actor: string, now: Time)
    returns (r: Result<Toolset, Error>)
    modifies storage
    ensures (storage.toolsets, r) == GrantsTx(old(storage.toolsets), tenant, id, expected, principalIds, actor, now)
  {
    var uow := new ToolsetUnitOfWork.Enter(storage);
    var t := Locked(uow.working, tenant, id);
    if t.None? { return Err(NotFound); }
    r := uow.SaveAndCommit(ReplaceGrants(t.value, expected, principalIds, actor, now));
  }

  method ActivateToolset(storage: Storage, catalog: CatalogView, tenant: string, id: string, expected: int, now: Time)
    returns (r: Result<Toolset, Error>)
    modifies storage
    ensures (storage.toolsets, r) == ActivateTx(old(storage.toolsets), catalog, tenant, id, expected, now)
  {
    var uow := new ToolsetUnitOfWork.Enter(storage);
    var t := Locked(uow.working, tenant, id);
    if t.None? { return Err(NotFound); }
    if t.value.revision != expected { return Err(RevisionConflict); }
    if !AllExist(catalog, tenant, ToolIds(t.value.members)) { return Err(InvalidMembers); }
    if !AllAvailable(catalog, tenant, ToolIds(t.value.members)) { return Err(MemberUnavailable); }
    r := uow.SaveAndCommit(Activate(t.value, expected, now));
  }

  method DisableToolset(storage: Storage, tenant: string, id: string, expected: int, now: Time)
    returns (r: Result<Toolset, Error>)
    modifies storage
    ensures (storage.toolsets, r) == DisableTx(old(storage.toolsets), tenant, id, expected, now)
  {
    var uow := new ToolsetUnitOfWork.Enter(storage);
    var t := Locked(uow.working, tenant, id);
    if t.None? { return Err(NotFound); }
    r := uow.SaveAndCommit(Disable(t.value, expected, now));
  }
}
