/**
 The administrative commands on toolsets, each one locked read, revision check,
 mutation and save in one transaction.
 */
module ToolsetStore {
  import opened Common
  import opened Ordering
  import opened ToolsetDomain

  type Toolsets = map<string, Toolset>

  datatype Availability = Available | ToolDisabled | NoPublishedVersion

  datatype Snapshot = Snapshot(toolId: string, availability: Availability, name: Option<string>)

  /** The catalog as one transaction sees it: the snapshot of a tool of the tenant, if it exists. */
  type CatalogView = (string, string) -> Option<Snapshot>

  // ------------------------------------------------------------ repositories

  function Locked(store: Toolsets, tenant: string, id: string): Option<Toolset> {
    if id in store && store[id].tenant == tenant then Some(store[id]) else None
  }

  predicate SlugTaken(store: Toolsets, t: Toolset) {
    exists o <- store :: o != t.id && store[o].tenant == t.tenant && store[o].slug == t.slug
  }

  predicate SystemTaken(store: Toolsets, t: Toolset) {
    t.kind.AllPublished? && exists o <- store :: o != t.id && store[o].tenant == t.tenant && store[o].kind.AllPublished?
  }

  function Add(store: Toolsets, t: Toolset): Result<Toolsets, Error> {
    if t.id in store || SlugTaken(store, t) || SystemTaken(store, t) then Err(Invalid) else Ok(store[t.id := t])
  }

  /** `save`, with `requires_persistence_update` */
  function Save(store: Toolsets, t: Toolset): Result<Toolsets, Error> {
    if t.id !in store || store[t.id].tenant != t.tenant || !KeepsIdentity(store[t.id], t) then Err(Invalid)
    else if t == store[t.id] then Ok(store)
    else if t.revision != store[t.id].revision + 1 then Err(RevisionConflict)
    else if SlugTaken(store, t) || SystemTaken(store, t) then Err(Invalid)
    else Ok(store[t.id := t])
  }

  predicate KeepsIdentity(current: Toolset, replacement: Toolset) {
    current.id == replacement.id && current.tenant == replacement.tenant && current.slug == replacement.slug &&
    current.kind == replacement.kind && current.createdBy == replacement.createdBy &&
      current.createdAt == replacement.createdAt
  }

  predicate IsSystem(store: Toolsets, tenant: string, id: string) {
    id in store && store[id].tenant == tenant && store[id].kind.AllPublished?
  }

  ghost function SystemToolset(store: Toolsets, tenant: string): Option<Toolset> {
    if t :| IsSystem(store, tenant, t) then Some(store[t]) else None
  }

  // ---------------------------------------------------------------- commands

  function Saved(store: Toolsets, r: Result<Toolset, Error>): (Toolsets, Result<Toolset, Error>) {
    match r
    case Err(e) => (store, Err(e))
    case Ok(updated) =>
      match Save(store, updated)
      case Err(e) => (store, Err(e))
      case Ok(committed) => (committed, Ok(updated))
  }

  datatype CreateCommand = CreateCommand(tenant: string, actor: string, slug: string, name: string,
                                         description: Option<string>, mode: DiscoveryMode)

  /** `CreateToolset` */
  function CreateTx(store: Toolsets, cmd: CreateCommand, id: string, now: Time): (Toolsets, Result<Toolset, Error>) {
    match CreateExplicit(id, cmd.tenant, cmd.slug, cmd.name, cmd.description, cmd.actor, now, cmd.mode)
    case Err(e) => (store, Err(e))
    case Ok(created) =>
      match Add(store, created)
      case Err(_) => (store, Err(Conflict))
      case Ok(committed) => (committed, Ok(created))
  }

  /**
   The first transaction of `EnsureAllPublishedToolset`: the new system toolset,
   or no answer if the lookup found one or the storage refuses the new row.  The
   lookup's answer is an input: another instance may have committed since.
   */
  function EnsureCreateTx(store: Toolsets, found: bool, tenant: string, principalIds: seq<string>, id: string,
                          createdAt: Time, grantedAt: Time)
    : (Toolsets, Option<Result<Toolset, Error>>)
  {
    if found then (store, None)
    else
      match NewSystem(tenant, principalIds, id, createdAt, grantedAt)
      case Err(e) => (store, Some(Err(e)))
      case Ok(created) =>
        match Add(store, created)
        case Err(_) => (store, None)
        case Ok(committed) => (committed, Some(Ok(created)))
  }

  /**
   Its second transaction, for want of an answer of the first: merge the grants into
   the system toolset of another.
   */
  ghost function EnsureMergeTx(store: Toolsets, tenant: string, principalIds: seq<string>, now: Time)
    : (Toolsets, Result<Toolset, Error>)
  {
    match SystemToolset(store, tenant)
    case None => (store, Err(Conflict))
    case Some(t) => MergeGrants(store, t, principalIds, now)
  }

  function NewSystem(tenant: string, principalIds: seq<string>, id: string, createdAt: Time, grantedAt: Time)
    : Result<Toolset, Error>
  {
    var created :- CreateAllPublished(id, tenant, createdAt);
    if principalIds == [] then Ok(created)
    else ReplaceGrants(created, created.revision, principalIds, "system", grantedAt)
  }

  function MergeGrants(store: Toolsets, t: Toolset, principalIds: seq<string>, now: Time)
    : (Toolsets, Result<Toolset, Error>)
  {
    Saved(store, ReplaceGrants(t, t.revision, PrincipalIds(t.grants) + principalIds, "system", now))
  }

  /** `UpdateToolset` */
  function UpdateTx(store: Toolsets, tenant: string, id: string, expected: int, name: string,
                    description: Option<string>, mode: DiscoveryMode, now: Time)
    : (Toolsets, Result<Toolset, Error>)
  {
    match Locked(store, tenant, id)
    case None => (store, Err(NotFound))
    case Some(t) => Saved(store, UpdateProfile(t, expected, name, description, mode, now))
  }

  predicate AllExist(catalog: CatalogView, tenant: string, ids: seq<string>) {
    forall x <- ids :: catalog(tenant, x).Some?
  }

  predicate AllAvailable(catalog: CatalogView, tenant: string, ids: seq<string>) {
    forall x <- ids :: catalog(tenant, x).Some? ==> catalog(tenant, x).value.availability.Available?
  }

  /** `ReplaceToolsetMembers` */
  function MembersTx(store: Toolsets, catalog: CatalogView, tenant: string, id: string, expected: int,
                     toolIds: seq<string>, actor: string, now: Time)
    : (Toolsets, Result<Toolset, Error>)
  {
    match Locked(store, tenant, id)
    case None => (store, Err(NotFound))
    case Some(t) =>
      var requested := Normalized(toolIds);
      if t.revision != expected then (store, Err(RevisionConflict))
      else if !AllExist(catalog, tenant, requested) then (store, Err(InvalidMembers))
      else if t.status.Active? && !AllAvailable(catalog, tenant, requested) then (store, Err(MemberUnavailable))
      else Saved(store, ReplaceMembers(t, expected, requested, actor, now))
  }

  /** `ReplaceToolsetGrants` */
  function GrantsTx(store: Toolsets, tenant: string, id: string, expected: int, principalIds: seq<string>,
                    actor: string, now: Time)
    : (Toolsets, Result<Toolset, Error>)
  {
    match Locked(store, tenant, id)
    case None => (store, Err(NotFound))
    case Some(t) => Saved(store, ReplaceGrants(t, expected, principalIds, actor, now))
  }

  /** `ActivateToolset` */
  function ActivateTx(store: Toolsets, catalog: CatalogView, tenant: string, id: string, expected: int,
                      now: Time): (Toolsets, Result<Toolset, Error>) {
    match Locked(store, tenant, id)
    case None => (store, Err(NotFound))
    case Some(t) =>
      if t.revision != expected then (store, Err(RevisionConflict))
      else if !AllExist(catalog, tenant, ToolIds(t.members)) then (store, Err(InvalidMembers))
      else if !AllAvailable(catalog, tenant, ToolIds(t.members)) then (store, Err(MemberUnavailable))
      else Saved(store, Activate(t, expected, now))
  }

  /** `DisableToolset` */
  function DisableTx(store: Toolsets, tenant: string, id: string, expected: int, now: Time)
    : (Toolsets, Result<Toolset, Error>)
  {
    match Locked(store, tenant, id)
    case None => (store, Err(NotFound))
    case Some(t) => Saved(store, Disable(t, expected, now))
  }

  // -------------------------------------------------------------------- runs

  datatype Step =
    | CreateStep(create: CreateCommand, newId: string, now: Time)
    | EnsureCreateStep(found: bool, tenant: string, principalIds: seq<string>, newId: string, createdAt: Time,
                       grantedAt: Time)
    | EnsureMergeStep(tenant: string, principalIds: seq<string>, now: Time)
    | UpdateStep(tenant: string, id: string, expected: int, name: string, description: Option<string>,
                 mode: DiscoveryMode, now: Time)
    | MembersStep(catalog: CatalogView, tenant: string, id: string, expected: int, toolIds: seq<string>, actor: string,
                  now: Time)
    | GrantsStep(tenant: string, id: string, expected: int, principalIds: seq<string>, actor: string, now: Time)
    | ActivateStep(catalog: CatalogView, tenant: string, id: string, expected: int, now: Time)
    | DisableStep(tenant: string, id: string, expected: int, now: Time)

  ghost function Apply(store: Toolsets, step: Step): Toolsets {
    match step
    case CreateStep(cmd, newId, now) => CreateTx(store, cmd, newId, now).0
    case EnsureCreateStep(found, tenant, principalIds, newId, createdAt, grantedAt) =>
      EnsureCreateTx(store, found, tenant, principalIds, newId, createdAt, grantedAt).0
    case EnsureMergeStep(tenant, principalIds, now) => EnsureMergeTx(store, tenant, principalIds, now).0
    case UpdateStep(tenant, id, expected, name, description, mode, now) =>
      UpdateTx(store, tenant, id, expected, name, description, mode, now).0
    case MembersStep(catalog, tenant, id, expected, toolIds, actor, now) =>
      MembersTx(store, catalog, tenant, id, expected, toolIds, actor, now).0
    case GrantsStep(tenant, id, expected, principalIds, actor, now) =>
      GrantsTx(store, tenant, id, expected, principalIds, actor, now).0
    case ActivateStep(catalog, tenant, id, expected, now) => ActivateTx(store, catalog, tenant, id, expected, now).0
    case DisableStep(tenant, id, expected, now) => DisableTx(store, tenant, id, expected, now).0
  }

  ghost function Run(store: Toolsets, steps: seq<Step>): Toolsets {
    if steps == [] then store else Apply(Run(store, steps[..|steps| - 1]), steps[|steps| - 1])
  }

  /** The commands that carry the revision their caller saw. */
  predicate Issued(step: Step, id: string, expected: int) {
    match step
    case CreateStep(_, _, _) => false
    case EnsureCreateStep(_, _, _, _, _, _) => false
    case EnsureMergeStep(_, _, _) => false
    case _ => step.id == id && step.expected == expected
  }
}
