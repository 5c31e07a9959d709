/**
 Tools, versions and bindings, and the transactions that publish them: review
 of an imported operation, submission, publication, and the direct publication
 that does all three at once.
 */
module CatalogStore {
  import opened Common
  import opened Text
  import opened Json

  datatype Tool = Tool(id: string, tenant: string, namespace: string, name: string, owner: string, active: bool)
  {
    predicate WellFormed() {
      NoneBlank([id, tenant, namespace, name, owner]) && namespace + "." <= name && namespace != "nexus"
    }
  }

  datatype VersionStatus = Draft | Review | Published | Retired

  datatype Version = Version(
    id: string, tenant: string, toolId: string, number: int, displayName: string, description: string,
    inputSchema: Json, outputSchema: Option<Json>, schemaDigest: string, tags: seq<string>,
    sideEffect: SideEffect, visibility: Visibility, status: VersionStatus, createdBy: string, createdAt: Time,
    reviewedAt: Option<Time>, publishedAt: Option<Time>, retiredAt: Option<Time>)
  {
    /** The checks on what no transition changes. */
    predicate Named() {
      NoneBlank([id, tenant, toolId, displayName, schemaDigest, createdBy]) && number >= 1 &&
      inputSchema.Obj? && Get(inputSchema.fields, "type") == Some(Str("object"))
    }

    /** `_validate_lifecycle_timestamps` */
    predicate Dated() {
      && (status in {Review, Published, Retired} ==> reviewedAt.Some?)
      && (status in {Published, Retired} ==> publishedAt.Some?)
      && (status.Retired? ==> retiredAt.Some?)
    }
  }

  datatype BindingStatus = DraftBinding | PublishedBinding | DisabledBinding

  datatype Binding = Binding(
    id: string, tenant: string, versionId: string, upstreamId: string, operationId: Option<string>,
    config: Json, digest: string, status: BindingStatus, createdAt: Time, publishedAt: Option<Time>)
  {
    predicate Named() {
      NoneBlank([id, tenant, versionId, upstreamId, digest])
    }

    predicate Dated() {
      status.PublishedBinding? ==> publishedAt.Some?
    }
  }

  datatype Upstream = Upstream(id: string, tenant: string, namespace: string, active: bool)

  datatype ReviewStatus = PendingReview | Accepted | Rejected | NeedsChange

  /** What the parser left in a normalized operation; None where review would find it malformed. */
  datatype Content = Content(
    summary: Option<string>, description: Option<string>, inputSchema: Json, outputSchema: Option<Json>,
    tags: seq<string>, sideEffect: SideEffect, config: Json)

  datatype Operation = Operation(
    id: string, tenant: string, upstreamId: string, operationId: Option<string>, toolName: Option<string>,
    conflict: bool, content: Option<Content>, review: ReviewStatus, notes: Option<string>,
    versionId: Option<string>, bindingId: Option<string>)

  datatype Catalog = Catalog(tools: map<string, Tool>, versions: map<string, Version>, bindings: map<string, Binding>,
                             upstreams: map<string, Upstream>, operations: map<string, Operation>)

  const EMPTY := Catalog(map[], map[], map[], map[], map[])

  /** The digests of schemas and bindings, whatever the hash. */
  datatype Digests = Digests(schema: (Json, Option<Json>) -> string, binding: (string, Json) -> string)

  datatype Error =
    | Invalid | Integrity
    | OperationNotFound | InvalidReviewState | TenantBoundary | UpstreamNotActive
    | ToolNotFound | VersionNotFound | BindingNotFound | InvalidToolState
    | SchemaMismatch | BindingMismatch | NotNewer
    | CurrentChanged | CurrentBindingMissing | CurrentBindingUnpublished
    | Incomplete | Inconsistent

  // ------------------------------------------------------------- transitions

  function SubmitVersion(v: Version, now: Time): Result<Version, Error> {
    if !v.status.Draft? then Err(Invalid) else Ok(v.(status := Review, reviewedAt := Some(now)))
  }

  function PublishVersion(v: Version, now: Time): Result<Version, Error> {
    if !v.status.Review? then Err(Invalid) else
    var published := v.(status := Published, publishedAt := Some(now));
    if published.Dated() then Ok(published) else Err(Invalid)
  }

  function RetireVersion(v: Version, now: Time): Result<Version, Error> {
    if !v.status.Published? then Err(Invalid) else
    var retired := v.(status := Retired, retiredAt := Some(now));
    if retired.Dated() then Ok(retired) else Err(Invalid)
  }

  function PublishBinding(b: Binding, now: Time): Result<Binding, Error> {
    if !b.status.DraftBinding? then Err(Invalid) else Ok(b.(status := PublishedBinding, publishedAt := Some(now)))
  }

  function DisableBinding(b: Binding): Result<Binding, Error> {
    if !b.status.PublishedBinding? then Err(Invalid) else Ok(b.(status := DisabledBinding))
  }

  function AcceptOperation(o: Operation, versionId: string, bindingId: string,
                           notes: Option<string>): Result<Operation, Error> {
    if o.conflict || o.review !in {PendingReview, NeedsChange} then Err(Invalid)
    else Ok(o.(review := Accepted, notes := notes, versionId := Some(versionId), bindingId := Some(bindingId)))
  }

  // ------------------------------------------------------------ repositories

  function GetTool(cat: Catalog, tenant: string, id: string): Option<Tool> {
    if id in cat.tools && cat.tools[id].tenant == tenant then Some(cat.tools[id]) else None
  }

  predicate NamedTool(cat: Catalog, tenant: string, name: string, id: string) {
    id in cat.tools && cat.tools[id].tenant == tenant && cat.tools[id].name == name
  }

  ghost function ToolByName(cat: Catalog, tenant: string, name: string): Option<Tool> {
    if t :| NamedTool(cat, tenant, name, t) then Some(cat.tools[t]) else None
  }

  ghost function AddTool(cat: Catalog, tool: Tool): Result<Catalog, Error> {
    if tool.id in cat.tools || ToolByName(cat, tool.tenant, tool.name).Some? then Err(Integrity)
    else Ok(cat.(tools := cat.tools[tool.id := tool]))
  }

  function SaveTool(cat: Catalog, tool: Tool): Result<Catalog, Error> {
    if GetTool(cat, tool.tenant, tool.id).None? ||
      (exists t <- cat.tools :: t != tool.id && NamedTool(cat, tool.tenant, tool.name, t)) then
      Err(Integrity)
    else Ok(cat.(tools := cat.tools[tool.id := tool]))
  }

  function GetVersion(cat: Catalog, tenant: string, id: string): Option<Version> {
    if id in cat.versions && cat.versions[id].tenant == tenant then Some(cat.versions[id]) else None
  }

  predicate IsPublished(cat: Catalog, tenant: string, toolId: string, id: string) {
    id in cat.versions && cat.versions[id].tenant == tenant && cat.versions[id].toolId == toolId &&
      cat.versions[id].status.Published?
  }

  ghost function PublishedOf(cat: Catalog, tenant: string, toolId: string): Option<Version> {
    if v :| IsPublished(cat, tenant, toolId, v) then Some(cat.versions[v]) else None
  }

  /** Another row with the same number of the same tool, or another published version of it: the unique indexes. */
  predicate VersionClash(cat: Catalog, v: Version) {
    exists w <- cat.versions :: w != v.id && cat.versions[w].toolId == v.toolId &&
      (cat.versions[w].number == v.number || (cat.versions[w].status.Published? && v.status.Published?))
  }

  function AddVersion(cat: Catalog, v: Version): Result<Catalog, Error> {
    if v.id in cat.versions || VersionClash(cat, v) then Err(Integrity)
    else Ok(cat.(versions := cat.versions[v.id := v]))
  }

  function SaveVersion(cat: Catalog, v: Version): Result<Catalog, Error> {
    if GetVersion(cat, v.tenant, v.id).None? || VersionClash(cat, v) then Err(Integrity)
    else Ok(cat.(versions := cat.versions[v.id := v]))
  }

  ghost function Numbers(cat: Catalog, tenant: string, toolId: string): set<int> {
    set v | v in cat.versions && cat.versions[v].tenant == tenant && cat.versions[v].toolId == toolId ::
      cat.versions[v].number
  }

  ghost function Greatest(numbers: set<int>): (greatest: int)
    ensures forall n <- numbers :: n <= greatest
    ensures greatest >= 0 && (greatest == 0 || greatest in numbers)
  {
    if n :| n in numbers then
      var rest := Greatest(numbers - {n});
      assert numbers == (numbers - {n}) + {n};
      if n > rest then n else rest
    else 0
  }

  ghost function NextNumber(cat: Catalog, tenant: string, toolId: string): int {
    Greatest(Numbers(cat, tenant, toolId)) + 1
  }

  predicate BindsVersion(cat: Catalog, tenant: string, versionId: string, id: string) {
    id in cat.bindings && cat.bindings[id].tenant == tenant && cat.bindings[id].versionId == versionId
  }

  ghost function BindingOf(cat: Catalog, tenant: string, versionId: string): Option<Binding> {
    if b :| BindsVersion(cat, tenant, versionId, b) then Some(cat.bindings[b]) else None
  }

  function GetBinding(cat: Catalog, tenant: string, id: string): Option<Binding> {
    if id in cat.bindings && cat.bindings[id].tenant == tenant then Some(cat.bindings[id]) else None
  }

  predicate BindingClash(cat: Catalog, b: Binding) {
    exists c <- cat.bindings :: c != b.id && cat.bindings[c].versionId == b.versionId
  }

  function AddBinding(cat: Catalog, b: Binding): Result<Catalog, Error> {
    if b.id in cat.bindings || BindingClash(cat, b) then Err(Integrity)
    else Ok(cat.(bindings := cat.bindings[b.id := b]))
  }

  function SaveBinding(cat: Catalog, b: Binding): Result<Catalog, Error> {
    if GetBinding(cat, b.tenant, b.id).None? || BindingClash(cat, b) then Err(Integrity)
    else Ok(cat.(bindings := cat.bindings[b.id := b]))
  }

  function GetUpstream(cat: Catalog, tenant: string, id: string): Option<Upstream> {
    if id in cat.upstreams && cat.upstreams[id].tenant == tenant then Some(cat.upstreams[id]) else None
  }

  function GetOperation(cat: Catalog, tenant: string, id: string): Option<Operation> {
    if id in cat.operations && cat.operations[id].tenant == tenant then Some(cat.operations[id]) else None
  }

  // ------------------------------------------------------------------ review

  datatype ReviewCommand = ReviewCommand(tenant: string, principal: string, operationId: string, owner: string,
                                         visibility: Visibility, notes: Option<string>)

  /** What generator and clock issue to a review: the ids of new rows, and when version and binding are created. */
  datatype Ids = Ids(tool: string, version: string, binding: string, versionAt: Time, bindingAt: Time)

  datatype Reviewed = Reviewed(operationId: string, toolId: string, versionId: string, bindingId: string, name: string,
                               number: int, schemaDigest: string, bindingDigest: string)

  function ReviewedAs(o: Operation, t: Tool, v: Version, b: Binding): Reviewed {
    Reviewed(o.id, t.id, v.id, b.id, t.name, v.number, v.schemaDigest, b.digest)
  }

  /** The first of two texts that is present and not blank. */
  function TextOr(text: Option<string>, other: string): string {
    if text.Some? && !Blank(text.value) then text.value else other
  }

  function BuildVersion(h: Digests, cmd: ReviewCommand, o: Operation, content: Content, tool: Tool, number: int,
                        id: string, now: Time): Version {
    var fallback := if o.operationId.Some? && o.operationId.value != "" then o.operationId.value else tool.name;
    var summary := TextOr(content.summary, fallback);
    Version(id, cmd.tenant, tool.id, number, summary, TextOr(content.description, summary),
            content.inputSchema, content.outputSchema, h.schema(content.inputSchema, content.outputSchema),
            content.tags, content.sideEffect, cmd.visibility, Draft, cmd.principal, now, None, None, None)
  }

  function BuildBinding(h: Digests, o: Operation, content: Content, versionId: string, id: string, now: Time): Binding {
    Binding(id, o.tenant, versionId, o.upstreamId, Some(o.id), content.config, h.binding(o.upstreamId, content.config),
            DraftBinding, now, None)
  }

  /** `_existing_result` */
  function ExistingResult(cat: Catalog, tenant: string, o: Operation): Result<Reviewed, Error> {
    if o.versionId.None? || o.bindingId.None? then Err(InvalidReviewState)
    else
      var v, b := GetVersion(cat, tenant, o.versionId.value), GetBinding(cat, tenant, o.bindingId.value);
      if v.None? || b.None? then Err(InvalidReviewState)
      else
        var t := GetTool(cat, tenant, v.value.toolId);
        if t.None? then Err(InvalidReviewState) else Ok(ReviewedAs(o, t.value, v.value, b.value))
  }

  /** The tool that carries the operation's name, added disabled if there is none. */
  ghost function ToolFor(cat: Catalog, cmd: ReviewCommand, name: string, namespace: string,
                         id: string): Result<(Catalog, Tool), Error> {
    match ToolByName(cat, cmd.tenant, name)
    case Some(tool) => Ok((cat, tool))
    case None =>
      var tool := Tool(id, cmd.tenant, namespace, name, cmd.owner, false);
      if !tool.WellFormed() then Err(Invalid)
      else
        var added :- AddTool(cat, tool);
        Ok((added, tool))
  }

  /** `execute_in_transaction`; whoever calls it commits. */
  ghost function ReviewIn(cat: Catalog, h: Digests, cmd: ReviewCommand, ids: Ids): Result<(Catalog, Reviewed), Error> {
    match GetOperation(cat, cmd.tenant, cmd.operationId)
    case None => Err(OperationNotFound)
    case Some(o) =>
      if o.review.Accepted? then
        var reviewed :- ExistingResult(cat, cmd.tenant, o);
        Ok((cat, reviewed))
      else if o.conflict || o.toolName.None? then Err(InvalidReviewState)
      else match GetUpstream(cat, cmd.tenant, o.upstreamId)
        case None => Err(TenantBoundary)
        case Some(upstream) =>
          if !upstream.active then Err(UpstreamNotActive)
          else
            var (withTool, tool) :- ToolFor(cat, cmd, o.toolName.value, upstream.namespace, ids.tool);
            if o.content.None? then Err(InvalidReviewState)
            else AddDraft(withTool, h, cmd, o, o.content.value, tool, ids)
  }

  ghost function AddDraft(cat: Catalog, h: Digests, cmd: ReviewCommand, o: Operation, content: Content, tool: Tool,
                          ids: Ids)
    : Result<(Catalog, Reviewed), Error>
  {
    var v := BuildVersion(h, cmd, o, content, tool, NextNumber(cat, cmd.tenant, tool.id), ids.version, ids.versionAt);
    var b := BuildBinding(h, o, content, v.id, ids.binding, ids.bindingAt);
    if !v.Named() || !b.Named() then Err(Invalid)
    else
      var accepted :- AcceptOperation(o, v.id, b.id, cmd.notes);
      var withVersion :- AddVersion(cat, v);
      var withBinding :- AddBinding(withVersion, b);
      Ok((withBinding.(operations := withBinding.operations[o.id := accepted]), ReviewedAs(o, tool, v, b)))
  }

  /** `ReviewImportedOperation` */
  ghost function ReviewTx(cat: Catalog, h: Digests, cmd: ReviewCommand, ids: Ids)
    : (Catalog, Result<Reviewed, Error>)
  {
    match ReviewIn(cat, h, cmd, ids)
    case Ok((committed, reviewed)) => (committed, Ok(reviewed))
    case Err(e) => (cat, Err(e))
  }

  /** `SubmitToolVersionForReview` */
  function SubmitTx(cat: Catalog, tenant: string, versionId: string, now: Time): (Catalog, Result<(), Error>) {
    match GetVersion(cat, tenant, versionId)
    case None => (cat, Err(VersionNotFound))
    case Some(v) =>
      if !v.status.Draft? then (cat, Err(InvalidToolState))
      else match SubmitVersion(v, now)
        case Err(e) => (cat, Err(e))
        case Ok(submitted) =>
          match SaveVersion(cat, submitted)
          case Err(e) => (cat, Err(e))
          case Ok(committed) => (committed, Ok(()))
  }

  // ----------------------------------------------------------------- publish

  datatype PublishCommand = PublishCommand(tenant: string, toolId: string, versionId: string,
                                           expectedSchema: string, expectedBinding: string)

  datatype Publication = Publication(toolId: string, versionId: string, bindingId: string, name: string, number: int,
                                     occurredAt: Time, retiredVersionId: Option<string>)

  /** `_validate_publish_snapshot` */
  function Snapshot(h: Digests, cmd: PublishCommand, t: Tool, v: Version, b: Binding, u: Upstream): Option<Error> {
    if {t.tenant, v.tenant, b.tenant, u.tenant} != {cmd.tenant} then Some(TenantBoundary)
    else if v.toolId != t.id || b.versionId != v.id then Some(InvalidToolState)
    else if !v.status.Review? || !b.status.DraftBinding? then Some(InvalidToolState)
    else if !u.active then Some(UpstreamNotActive)
    else if h.schema(v.inputSchema, v.outputSchema) != v.schemaDigest || cmd.expectedSchema != v.schemaDigest then
      Some(SchemaMismatch)
    else if h.binding(b.upstreamId, b.config) != b.digest || cmd.expectedBinding != b.digest then Some(BindingMismatch)
    else None
  }

  /** `_retire_current_version` */
  ghost function RetireCurrent(cat: Catalog, tenant: string, tool: Tool, target: Version,
                               now: Time): Result<(Catalog, Option<string>), Error> {
    match PublishedOf(cat, tenant, tool.id)
    case None => Ok((cat, None))
    case Some(current) =>
      if current.number >= target.number then Err(NotNewer)
      else match GetVersion(cat, tenant, current.id)
        case None => Err(CurrentChanged)
        case Some(v) =>
          if !v.status.Published? then Err(CurrentChanged)
          else match BindingOf(cat, tenant, v.id)
            case None => Err(CurrentBindingMissing)
            case Some(b) =>
              if !b.status.PublishedBinding? then Err(CurrentBindingUnpublished)
              else
                var retired :- RetireVersion(v, now);
                var withVersion :- SaveVersion(cat, retired);
                var withBinding :- SaveBinding(withVersion, DisableBinding(b).value);
                Ok((withBinding, Some(v.id)))
  }

  ghost function Activate(cat: Catalog, tool: Tool, v: Version, b: Binding, now: Time): Result<Catalog, Error> {
    var published :- PublishVersion(v, now);
    var withVersion :- SaveVersion(cat, published);
    var bound :- PublishBinding(b, now);
    var withBinding :- SaveBinding(withVersion, bound);
    SaveTool(withBinding, tool.(active := true))
  }

  /** `publish_tool_in_transaction`; whoever calls it commits. */
  ghost function PublishIn(cat: Catalog, h: Digests, cmd: PublishCommand,
                           now: Time): Result<(Catalog, Publication), Error> {
    var tool := GetTool(cat, cmd.tenant, cmd.toolId);
    if tool.None? then Err(ToolNotFound) else
    var version := GetVersion(cat, cmd.tenant, cmd.versionId);
    if version.None? then Err(VersionNotFound) else
    var binding := BindingOf(cat, cmd.tenant, cmd.versionId);
    if binding.None? then Err(BindingNotFound) else
    var upstream := GetUpstream(cat, cmd.tenant, binding.value.upstreamId);
    if upstream.None? then Err(TenantBoundary) else
    var (t, v, b) := (tool.value, version.value, binding.value);
    var refused := Snapshot(h, cmd, t, v, b, upstream.value);
    if refused.Some? then Err(refused.value)
    else
      var (retiredCat, retired) :- RetireCurrent(cat, cmd.tenant, t, v, now);
      var published :- Activate(retiredCat, t, v, b, now);
      Ok((published, Publication(t.id, v.id, b.id, t.name, v.number, now, retired)))
  }

  /** `PublishTool` */
  ghost function PublishTx(cat: Catalog, h: Digests, cmd: PublishCommand, now: Time)
    : (Catalog, Result<Publication, Error>)
  {
    match PublishIn(cat, h, cmd, now)
    case Ok((committed, publication)) => (committed, Ok(publication))
    case Err(e) => (cat, Err(e))
  }

  // ---------------------------------------------------------- direct publish

  datatype DirectResult = DirectResult(reviewed: Reviewed, retiredVersionId: Option<string>, publishedAt: Time,
                                       already: bool)

  /** `DirectPublishImportedOperation` */
  ghost function DirectTx(cat: Catalog, h: Digests, cmd: ReviewCommand, ids: Ids, now: Time)
    : (Catalog, Result<DirectResult, Error>)
  {
    match ReviewIn(cat, h, cmd, ids)
    case Err(e) => (cat, Err(e))
    case Ok((working, reviewed)) =>
      var version := GetVersion(working, cmd.tenant, reviewed.versionId);
      var binding := BindingOf(working, cmd.tenant, reviewed.versionId);
      var tool := GetTool(working, cmd.tenant, reviewed.toolId);
      if version.None? || binding.None? || tool.None? then (cat, Err(Incomplete))
      else if version.value.status.Published? then
        if !binding.value.status.PublishedBinding? || !tool.value.active || version.value.publishedAt.None? then
          (cat, Err(Inconsistent))
        else (cat, Ok(DirectResult(reviewed, None, version.value.publishedAt.value, true)))
      else match SubmitIfDraft(working, version.value, now)
        case Err(e) => (cat, Err(e))
        case Ok(submitted) =>
          match PublishIn(submitted, h, PublishCommand(cmd.tenant, reviewed.toolId, reviewed.versionId,
                                                       reviewed.schemaDigest, reviewed.bindingDigest), now)
          case Err(e) => (cat, Err(e))
          case Ok((published, publication)) =>
            (published, Ok(DirectResult(reviewed, publication.retiredVersionId, publication.occurredAt, false)))
  }

  function SubmitIfDraft(cat: Catalog, v: Version, now: Time): Result<Catalog, Error> {
    if v.status.Draft? then SaveVersion(cat, SubmitVersion(v, now).value)
    else if v.status.Review? then Ok(cat)
    else Err(InvalidToolState)
  }

  // -------------------------------------------------------------------- runs

  datatype Step =
    | ReviewStep(review: ReviewCommand, ids: Ids)
    | SubmitStep(tenant: string, versionId: string, now: Time)
    | PublishStep(publish: PublishCommand, now: Time)
    | DirectStep(review: ReviewCommand, ids: Ids, now: Time)
    | ImportStep(operation: Operation)
    | UpstreamStep(upstream: Upstream)

  /**
   The importer adds operations that nobody has reviewed yet; the registry registers,
   changes and disables upstreams.
   */
  ghost function Apply(cat: Catalog, h: Digests, step: Step): Catalog {
    match step
    case ReviewStep(cmd, ids) => ReviewTx(cat, h, cmd, ids).0
    case SubmitStep(tenant, versionId, now) => SubmitTx(cat, tenant, versionId, now).0
    case PublishStep(cmd, now) => PublishTx(cat, h, cmd, now).0
    case DirectStep(cmd, ids, now) => DirectTx(cat, h, cmd, ids, now).0
    case ImportStep(o) =>
      if o.id !in cat.operations && !o.review.Accepted? then cat.(operations := cat.operations[o.id := o]) else cat
    case UpstreamStep(u) =>
      if u.id !in cat.upstreams || cat.upstreams[u.id].tenant == u.tenant then
        cat.(upstreams := cat.upstreams[u.id := u])
      else cat
  }

  ghost function Run(cat: Catalog, h: Digests, steps: seq<Step>): Catalog
    decreases |steps|
  {
    if steps == [] then cat else Run(Apply(cat, h, steps[0]), h, steps[1..])
  }
}
