/** The publication use cases as code: each works on the copy of one unit of work and commits at most once. */
module CatalogUseCases {
  import opened Common
  import opened CatalogStore
  import opened CatalogInvariant

  /** The unique indexes of the storage. */
  ghost predicate Constraints(cat: Catalog) {
    NamesUnique(cat) && NumbersUnique(cat) && BindingsUnique(cat) && OnePublished(cat)
  }

  class Storage {
    var catalog: Catalog

    constructor ()
      ensures catalog == EMPTY
    {
      catalog := EMPTY;
    }
  }

  class ReviewUnitOfWork {
    const storage: Storage
    var working: Catalog

    ghost predicate Valid()
      reads this
    {
      Constraints(working)
    }

    constructor Enter(storage: Storage)
      requires Constraints(storage.catalog)
      ensures this.storage == storage && working == storage.catalog && Valid()
    {
      this.storage := storage;
      working := storage.catalog;
    }

    method Commit()
      modifies storage
      ensures storage.catalog == working
    {
      storage.catalog := working;
    }

    method GetToolByName(tenant: string, name: string) returns (r: Option<Tool>)
      requires Valid()
      ensures r == ToolByName(working, tenant, name)
    {
      if t :| NamedTool(working, tenant, name, t) && t in working.tools {
        return Some(working.tools[t]);
      }
      return None;
    }

    method GetPublishedVersion(tenant: string, toolId: string) returns (r: Option<Version>)
      requires Valid()
      ensures r == PublishedOf(working, tenant, toolId)
    {
      if v :| v in working.versions && IsPublished(working, tenant, toolId, v) {
        assert PublishedFor(working, toolId, v);
        assert forall w :: IsPublished(working, tenant, toolId, w) ==> PublishedFor(working, toolId, w);
        return Some(working.versions[v]);
      }
      return None;
    }

    method GetByToolVersion(tenant: string, versionId: string) returns (r: Option<Binding>)
      requires Valid()
      ensures r == BindingOf(working, tenant, versionId)
    {
      if b :| b in working.bindings && BindsVersion(working, tenant, versionId, b) {
        return Some(working.bindings[b]);
      }
      return None;
    }

    method NextVersionNumber(tenant: string, toolId: string) returns (number: int)
      ensures number == NextNumber(working, tenant, toolId)
    {
      var greatest := 0;
      var left := working.versions.Keys;
      ghost var numbers := Numbers(working, tenant, toolId);
      while left != {}
        invariant left <= working.versions.Keys
        invariant greatest >= 0 && (greatest == 0 || greatest in numbers)
        invariant forall v <- working.versions.Keys - left ::
                    working.versions[v].tenant == tenant && working.versions[v].toolId == toolId ==>
                      working.versions[v].number <= greatest
        decreases left
      {
        var v :| v in left;
        var row := working.versions[v];
        if row.tenant == tenant && row.toolId == toolId && row.number > greatest {
          assert row.number in numbers;
          greatest := row.number;
        }
        left := left - {v};
      }
      return greatest + 1;
    }

    method InsertTool(tool: Tool) returns (error: Option<Error>)
      requires Valid()
      modifies this
      ensures Valid()
      ensures match AddTool(old(working), tool)
              case Ok(added) => error.None? && working == added
              case Err(e) => error == Some(e) && working == old(working)
    {
      var holder := GetToolByName(tool.tenant, tool.name);
      if tool.id in working.tools || holder.Some? { return Some(Integrity); }
      assert forall t <- working.tools ::
        working.tools[t].tenant == tool.tenant && working.tools[t].name == tool.name ==>
          NamedTool(working, tool.tenant, tool.name, t);
      working := working.(tools := working.tools[tool.id := tool]);
      assert forall t, v :: PublishedFor(working, t, v) <==> PublishedFor(old(working), t, v);
      return None;
    }

    method UpdateTool(tool: Tool) returns (error: Option<Error>)
      requires Valid()
      modifies this
      ensures Valid()
      ensures match SaveTool(old(working), tool)
              case Ok(saved) => error.None? && working == saved
              case Err(e) => error == Some(e) && working == old(working)
    {
      if GetTool(working, tool.tenant, tool.id).None? ||
        (exists t <- working.tools :: t != tool.id && NamedTool(working, tool.tenant, tool.name, t)) {
        return Some(Integrity);
      }
      assert forall t <- working.tools :: t != tool.id && working.tools[t].tenant == tool.tenant ==>
          !NamedTool(working, tool.tenant, tool.name, t);
      working := working.(tools := working.tools[tool.id := tool]);
      assert forall t, v :: PublishedFor(working, t, v) <==> PublishedFor(old(working), t, v);
      return None;
    }

    method InsertVersion(v: Version) returns (error: Option<Error>)
      requires Valid()
      modifies this
      ensures Valid()
      ensures match AddVersion(old(working), v)
              case Ok(added) => error.None? && working == added
              case Err(e) => error == Some(e) && working == old(working)
    {
      if v.id in working.versions || VersionClash(working, v) { return Some(Integrity); }
      ClashFree(working, v);
      working := working.(versions := working.versions[v.id := v]);
      return None;
    }

    method UpdateVersion(v: Version) returns (error: Option<Error>)
      requires Valid()
      modifies this
      ensures Valid()
      ensures match SaveVersion(old(working), v)
              case Ok(saved) => error.None? && working == saved
              case Err(e) => error == Some(e) && working == old(working)
    {
      if GetVersion(working, v.tenant, v.id).None? || VersionClash(working, v) { return Some(Integrity); }
      ClashFree(working, v);
      working := working.(versions := working.versions[v.id := v]);
      return None;
    }

    method InsertBinding(b: Binding) returns (error: Option<Error>)
      requires Valid()
      modifies this
      ensures Valid()
      ensures match AddBinding(old(working), b)
              case Ok(added) => error.None? && working == added
              case Err(e) => error == Some(e) && working == old(working)
    {
      if b.id in working.bindings || BindingClash(working, b) { return Some(Integrity); }
      working := working.(bindings := working.bindings[b.id := b]);
      assert forall t, v :: PublishedFor(working, t, v) <==> PublishedFor(old(working), t, v);
      return None;
    }

    method UpdateBinding(b: Binding) returns (error: Option<Error>)
      requires Valid()
      modifies this
      ensures Valid()
      ensures match SaveBinding(old(working), b)
              case Ok(saved) => error.None? && working == saved
              case Err(e) => error == Some(e) && working == old(working)
    {
      if GetBinding(working, b.tenant, b.id).None? || BindingClash(working, b) { return Some(Integrity); }
      working := working.(bindings := working.bindings[b.id := b]);
      assert forall t, v :: PublishedFor(working, t, v) <==> PublishedFor(old(working), t, v);
      return None;
    }

    method UpdateOperation(o: Operation)
      requires Valid()
      modifies this
      ensures Valid() && working == old(working).(operations := old(working).operations[o.id := o])
    {
      working := working.(operations := working.operations[o.id := o]);
      assert forall t, v :: PublishedFor(working, t, v) <==> PublishedFor(old(working), t, v);
    }
  }

  /** A row that passes the unique indexes keeps them. */
  lemma ClashFree(cat: Catalog, v: Version)
    requires Constraints(cat) && !VersionClash(cat, v)
    ensures Constraints(cat.(versions := cat.versions[v.id := v]))
  {
    var after := cat.(versions := cat.versions[v.id := v]);
    forall t, x, y | PublishedFor(after, t, x) && PublishedFor(after, t, y) ensures x == y {
      assert x != v.id ==> PublishedFor(cat, t, x);
      assert y != v.id ==> PublishedFor(cat, t, y);
    }
  }

  // ----------------------------------------------------------------- publish

  /** `_retire_current_version` */
  method RetireCurrentVersion(uow: ReviewUnitOfWork, tenant: string, tool: Tool, target: Version, now: Time)
    returns (r: Result<Option<string>, Error>)
    requires uow.Valid()
    modifies uow
    ensures uow.Valid()
    ensures match RetireCurrent(old(uow.working), tenant, tool, target, now)
            case Ok((after, retired)) => r == Ok(retired) && uow.working == after
            case Err(e) => r == Err(e)
  {
    hide BindingOf, PublishedOf, VersionClash, BindingClash, Constraints;
    var current := uow.GetPublishedVersion(tenant, tool.id);
    if current.None? { return Ok(None); }
    if current.value.number >= target.number { return Err(NotNewer); }
    var locked := GetVersion(uow.working, tenant, current.value.id);
    if locked.None? || !locked.value.status.Published? { return Err(CurrentChanged); }
    var binding := uow.GetByToolVersion(tenant, locked.value.id);
    if binding.None? { return Err(CurrentBindingMissing); }
    if !binding.value.status.PublishedBinding? { return Err(CurrentBindingUnpublished); }
    var retired := RetireVersion(locked.value, now);
    if retired.Err? { return Err(retired.error); }
    var error := uow.UpdateVersion(retired.value);
    if error.Some? { return Err(error.value); }
    error := uow.UpdateBinding(DisableBinding(binding.value).value);
    if error.Some? { return Err(error.value); }
    return Ok(Some(locked.value.id));
  }

  /** `publish_tool_in_transaction` */
  method PublishInTransaction(uow: ReviewUnitOfWork, h: Digests, cmd: PublishCommand, now: Time)
    returns (r: Result<Publication, Error>)
    requires uow.Valid()
    modifies uow
    ensures uow.Valid()
    ensures match PublishIn(old(uow.working), h, cmd, now)
            case Ok((after, publication)) => r == Ok(publication) && uow.working == after
            case Err(e) => r == Err(e)
  {
    hide BindingOf, PublishedOf, VersionClash, BindingClash, Constraints, RetireCurrent, Snapshot;
    var tool := GetTool(uow.working, cmd.tenant, cmd.toolId);
    if tool.None? { return Err(ToolNotFound); }
    var version := GetVersion(uow.working, cmd.tenant, cmd.versionId);
    if version.None? { return Err(VersionNotFound); }
    var binding := uow.GetByToolVersion(cmd.tenant, cmd.versionId);
    if binding.None? { return Err(BindingNotFound); }
    var upstream := GetUpstream(uow.working, cmd.tenant, binding.value.upstreamId);
    if upstream.None? { return Err(TenantBoundary); }
    var refused := Snapshot(h, cmd, tool.value, version.value, binding.value, upstream.value);
    if refused.Some? { return Err(refused.value); }
    var retired := RetireCurrentVersion(uow, cmd.tenant, tool.value, version.value, now);
    if retired.Err? { return Err(retired.error); }
    var published := PublishVersion(version.value, now);
    if published.Err? { return Err(published.error); }
    var error := uow.UpdateVersion(published.value);
    if error.Some? { return Err(error.value); }
    var bound := PublishBinding(binding.value, now);
    if bound.Err? { return Err(bound.error); }
    error := uow.UpdateBinding(bound.value);
    if error.Some? { return Err(error.value); }
    error := uow.UpdateTool(tool.value.(active := true));
    if error.Some? { return Err(error.value); }
    return Ok(Publication(tool.value.id, version.value.id, binding.value.id, tool.value.name, version.value.number, now,
                          retired.value));
  }

  // ------------------------------------------------------------------ review

  /** `execute_in_transaction` of the review */
  method ReviewInTransaction(uow: ReviewUnitOfWork, h: Digests, cmd: ReviewCommand, ids: Ids)
    returns (r: Result<Reviewed, Error>)
    requires uow.Valid()
    modifies uow
    ensures uow.Valid()
    ensures match ReviewIn(old(uow.working), h, cmd, ids)
            case Ok((after, reviewed)) => r == Ok(reviewed) && uow.working == after
            case Err(e) => r == Err(e)
  {
    hide ToolByName, NextNumber, VersionClash, BindingClash, Constraints, BuildVersion, BuildBinding, ExistingResult;
    var operation := GetOperation(uow.working, cmd.tenant, cmd.operationId);
    if operation.None? { return Err(OperationNotFound); }
    var o := operation.value;
    if o.review.Accepted? { return ExistingResult(uow.working, cmd.tenant, o); }
    if o.conflict || o.toolName.None? { return Err(InvalidReviewState); }
    var upstream := GetUpstream(uow.working, cmd.tenant, o.upstreamId);
    if upstream.None? { return Err(TenantBoundary); }
    if !upstream.value.active { return Err(UpstreamNotActive); }
    var found := uow.GetToolByName(cmd.tenant, o.toolName.value);
    var tool := if found.Some? then found.value
                else Tool(ids.tool, cmd.tenant, upstream.value.namespace, o.toolName.value, cmd.owner, false);
    if found.None? {
      if !tool.WellFormed() { return Err(Invalid); }
      var refused := uow.InsertTool(tool);
      if refused.Some? { return Err(refused.value); }
    }
    if o.content.None? { return Err(InvalidReviewState); }
    var number := uow.NextVersionNumber(cmd.tenant, tool.id);
    var v := BuildVersion(h, cmd, o, o.content.value, tool, number, ids.version, ids.versionAt);
    var b := BuildBinding(h, o, o.content.value, v.id, ids.binding, ids.bindingAt);
    if !v.Named() || !b.Named() { return Err(Invalid); }
    var accepted := AcceptOperation(o, v.id, b.id, cmd.notes);
    if accepted.Err? { return Err(accepted.error); }
    var error := uow.InsertVersion(v);
    if error.Some? { return Err(error.value); }
    error := uow.InsertBinding(b);
    if error.Some? { return Err(error.value); }
    SameId(o, v.id, b.id, cmd.notes);
    uow.UpdateOperation(accepted.value);
    return Ok(ReviewedAs(o, tool, v, b));
  }

  lemma SameId(o: Operation, versionId: string, bindingId: string, notes: Option<string>)
    ensures AcceptOperation(o, versionId, bindingId, notes).Ok? ==>
              AcceptOperation(o, versionId, bindingId, notes).value.id == o.id
  {
  }

  // ---------------------------------------------------------- the use cases

  method ReviewImportedOperation(storage: Storage, h: Digests, cmd: ReviewCommand, ids: Ids)
    returns (r: Result<Reviewed, Error>)
    requires Constraints(storage.catalog)
    modifies storage
    ensures (storage.catalog, r) == ReviewTx(old(storage.catalog), h, cmd, ids) && Constraints(storage.catalog)
  {
    hide ReviewIn, Constraints;
    var uow := new ReviewUnitOfWork.Enter(storage);
    r := ReviewInTransaction(uow, h, cmd, ids);
    if r.Ok? { uow.Commit(); }
  }

  method SubmitToolVersionForReview(storage: Storage, tenant: string, versionId: string, now: Time)
    returns (r: Result<(), Error>)
    requires Constraints(storage.catalog)
    modifies storage
    ensures (storage.catalog, r) == SubmitTx(old(storage.catalog), tenant, versionId, now)
    ensures Constraints(storage.catalog)
  {
    hide Constraints, VersionClash;
    var uow := new ReviewUnitOfWork.Enter(storage);
    var version := GetVersion(uow.working, tenant, versionId);
    if version.None? { return Err(VersionNotFound); }
    if !version.value.status.Draft? { return Err(InvalidToolState); }
    var error := uow.UpdateVersion(SubmitVersion(version.value, now).value);
    if error.Some? { return Err(error.value); }
    uow.Commit();
    return Ok(());
  }

  method PublishTool(storage: Storage, h: Digests, cmd: PublishCommand, now: Time)
    returns (r: Result<Publication, Error>)
    requires Constraints(storage.catalog)
    modifies storage
    ensures (storage.catalog, r) == PublishTx(old(storage.catalog), h, cmd, now) && Constraints(storage.catalog)
  {
    hide PublishIn, Constraints;
    var uow := new ReviewUnitOfWork.Enter(storage);
    r := PublishInTransaction(uow, h, cmd, now);
    if r.Ok? { uow.Commit(); }
  }

  method DirectPublishImportedOperation(storage: Storage, h: Digests, cmd: ReviewCommand, ids: Ids, now: Time)
    returns (r: Result<DirectResult, Error>)
    requires Constraints(storage.catalog)
    modifies storage
    ensures (storage.catalog, r) == DirectTx(old(storage.catalog), h, cmd, ids, now) && Constraints(storage.catalog)
  {
    hide ReviewIn, PublishIn, BindingOf, Constraints, VersionClash;
    var uow := new ReviewUnitOfWork.Enter(storage);
    var review := ReviewInTransaction(uow, h, cmd, ids);
    if review.Err? { return Err(review.error); }
    var reviewed := review.value;
    var version := GetVersion(uow.working, cmd.tenant, reviewed.versionId);
    var binding := uow.GetByToolVersion(cmd.tenant, reviewed.versionId);
    var tool := GetTool(uow.working, cmd.tenant, reviewed.toolId);
    if version.None? || binding.None? || tool.None? { return Err(Incomplete); }
    if version.value.status.Published? {
      if !binding.value.status.PublishedBinding? || !tool.value.active || version.value.publishedAt.None? {
        return Err(Inconsistent);
      }
      return Ok(DirectResult(reviewed, None, version.value.publishedAt.value, true));
    }
    if version.value.status.Draft? {
      var error := uow.UpdateVersion(SubmitVersion(version.value, now).value);
      if error.Some? { return Err(error.value); }
    } else if !version.value.status.Review? {
      return Err(InvalidToolState);
    }
    var publication := PublishInTransaction(uow, h, PublishCommand(cmd.tenant, reviewed.toolId, reviewed.versionId,
                                                                   reviewed.schemaDigest, reviewed.bindingDigest), now);
    if publication.Err? { return Err(publication.error); }
    uow.Commit();
    return Ok(DirectResult(reviewed, publication.value.retiredVersionId, publication.value.occurredAt, false));
  }
}
