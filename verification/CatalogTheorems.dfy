/**
 The catalog over whole runs: the joint invariant, increasing version numbers, and
 direct publication as the three steps in one.
 */
module CatalogTheorems {
  import opened Common
  import opened CatalogStore
  import opened CatalogInvariant
  import opened CatalogSteps
  import opened CatalogPublication

  // ----------------------------------------------------------- direct publish

  predicate IsDraft(cat: Catalog, v: string) {
    v in cat.versions && cat.versions[v].status.Draft?
  }

  /** Submission, unless that was done before, and publication of a reviewed version, as two transactions. */
  ghost function SubmitAndPublish(cat: Catalog, h: Digests, tenant: string, r: Reviewed, submittedAt: Time,
                                  publishedAt: Time)
    : (Catalog, Result<Publication, Error>)
  {
    var (submittedCat, submission) :=
      if IsDraft(cat, r.versionId) then SubmitTx(cat, tenant, r.versionId, submittedAt) else (cat, Ok(()));
    match submission
    case Err(e) => (submittedCat, Err(e))
    case Ok(_) => PublishTx(submittedCat, h, CommandFor(tenant, r), publishedAt)
  }

  /** Review, submission and publication, as three transactions at their own times. */
  ghost function Pipeline(cat: Catalog, h: Digests, cmd: ReviewCommand, ids: Ids, submittedAt: Time,
                          publishedAt: Time)
    : (Catalog, Result<(Reviewed, Publication), Error>)
  {
    var (reviewedCat, review) := ReviewTx(cat, h, cmd, ids);
    match review
    case Err(e) => (reviewedCat, Err(e))
    case Ok(r) =>
      var (after, publication) := SubmitAndPublish(reviewedCat, h, cmd.tenant, r, submittedAt, publishedAt);
      match publication
      case Err(e) => (after, Err(e))
      case Ok(p) => (after, Ok((r, p)))
  }

  function CommandFor(tenant: string, r: Reviewed): PublishCommand {
    PublishCommand(tenant, r.toolId, r.versionId, r.schemaDigest, r.bindingDigest)
  }

  /** The review's rows, as direct publication looks them up. */
  lemma ReviewedFound(cat: Catalog, h: Digests, tenant: string, r: Reviewed)
    requires Inv(cat, h) && ReviewedRows(cat, tenant, r)
    ensures GetVersion(cat, tenant, r.versionId) == Some(cat.versions[r.versionId])
    ensures GetTool(cat, tenant, r.toolId) == Some(cat.tools[r.toolId])
    ensures BindingOf(cat, tenant, r.versionId) == Some(cat.bindings[r.bindingId])
    ensures MovesWith(cat.versions[r.versionId].status, cat.bindings[r.bindingId].status)
    ensures cat.versions[r.versionId].status.Published? ==>
              cat.tools[r.toolId].active && cat.versions[r.versionId].publishedAt.Some?
  {
    InvParts(cat, h);
    hide Inv, BindingOf;
    TheBinding(cat, h, r.versionId, r.bindingId);
    assert VersionRow(cat, h, r.versionId);
    if cat.versions[r.versionId].status.Published? {
      assert PublishedFor(cat, r.toolId, r.versionId);
    }
  }

  /** What direct publication does once the review has gone through. */
  ghost function AfterReview(cat: Catalog, working: Catalog, h: Digests, cmd: ReviewCommand, r: Reviewed, now: Time)
    : (Catalog, Result<DirectResult, Error>)
    requires r.versionId in working.versions
  {
    var v := working.versions[r.versionId];
    if v.status.Published? then
      (cat, Ok(DirectResult(r, None, if v.publishedAt.Some? then v.publishedAt.value else 0, true)))
    else match SubmitIfDraft(working, v, now)
      case Err(e) => (cat, Err(e))
      case Ok(submitted) =>
        match PublishIn(submitted, h, CommandFor(cmd.tenant, r), now)
        case Err(e) => (cat, Err(e))
        case Ok((published, p)) => (published, Ok(DirectResult(r, p.retiredVersionId, p.occurredAt, false)))
  }

  lemma ReviewAnswers(cat: Catalog, h: Digests, cmd: ReviewCommand, ids: Ids)
    requires Inv(cat, h) && ReviewIn(cat, h, cmd, ids).Ok?
    ensures var (working, r) := ReviewIn(cat, h, cmd, ids).value;
            Inv(working, h) && ReviewedRows(working, cmd.tenant, r)
  {
    hide *;
    ReviewKeeps(cat, h, cmd, ids);
    ReviewShape(cat, h, cmd, ids);
    var (working, r) := ReviewIn(cat, h, cmd, ids).value;
    if !cat.operations[cmd.operationId].review.Accepted? {
      DraftRows(cat, working, h, cmd, ids, r);
    }
  }

  lemma DraftRows(before: Catalog, after: Catalog, h: Digests, cmd: ReviewCommand, ids: Ids, r: Reviewed)
    requires NewDraft(before, after, h, cmd, ids, r)
    ensures ReviewedRows(after, cmd.tenant, r)
  {
  }

  /** Direct publication's own checks for incomplete or inconsistent rows never fire. */
  lemma DirectAfterReview(cat: Catalog, h: Digests, cmd: ReviewCommand, ids: Ids, now: Time)
    requires Inv(cat, h)
    ensures match ReviewIn(cat, h, cmd, ids)
            case Err(e) => DirectTx(cat, h, cmd, ids, now) == (cat, Err(e))
            case Ok((working, r)) =>
              r.versionId in working.versions &&
                DirectTx(cat, h, cmd, ids, now) == AfterReview(cat, working, h, cmd, r, now)
  {
    hide Inv, ReviewIn, PublishIn, BindingOf, SubmitIfDraft;
    var review := ReviewIn(cat, h, cmd, ids);
    if review.Ok? {
      ReviewAnswers(cat, h, cmd, ids);
      ReviewedFound(review.value.0, h, cmd.tenant, review.value.1);
    }
  }

  /** Submission within direct publication is the submission transaction, and never fails. */
  lemma SubmitsAlike(cat: Catalog, h: Digests, tenant: string, v: string, now: Time)
    requires Inv(cat, h) && v in cat.versions && cat.versions[v].tenant == tenant && cat.versions[v].status.Draft?
    ensures var (after, r) := SubmitTx(cat, tenant, v, now);
            r.Ok? && SubmitIfDraft(cat, cat.versions[v], now) == Ok(after) && Inv(after, h)
  {
    hide Inv;
    SubmitSucceedsExactly(cat, h, tenant, v, now);
    SubmittedKeeps(cat, SubmitTx(cat, tenant, v, now).0, v, now, h);
  }

  lemma PublishNeedsReview(cat: Catalog, h: Digests, cmd: PublishCommand, now: Time)
    requires Inv(cat, h) && cmd.versionId in cat.versions && !cat.versions[cmd.versionId].status.Review?
    ensures PublishIn(cat, h, cmd, now).Err?
  {
    hide Inv, PublishIn, Newest, BindingReady, Switched;
    PublishSucceedsExactly(cat, h, cmd, now);
  }

  /**
   Direct publication is the pipeline submitting and publishing at one time: the very
   same catalog and rows; CatalogTimes frees the times.
   */
  lemma DirectIsPipeline(cat: Catalog, h: Digests, cmd: ReviewCommand, ids: Ids, now: Time)
    requires Inv(cat, h)
    ensures var (after, direct) := DirectTx(cat, h, cmd, ids, now);
            var (piped, steps) := Pipeline(cat, h, cmd, ids, now, now);
            && (direct.Ok? && !direct.value.already <==> steps.Ok?)
            && (steps.Ok? ==>
                after == piped &&
                  direct.value == DirectResult(steps.value.0, steps.value.1.retiredVersionId, now, false))
            && (direct.Err? ==> after == cat)
  {
    hide Inv, ReviewIn, PublishIn, DirectTx, SubmitTx, SubmitIfDraft, ReviewedRows;
    DirectAfterReview(cat, h, cmd, ids, now);
    var review := ReviewIn(cat, h, cmd, ids);
    if review.Ok? {
      ReviewAnswers(cat, h, cmd, ids);
      var (working, r) := review.value;
      VersionReviewed(working, cmd.tenant, r);
      PipelineTail(cat, working, h, cmd, r, now);
    }
  }

  lemma VersionReviewed(cat: Catalog, tenant: string, r: Reviewed)
    requires ReviewedRows(cat, tenant, r)
    ensures r.versionId in cat.versions && cat.versions[r.versionId].tenant == tenant
  {
  }

  lemma PipelineTail(cat: Catalog, working: Catalog, h: Digests, cmd: ReviewCommand, r: Reviewed, now: Time)
    requires Inv(working, h) && r.versionId in working.versions && working.versions[r.versionId].tenant == cmd.tenant
    ensures var (after, direct) := AfterReview(cat, working, h, cmd, r, now);
            var draft := working.versions[r.versionId].status.Draft?;
            var submitted := if draft then SubmitTx(working, cmd.tenant, r.versionId, now) else (working, Ok(()));
            var publication := PublishIn(submitted.0, h, CommandFor(cmd.tenant, r), now);
            && submitted.1.Ok?
            && (direct.Ok? && !direct.value.already <==> publication.Ok?)
            && (direct.Ok? && direct.value.already ==> after == cat)
            && (direct.Err? ==> after == cat)
            && (publication.Ok? ==>
                after == publication.value.0 &&
                  direct.value == DirectResult(r, publication.value.1.retiredVersionId, now, false))
  {
    hide Inv, PublishIn, SubmitTx, Switched, Publishable;
    var v := working.versions[r.versionId];
    if v.status.Draft? {
      SubmitsAlike(working, h, cmd.tenant, r.versionId, now);
      PublishSucceedsExactly(SubmitTx(working, cmd.tenant, r.versionId, now).0, h, CommandFor(cmd.tenant, r), now);
    } else if v.status.Review? {
      PublishSucceedsExactly(working, h, CommandFor(cmd.tenant, r), now);
    } else {
      PublishNeedsReview(working, h, CommandFor(cmd.tenant, r), now);
    }
  }

  // ------------------------------------------------------------------- runs

  lemma PublishKeeps(cat: Catalog, h: Digests, cmd: PublishCommand, now: Time)
    requires Inv(cat, h) && PublishIn(cat, h, cmd, now).Ok?
    ensures Inv(PublishIn(cat, h, cmd, now).value.0, h)
  {
    hide *;
    PublishSucceedsExactly(cat, h, cmd, now);
    var (after, p) := PublishIn(cat, h, cmd, now).value;
    SwitchedKeeps(cat, after, cmd.toolId, cmd.versionId, p.bindingId, p.retiredVersionId,
                  BindingIdOf(cat, p.retiredVersionId), now, h);
  }

  lemma SubmitKeeps(cat: Catalog, h: Digests, tenant: string, v: string, now: Time)
    requires Inv(cat, h)
    ensures Inv(SubmitTx(cat, tenant, v, now).0, h)
  {
    hide *;
    SubmitSucceedsExactly(cat, h, tenant, v, now);
    if SubmitTx(cat, tenant, v, now).1.Ok? {
      SubmittedKeeps(cat, SubmitTx(cat, tenant, v, now).0, v, now, h);
    }
  }

  lemma PipelineKeeps(cat: Catalog, h: Digests, cmd: ReviewCommand, ids: Ids, now: Time)
    requires Inv(cat, h)
    ensures Inv(Pipeline(cat, h, cmd, ids, now, now).0, h)
  {
    hide Inv, ReviewIn, PublishIn, SubmitTx;
    if ReviewIn(cat, h, cmd, ids).Ok? {
      ReviewKeeps(cat, h, cmd, ids);
      var (working, r) := ReviewIn(cat, h, cmd, ids).value;
      SubmitKeeps(working, h, cmd.tenant, r.versionId, now);
      var draft := r.versionId in working.versions && working.versions[r.versionId].status.Draft?;
      var submitted := if draft then SubmitTx(working, cmd.tenant, r.versionId, now).0 else working;
      if PublishIn(submitted, h, CommandFor(cmd.tenant, r), now).Ok? {
        PublishKeeps(submitted, h, CommandFor(cmd.tenant, r), now);
      }
    }
  }

  lemma DirectKeeps(cat: Catalog, h: Digests, cmd: ReviewCommand, ids: Ids, now: Time)
    requires Inv(cat, h)
    ensures Inv(DirectTx(cat, h, cmd, ids, now).0, h)
  {
    hide Inv, DirectTx, Pipeline, ReviewIn, PublishIn, SubmitIfDraft;
    DirectIsPipeline(cat, h, cmd, ids, now);
    PipelineKeeps(cat, h, cmd, ids, now);
    DirectAfterReview(cat, h, cmd, ids, now);
  }

  lemma ImportKeeps(cat: Catalog, h: Digests, o: Operation)
    requires Inv(cat, h) && o.id !in cat.operations && !o.review.Accepted?
    ensures Inv(cat.(operations := cat.operations[o.id := o]), h)
  {
    hide *;
    InvParts(cat, h);
    var after := cat.(operations := cat.operations[o.id := o]);
    ImportRows(cat, after, h, o);
    OtherwiseSame(cat, after);
    InvWhole(after, h);
  }

  lemma ImportRows(cat: Catalog, after: Catalog, h: Digests, o: Operation)
    requires RowsLinked(cat, h) && o.id !in cat.operations && !o.review.Accepted?
    requires after == cat.(operations := cat.operations[o.id := o])
    ensures RowsLinked(after, h)
  {
    forall v <- after.versions ensures VersionRow(after, h, v) { assert VersionRow(cat, h, v); }
    forall b <- after.bindings ensures BindingRow(after, h, b) { assert BindingRow(cat, h, b); }
    forall p <- after.operations ensures OperationRow(after, p) { if p != o.id { assert OperationRow(cat, p); } }
  }

  lemma UpstreamRows(cat: Catalog, after: Catalog, h: Digests)
    requires RowsLinked(cat, h) && after == cat.(upstreams := after.upstreams)
    ensures RowsLinked(after, h)
  {
    forall v <- after.versions ensures VersionRow(after, h, v) { assert VersionRow(cat, h, v); }
    forall b <- after.bindings ensures BindingRow(after, h, b) { assert BindingRow(cat, h, b); }
    forall p <- after.operations ensures OperationRow(after, p) { assert OperationRow(cat, p); }
  }

  lemma OtherwiseSame(cat: Catalog, after: Catalog)
    requires after.tools == cat.tools && after.versions == cat.versions && after.bindings == cat.bindings
    requires NamesUnique(cat) && NumbersUnique(cat) && BindingsUnique(cat) && EveryVersionBound(cat)
    requires StatusesTogether(cat) && OnePublished(cat) && ActiveExactlyPublished(cat) && RetiredBelow(cat)
    ensures NamesUnique(after) && NumbersUnique(after) && BindingsUnique(after) && EveryVersionBound(after)
    ensures StatusesTogether(after) && OnePublished(after) && ActiveExactlyPublished(after) && RetiredBelow(after)
  {
    forall v <- after.versions ensures Bound(after, v) {
      assert Bound(cat, v);
    }
    forall t, w ensures PublishedFor(after, t, w) <==> PublishedFor(cat, t, w) {}
    SamePublished(cat, after);
  }

  lemma UpstreamKeeps(cat: Catalog, h: Digests, upstreams: map<string, Upstream>)
    requires Inv(cat, h)
    ensures Inv(cat.(upstreams := upstreams), h)
  {
    hide *;
    InvParts(cat, h);
    var after := cat.(upstreams := upstreams);
    UpstreamRows(cat, after, h);
    OtherwiseSame(cat, after);
    InvWhole(after, h);
  }

  lemma ApplyKeeps(cat: Catalog, h: Digests, step: Step)
    requires Inv(cat, h)
    ensures Inv(Apply(cat, h, step), h)
  {
    hide Inv, DirectTx, SubmitTx, ReviewIn, PublishIn;
    match step
    case ReviewStep(cmd, ids) => if ReviewIn(cat, h, cmd, ids).Ok? { ReviewKeeps(cat, h, cmd, ids); }
    case SubmitStep(tenant, v, now) => SubmitKeeps(cat, h, tenant, v, now);
    case PublishStep(cmd, now) => if PublishIn(cat, h, cmd, now).Ok? { PublishKeeps(cat, h, cmd, now); }
    case DirectStep(cmd, ids, now) => DirectKeeps(cat, h, cmd, ids, now);
    case ImportStep(o) => if o.id !in cat.operations && !o.review.Accepted? { ImportKeeps(cat, h, o); }
    case UpstreamStep(u) => UpstreamKeeps(cat, h, cat.upstreams[u.id := u]);
  }

  /**
   In every reachable catalog version and binding statuses move together, each
   version has one binding, a tool is active exactly if it has a published
   version, it has at most one, and its retired versions all lie below it.
   */
  lemma {:induction false} EveryRunKeeps(cat: Catalog, h: Digests, steps: seq<Step>)
    requires Inv(cat, h)
    ensures Inv(Run(cat, h, steps), h)
    decreases |steps|
  {
    hide Inv, Apply;
    if steps != [] {
      ApplyKeeps(cat, h, steps[0]);
      EveryRunKeeps(Apply(cat, h, steps[0]), h, steps[1..]);
    }
  }

  lemma EmptyCatalog(h: Digests)
    ensures Inv(EMPTY, h)
  {
  }
}
