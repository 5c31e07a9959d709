/**
 What never changes once it has happened: version numbers only grow, accepted
 operations stay, and a repeated direct publication is harmless.
 */
module CatalogHistory {
  import opened Common
  import opened CatalogStore
  import opened CatalogInvariant
  import opened CatalogSteps
  import opened CatalogPublication
  import opened CatalogTheorems

  function Stage(status: VersionStatus): nat {
    match status
    case Draft => 0
    case Review => 1
    case Published => 2
    case Retired => 3
  }

  /** A version only moves on, and keeps its contract and its publication time. */
  ghost predicate VersionLater(x: Version, y: Version) {
    && y == x.(status := y.status, reviewedAt := y.reviewedAt, publishedAt := y.publishedAt, retiredAt := y.retiredAt)
    && Stage(x.status) <= Stage(y.status) && (Stage(x.status) >= 2 ==> y.publishedAt == x.publishedAt)
  }

  ghost predicate VersionsLater(before: Catalog, after: Catalog) {
    forall v <- before.versions :: v in after.versions && VersionLater(before.versions[v], after.versions[v])
  }

  ghost predicate ToolsLater(before: Catalog, after: Catalog) {
    forall t <- before.tools ::
      t in after.tools && after.tools[t] == before.tools[t].(active := after.tools[t].active) &&
      (before.tools[t].active ==> after.tools[t].active)
  }

  ghost predicate BindingsLater(before: Catalog, after: Catalog) {
    forall b <- before.bindings :: b in after.bindings &&
      after.bindings[b] ==
        before.bindings[b].(status := after.bindings[b].status, publishedAt := after.bindings[b].publishedAt)
  }

  ghost predicate OperationsLater(before: Catalog, after: Catalog) {
    forall o <- before.operations :: o in after.operations &&
      (before.operations[o].review.Accepted? ==> after.operations[o] == before.operations[o])
  }

  /** The published version of a tool is replaced only by one with a greater number. */
  ghost predicate NumbersGrow(before: Catalog, after: Catalog) {
    forall t, v, w :: PublishedFor(before, t, v) && PublishedFor(after, t, w) ==>
      v == w || before.versions[v].number < after.versions[w].number
  }

  ghost predicate Later(before: Catalog, after: Catalog) {
    VersionsLater(before, after) && ToolsLater(before, after) && BindingsLater(before, after) &&
    OperationsLater(before, after) && NumbersGrow(before, after)
  }

  lemma SubmittedIsLater(before: Catalog, after: Catalog, v: string, now: Time)
    requires OnePublished(before) && Submitted(before, after, v, now)
    ensures Later(before, after)
  {
    forall t, w | PublishedFor(after, t, w) ensures PublishedFor(before, t, w) {}
  }

  lemma DraftIsLater(before: Catalog, after: Catalog, h: Digests, tool: Tool, v: Version, b: Binding, o: Operation)
    requires OnePublished(before) && DraftAdded(before, after, h, tool, v, b, o)
    requires !before.operations[o.id].review.Accepted?
    ensures Later(before, after)
  {
    forall t, w | PublishedFor(after, t, w) ensures PublishedFor(before, t, w) {}
  }

  lemma SwitchedIsLater(before: Catalog, after: Catalog, t: string, v: string, b: string, former: Option<string>,
                        c: string, now: Time)
    requires OnePublished(before) && Switched(before, after, t, v, b, former, c, now)
    ensures Later(before, after)
  {
    hide NumbersGrow, HasPublished;
    SwitchedNumbersGrow(before, after, t, v, b, former, c, now);
  }

  lemma SwitchedNumbersGrow(before: Catalog, after: Catalog, t: string, v: string, b: string, former: Option<string>,
                            c: string, now: Time)
    requires OnePublished(before) && Switched(before, after, t, v, b, former, c, now)
    ensures NumbersGrow(before, after)
  {
    SwitchedPublished(before, after, t, v, b, former, c, now);
    forall s, x, w | PublishedFor(before, s, x) && PublishedFor(after, s, w)
      ensures x == w || before.versions[x].number < after.versions[w].number
    {
      if s == t {
        assert former == Some(x);
      }
    }
  }

  lemma NowIsLater(cat: Catalog)
    requires OnePublished(cat)
    ensures Later(cat, cat)
  {
  }

  lemma LaterTransitive(a: Catalog, b: Catalog, c: Catalog, h: Digests)
    requires Inv(a, h) && Inv(b, h) && Later(a, b) && Later(b, c)
    ensures Later(a, c)
  {
    hide *;
    InvParts(a, h);
    InvParts(b, h);
    RowsLaterTransitive(a, b, c);
    NumbersGrowTransitive(a, b, c, h);
    LaterParts(a, b);
    LaterParts(b, c);
    LaterWhole(a, c);
  }

  lemma LaterParts(a: Catalog, b: Catalog)
    requires Later(a, b)
    ensures VersionsLater(a, b) && ToolsLater(a, b) && BindingsLater(a, b) && OperationsLater(a, b) && NumbersGrow(a, b)
  {
  }

  lemma LaterWhole(a: Catalog, b: Catalog)
    requires VersionsLater(a, b) && ToolsLater(a, b) && BindingsLater(a, b) && OperationsLater(a, b)
    requires NumbersGrow(a, b)
    ensures Later(a, b)
  {
  }

  lemma RowsLaterTransitive(a: Catalog, b: Catalog, c: Catalog)
    requires Later(a, b) && Later(b, c)
    ensures VersionsLater(a, c) && ToolsLater(a, c) && BindingsLater(a, c) && OperationsLater(a, c)
  {
    hide NumbersGrow;
  }

  /** A tool with a published version still has one later. */
  lemma StaysPublished(a: Catalog, b: Catalog, h: Digests, t: string, v: string)
    requires RowsLinked(a, h) && ActiveExactlyPublished(a) && ActiveExactlyPublished(b) && ToolsLater(a, b)
    requires PublishedFor(a, t, v)
    ensures HasPublished(b, t)
  {
    assert VersionRow(a, h, v);
    assert HasPublished(a, t);
  }

  lemma NumbersGrowTransitive(a: Catalog, b: Catalog, c: Catalog, h: Digests)
    requires RowsLinked(a, h) && ActiveExactlyPublished(a) && ActiveExactlyPublished(b) && Later(a, b) && Later(b, c)
    ensures NumbersGrow(a, c)
  {
    hide RowsLinked, ActiveExactlyPublished, VersionsLater, BindingsLater, OperationsLater, ToolsLater;
    forall t, v, w | PublishedFor(a, t, v) && PublishedFor(c, t, w)
      ensures v == w || a.versions[v].number < c.versions[w].number
    {
      StaysPublished(a, b, h, t, v);
      var m :| PublishedFor(b, t, m);
      assert m == v ==> b.versions[m].number == a.versions[v].number by { SameNumber(a, b, v); }
      assert m == w ==> c.versions[m].number == b.versions[m].number by { SameNumber(b, c, m); }
    }
  }

  lemma SameNumber(a: Catalog, b: Catalog, v: string)
    requires Later(a, b)
    ensures v in a.versions ==> v in b.versions && b.versions[v].number == a.versions[v].number
  {
  }

  // ------------------------------------------------------------------- steps

  lemma ReviewIsLater(cat: Catalog, h: Digests, cmd: ReviewCommand, ids: Ids)
    requires Inv(cat, h) && ReviewIn(cat, h, cmd, ids).Ok?
    ensures Later(cat, ReviewIn(cat, h, cmd, ids).value.0)
  {
    hide Inv, ReviewIn, DraftAdded, Later, OnePublished, ReviewedRows;
    InvParts(cat, h);
    ReviewShape(cat, h, cmd, ids);
    var (after, r) := ReviewIn(cat, h, cmd, ids).value;
    if cat.operations[cmd.operationId].review.Accepted? {
      NowIsLater(cat);
    } else {
      DraftOf(cat, after, h, cmd, ids, r);
      KeyedOperation(cat, h, cmd.operationId);
      DraftNames(cat, after, h, r);
      DraftIsLater(cat, after, h, after.tools[r.toolId], after.versions[r.versionId], after.bindings[r.bindingId],
                   after.operations[r.operationId]);
    }
  }

  lemma KeyedOperation(cat: Catalog, h: Digests, o: string)
    requires Inv(cat, h) && o in cat.operations
    ensures cat.operations[o].id == o
  {
    assert OperationRow(cat, o);
  }

  lemma DraftNames(before: Catalog, after: Catalog, h: Digests, r: Reviewed)
    requires r.toolId in after.tools && r.versionId in after.versions && r.bindingId in after.bindings
    requires r.operationId in after.operations
    requires DraftAdded(before, after, h, after.tools[r.toolId], after.versions[r.versionId],
                        after.bindings[r.bindingId], after.operations[r.operationId])
    requires forall o <- before.operations :: before.operations[o].id == o
    ensures after.operations[r.operationId].id in before.operations
    ensures after.operations[r.operationId].id == r.operationId
  {
    var o := after.operations[r.operationId];
    assert after.operations == before.operations[o.id := o];
  }

  lemma SubmitIsLater(cat: Catalog, h: Digests, tenant: string, v: string, now: Time)
    requires Inv(cat, h)
    ensures Later(cat, SubmitTx(cat, tenant, v, now).0)
  {
    hide *;
    InvParts(cat, h);
    SubmitSucceedsExactly(cat, h, tenant, v, now);
    NowIsLater(cat);
    if SubmitTx(cat, tenant, v, now).1.Ok? {
      SubmittedIsLater(cat, SubmitTx(cat, tenant, v, now).0, v, now);
    }
  }

  lemma PublishIsLater(cat: Catalog, h: Digests, cmd: PublishCommand, now: Time)
    requires Inv(cat, h) && PublishIn(cat, h, cmd, now).Ok?
    ensures Later(cat, PublishIn(cat, h, cmd, now).value.0)
  {
    hide *;
    InvParts(cat, h);
    PublishSucceedsExactly(cat, h, cmd, now);
    var (after, p) := PublishIn(cat, h, cmd, now).value;
    SwitchedIsLater(cat, after, cmd.toolId, cmd.versionId, p.bindingId, p.retiredVersionId,
                    BindingIdOf(cat, p.retiredVersionId), now);
  }

  lemma PipelineIsLater(cat: Catalog, h: Digests, cmd: ReviewCommand, ids: Ids, now: Time)
    requires Inv(cat, h)
    ensures Later(cat, Pipeline(cat, h, cmd, ids, now, now).0)
  {
    hide Inv, ReviewIn, PublishIn, SubmitTx, Later, OnePublished;
    InvParts(cat, h);
    NowIsLater(cat);
    if ReviewIn(cat, h, cmd, ids).Ok? {
      ReviewIsLater(cat, h, cmd, ids);
      ReviewKeeps(cat, h, cmd, ids);
      var (working, r) := ReviewIn(cat, h, cmd, ids).value;
      var draft := r.versionId in working.versions && working.versions[r.versionId].status.Draft?;
      var submitted := if draft then SubmitTx(working, cmd.tenant, r.versionId, now).0 else working;
      InvParts(working, h);
      NowIsLater(working);
      SubmitIsLater(working, h, cmd.tenant, r.versionId, now);
      SubmitKeeps(working, h, cmd.tenant, r.versionId, now);
      LaterTransitive(cat, working, submitted, h);
      if PublishIn(submitted, h, CommandFor(cmd.tenant, r), now).Ok? {
        PublishIsLater(submitted, h, CommandFor(cmd.tenant, r), now);
        LaterTransitive(cat, submitted, PublishIn(submitted, h, CommandFor(cmd.tenant, r), now).value.0, h);
      }
    }
  }

  lemma DirectIsLater(cat: Catalog, h: Digests, cmd: ReviewCommand, ids: Ids, now: Time)
    requires Inv(cat, h)
    ensures Later(cat, DirectTx(cat, h, cmd, ids, now).0)
  {
    hide Inv, DirectTx, Pipeline, ReviewIn, PublishIn, SubmitIfDraft, Later, OnePublished;
    InvParts(cat, h);
    NowIsLater(cat);
    DirectIsPipeline(cat, h, cmd, ids, now);
    PipelineIsLater(cat, h, cmd, ids, now);
    DirectAfterReview(cat, h, cmd, ids, now);
  }

  lemma HasOnePublished(cat: Catalog, h: Digests)
    requires Inv(cat, h)
    ensures OnePublished(cat)
  {
  }

  lemma ApplyIsLater(cat: Catalog, h: Digests, step: Step)
    requires Inv(cat, h)
    ensures Later(cat, Apply(cat, h, step))
  {
    hide Inv, DirectTx, SubmitTx, ReviewIn, PublishIn, Later, OnePublished;
    HasOnePublished(cat, h);
    NowIsLater(cat);
    match step
    case ReviewStep(cmd, ids) => if ReviewIn(cat, h, cmd, ids).Ok? { ReviewIsLater(cat, h, cmd, ids); }
    case SubmitStep(tenant, v, now) => SubmitIsLater(cat, h, tenant, v, now);
    case PublishStep(cmd, now) => if PublishIn(cat, h, cmd, now).Ok? { PublishIsLater(cat, h, cmd, now); }
    case DirectStep(cmd, ids, now) => DirectIsLater(cat, h, cmd, ids, now);
    case ImportStep(o) => ImportIsLater(cat, h, step);
    case UpstreamStep(_) => UpstreamIsLater(cat, h, step);
  }

  lemma ImportIsLater(cat: Catalog, h: Digests, step: Step)
    requires OnePublished(cat) && step.ImportStep?
    ensures Later(cat, Apply(cat, h, step))
  {
    hide Later, OnePublished;
    ElsewhereIsLater(cat, Apply(cat, h, step));
  }

  lemma UpstreamIsLater(cat: Catalog, h: Digests, step: Step)
    requires OnePublished(cat) && step.UpstreamStep?
    ensures Later(cat, Apply(cat, h, step))
  {
    hide Later, OnePublished;
    ElsewhereIsLater(cat, Apply(cat, h, step));
  }

  lemma ElsewhereIsLater(cat: Catalog, after: Catalog)
    requires OnePublished(cat) && after.tools == cat.tools && after.versions == cat.versions
    requires after.bindings == cat.bindings
    requires OperationsLater(cat, after)
    ensures Later(cat, after)
  {
    forall t, w | PublishedFor(after, t, w) ensures PublishedFor(cat, t, w) {}
  }

  lemma {:induction false} RunIsLater(cat: Catalog, h: Digests, steps: seq<Step>)
    requires Inv(cat, h)
    ensures Inv(Run(cat, h, steps), h) && Later(cat, Run(cat, h, steps))
    decreases |steps|
  {
    hide Inv, Apply, Later, OnePublished;
    InvParts(cat, h);
    NowIsLater(cat);
    if steps != [] {
      ApplyKeeps(cat, h, steps[0]);
      ApplyIsLater(cat, h, steps[0]);
      RunIsLater(Apply(cat, h, steps[0]), h, steps[1..]);
      LaterTransitive(cat, Apply(cat, h, steps[0]), Run(cat, h, steps), h);
    }
  }

  // ---------------------------------------------------------------- theorems

  /**
   Published version numbers strictly increase over a run: a tool that is
   published stays published, and its version is the same or a greater one, with
   the old one retired.
   */
  lemma PublishedNumbersIncrease(h: Digests, steps: seq<Step>, more: seq<Step>, t: string, v: string)
    requires PublishedFor(Run(EMPTY, h, steps), t, v)
    ensures var earlier, later := Run(EMPTY, h, steps), Run(Run(EMPTY, h, steps), h, more);
            && HasPublished(later, t)
            && forall w :: PublishedFor(later, t, w) ==>
                 w == v ||
                   (earlier.versions[v].number < later.versions[w].number && v in later.versions &&
                    later.versions[v].status.Retired?)
  {
    hide Inv, Run, Later, VersionsLater, ToolsLater, NumbersGrow, RowsLinked, ActiveExactlyPublished, OnePublished;
    hide HasPublished;
    EmptyCatalog(h);
    EveryRunKeeps(EMPTY, h, steps);
    var earlier := Run(EMPTY, h, steps);
    RunIsLater(earlier, h, more);
    var later := Run(earlier, h, more);
    InvParts(earlier, h);
    InvParts(later, h);
    LaterParts(earlier, later);
    StaysPublished(earlier, later, h, t, v);
    forall w | PublishedFor(later, t, w)
      ensures w == v ||
              (earlier.versions[v].number < later.versions[w].number && v in later.versions &&
               later.versions[v].status.Retired?)
    {
      Replaced(earlier, later, h, t, v, w);
    }
  }

  lemma Replaced(earlier: Catalog, later: Catalog, h: Digests, t: string, v: string, w: string)
    requires OnePublished(later) && VersionsLater(earlier, later) && NumbersGrow(earlier, later)
    requires PublishedFor(earlier, t, v) && PublishedFor(later, t, w)
    ensures v in earlier.versions && w in later.versions && v in later.versions
    ensures w == v || (earlier.versions[v].number < later.versions[w].number && later.versions[v].status.Retired?)
  {
    assert VersionLater(earlier.versions[v], later.versions[v]);
    if w != v {
      assert !PublishedFor(later, t, v);
    }
  }

  // ----------------------------------------------------- repeated publication

  /** The operation is accepted, and review would answer r. */
  ghost predicate Accepts(cat: Catalog, tenant: string, o: string, r: Reviewed) {
    && o in cat.operations && cat.operations[o].tenant == tenant && cat.operations[o].review.Accepted?
    && ExistingResult(cat, tenant, cat.operations[o]) == Ok(r)
  }

  lemma AcceptedStays(before: Catalog, after: Catalog, tenant: string, o: string, r: Reviewed)
    requires Later(before, after) && Accepts(before, tenant, o, r)
    ensures Accepts(after, tenant, o, r)
  {
    hide NumbersGrow, Stage;
  }

  /** Any successful review leaves its operation accepted, for the rows it reports. */
  lemma ReviewAccepts(cat: Catalog, h: Digests, cmd: ReviewCommand, ids: Ids)
    requires Inv(cat, h) && ReviewIn(cat, h, cmd, ids).Ok?
    ensures var (working, r) := ReviewIn(cat, h, cmd, ids).value;
            && Accepts(working, cmd.tenant, cmd.operationId, r)
            && (r.versionId in working.versions && working.versions[r.versionId].status.Published? ==> working == cat)
  {
    hide Inv, ReviewIn, DraftAdded, ReviewedRows, Accepts;
    ReviewShape(cat, h, cmd, ids);
    ReviewAnswers(cat, h, cmd, ids);
    var (working, r) := ReviewIn(cat, h, cmd, ids).value;
    if cat.operations[cmd.operationId].review.Accepted? {
      ReviewRepeats(cat, h, cmd, ids);
    } else {
      DraftOf(cat, working, h, cmd, ids, r);
      DraftAccepts(cat, working, h, cmd, r);
    }
  }

  lemma ReviewRepeats(cat: Catalog, h: Digests, cmd: ReviewCommand, ids: Ids)
    requires ReviewIn(cat, h, cmd, ids).Ok? && cmd.operationId in cat.operations
    requires cat.operations[cmd.operationId].review.Accepted?
    ensures var (working, r) := ReviewIn(cat, h, cmd, ids).value;
            working == cat && Accepts(cat, cmd.tenant, cmd.operationId, r)
  {
    hide ExistingResult;
  }

  lemma DraftAccepts(before: Catalog, after: Catalog, h: Digests, cmd: ReviewCommand, r: Reviewed)
    requires Inv(after, h) && ReviewedRows(after, cmd.tenant, r) && r.operationId == cmd.operationId
    requires r.operationId in after.operations && after.operations[r.operationId].review.Accepted?
    requires DraftAdded(before, after, h, after.tools[r.toolId], after.versions[r.versionId],
                        after.bindings[r.bindingId], after.operations[r.operationId])
    ensures Accepts(after, cmd.tenant, cmd.operationId, r) && after.versions[r.versionId].status.Draft?
  {
    hide NamesUnique, NumbersUnique, BindingsUnique, EveryVersionBound, StatusesTogether, OnePublished;
    hide ActiveExactlyPublished, RetiredBelow;
    assert VersionRow(after, h, r.versionId);
    assert BindingRow(after, h, r.bindingId);
    assert OperationRow(after, r.operationId);
  }

  /** The published version that a direct publication reports, with its publication time. */
  ghost predicate PublishedAs(cat: Catalog, d: DirectResult) {
    var v := d.reviewed.versionId;
    v in cat.versions && cat.versions[v].status.Published? && cat.versions[v].publishedAt == Some(d.publishedAt)
  }

  lemma PublishReports(cat: Catalog, h: Digests, cmd: PublishCommand, now: Time)
    requires Inv(cat, h) && PublishIn(cat, h, cmd, now).Ok?
    ensures var (after, p) := PublishIn(cat, h, cmd, now).value;
            && p.occurredAt == now && cmd.versionId in after.versions && after.versions[cmd.versionId].status.Published?
            && after.versions[cmd.versionId].publishedAt == Some(now)
  {
    hide Inv, PublishIn, Publishable, RetiredVersions, DisabledBindings, HasPublished, BindingIdOf;
    PublishSucceedsExactly(cat, h, cmd, now);
  }

  /** From the reviewed catalog to the one direct publication commits. */
  lemma AfterReviewPublishes(cat: Catalog, working: Catalog, h: Digests, cmd: ReviewCommand, r: Reviewed, now: Time)
    requires Inv(working, h) && r.versionId in working.versions && working.versions[r.versionId].tenant == cmd.tenant
    requires AfterReview(cat, working, h, cmd, r, now).1.Ok?
    requires !AfterReview(cat, working, h, cmd, r, now).1.value.already
    ensures var (after, d) := AfterReview(cat, working, h, cmd, r, now);
            Later(working, after) && d.value.reviewed == r && PublishedAs(after, d.value)
  {
    hide Inv, PublishIn, SubmitTx, Later, OnePublished;
    InvParts(working, h);
    NowIsLater(working);
    var v := working.versions[r.versionId];
    if v.status.Draft? {
      SubmitsAlike(working, h, cmd.tenant, r.versionId, now);
      SubmitIsLater(working, h, cmd.tenant, r.versionId, now);
    }
    var submitted := if v.status.Draft? then SubmitTx(working, cmd.tenant, r.versionId, now).0 else working;
    PublishIsLater(submitted, h, CommandFor(cmd.tenant, r), now);
    PublishReports(submitted, h, CommandFor(cmd.tenant, r), now);
    LaterTransitive(working, submitted, PublishIn(submitted, h, CommandFor(cmd.tenant, r), now).value.0, h);
  }

  lemma DirectReports(cat: Catalog, h: Digests, cmd: ReviewCommand, ids: Ids, now: Time)
    requires Inv(cat, h) && DirectTx(cat, h, cmd, ids, now).1.Ok?
    ensures var (after, d) := DirectTx(cat, h, cmd, ids, now);
            Accepts(after, cmd.tenant, cmd.operationId, d.value.reviewed) && PublishedAs(after, d.value)
  {
    hide Inv, DirectTx, ReviewIn, PublishIn, SubmitIfDraft, Later, Accepts, ReviewedRows;
    DirectAfterReview(cat, h, cmd, ids, now);
    ReviewAnswers(cat, h, cmd, ids);
    ReviewAccepts(cat, h, cmd, ids);
    var (working, r) := ReviewIn(cat, h, cmd, ids).value;
    VersionReviewed(working, cmd.tenant, r);
    ReviewedFound(working, h, cmd.tenant, r);
    var (after, d) := DirectTx(cat, h, cmd, ids, now);
    if !d.value.already {
      AfterReviewPublishes(cat, working, h, cmd, r, now);
      AcceptedStays(working, after, cmd.tenant, cmd.operationId, r);
    }
  }

  /** On an accepted operation whose version is published, direct publication only reports that. */
  lemma DirectOnPublished(cat: Catalog, h: Digests, cmd: ReviewCommand, ids: Ids, now: Time, r: Reviewed)
    requires Inv(cat, h) && Accepts(cat, cmd.tenant, cmd.operationId, r)
    requires r.versionId in cat.versions && cat.versions[r.versionId].status.Published?
    ensures var v := cat.versions[r.versionId];
            v.publishedAt.Some? &&
              DirectTx(cat, h, cmd, ids, now) == (cat, Ok(DirectResult(r, None, v.publishedAt.value, true)))
  {
    hide Inv, DirectTx, PublishIn, SubmitIfDraft, ReviewedRows, ExistingResult, AddDraft, ToolFor;
    DirectAfterReview(cat, h, cmd, ids, now);
    ReviewAnswers(cat, h, cmd, ids);
    ReviewedFound(cat, h, cmd.tenant, r);
  }

  /**
   Repeating a direct publication is harmless: whatever happened in between, while
   the version is still published a repeat changes nothing and reports the same
   rows and publication time, as already published.
   */
  lemma RepeatIsHarmless(h: Digests, steps: seq<Step>, cmd: ReviewCommand, ids: Ids, now: Time, more: seq<Step>,
                         again: ReviewCommand, newIds: Ids, afterwards: Time)
    requires DirectTx(Run(EMPTY, h, steps), h, cmd, ids, now).1.Ok?
    requires again.tenant == cmd.tenant && again.operationId == cmd.operationId
    requires var (after, first) := DirectTx(Run(EMPTY, h, steps), h, cmd, ids, now);
             var v, later := first.value.reviewed.versionId, Run(after, h, more);
             v in later.versions && later.versions[v].status.Published?
    ensures var (after, first) := DirectTx(Run(EMPTY, h, steps), h, cmd, ids, now);
            var later := Run(after, h, more);
            DirectTx(later, h, again, newIds, afterwards) ==
              (later, Ok(DirectResult(first.value.reviewed, None, first.value.publishedAt, true)))
  {
    hide *;
    var cat := Run(EMPTY, h, steps);
    EmptyCatalog(h);
    EveryRunKeeps(EMPTY, h, steps);
    var (after, d) := DirectTx(cat, h, cmd, ids, now);
    DirectReports(cat, h, cmd, ids, now);
    DirectKeeps(cat, h, cmd, ids, now);
    RunIsLater(after, h, more);
    var later := Run(after, h, more);
    AcceptedStays(after, later, cmd.tenant, cmd.operationId, d.value.reviewed);
    PublishedStays(after, later, d.value);
    DirectOnPublished(later, h, again, newIds, afterwards, d.value.reviewed);
  }

  lemma PublishedStays(before: Catalog, after: Catalog, d: DirectResult)
    requires Later(before, after) && PublishedAs(before, d)
    ensures d.reviewed.versionId in after.versions
    ensures after.versions[d.reviewed.versionId].publishedAt == Some(d.publishedAt)
  {
    hide NumbersGrow, ToolsLater, BindingsLater, OperationsLater;
    assert VersionLater(before.versions[d.reviewed.versionId], after.versions[d.reviewed.versionId]);
  }
}
