/**
 Clock readings do not matter: review, submission and publication at their own
 times publish what one direct publication does, up to the recorded times.
 */
module CatalogTimes {
  import opened Common
  import opened Text
  import opened CatalogStore
  import opened CatalogInvariant
  import opened CatalogSteps
  import opened CatalogPublication
  import opened CatalogTheorems

  ghost predicate AlikeVersion(x: Version, y: Version) {
    y == x.(createdAt := y.createdAt, reviewedAt := y.reviewedAt, publishedAt := y.publishedAt,
            retiredAt := y.retiredAt)
  }

  ghost predicate AlikeBinding(x: Binding, y: Binding) {
    y == x.(createdAt := y.createdAt, publishedAt := y.publishedAt)
  }

  /** Equal up to recorded times. */
  ghost predicate Alike(c: Catalog, d: Catalog) {
    && d.tools == c.tools && d.upstreams == c.upstreams && d.operations == c.operations
    && d.versions.Keys == c.versions.Keys && (forall v <- c.versions :: AlikeVersion(c.versions[v], d.versions[v]))
    && d.bindings.Keys == c.bindings.Keys && (forall b <- c.bindings :: AlikeBinding(c.bindings[b], d.bindings[b]))
  }

  lemma SelfAlike(c: Catalog)
    ensures Alike(c, c)
  {
  }

  // ------------------------------------------------------------------ review

  ghost predicate SameReview(a: Result<(Catalog, Reviewed), Error>, b: Result<(Catalog, Reviewed), Error>) {
    && (a.Ok? <==> b.Ok?) && (a.Err? ==> a == b)
    && (a.Ok? ==> a.value.1 == b.value.1 && Alike(a.value.0, b.value.0))
  }

  lemma ClashesAlike(cat: Catalog, v: Version, w: Version, b: Binding, c: Binding)
    requires AlikeVersion(v, w) && AlikeBinding(b, c)
    ensures VersionClash(cat, v) <==> VersionClash(cat, w)
    ensures BindingClash(cat, b) <==> BindingClash(cat, c)
    ensures (v.Named() <==> w.Named()) && (b.Named() <==> c.Named())
  {
  }

  lemma AddedAlike(cat: Catalog, v: Version, w: Version, b: Binding, c: Binding, o: Operation)
    requires AlikeVersion(v, w) && AlikeBinding(b, c)
    ensures Alike(cat.(versions := cat.versions[v.id := v], bindings := cat.bindings[b.id := b],
                       operations := cat.operations[o.id := o]),
                  cat.(versions := cat.versions[w.id := w], bindings := cat.bindings[c.id := c],
                       operations := cat.operations[o.id := o]))
  {
  }

  /** The same ids, issued at other times. */
  ghost predicate SameIds(ids: Ids, other: Ids) {
    other == ids.(versionAt := other.versionAt, bindingAt := other.bindingAt)
  }

  lemma BuiltAlike(h: Digests, cmd: ReviewCommand, o: Operation, content: Content, tool: Tool, number: int, id: string,
                   b: string, s: Time, t: Time)
    ensures AlikeVersion(BuildVersion(h, cmd, o, content, tool, number, id, s),
                         BuildVersion(h, cmd, o, content, tool, number, id, t))
    ensures AlikeBinding(BuildBinding(h, o, content, id, b, s), BuildBinding(h, o, content, id, b, t))
    ensures BuildVersion(h, cmd, o, content, tool, number, id, s).id == id
    ensures BuildBinding(h, o, content, id, b, s).id == b
  {
  }

  lemma DraftAlike(cat: Catalog, h: Digests, cmd: ReviewCommand, o: Operation, content: Content, tool: Tool, ids: Ids,
                   other: Ids)
    requires SameIds(ids, other)
    ensures SameReview(AddDraft(cat, h, cmd, o, content, tool, ids), AddDraft(cat, h, cmd, o, content, tool, other))
  {
    hide NextNumber, BuildVersion, BuildBinding, VersionClash, BindingClash, Alike, TextOr, Blank, NoneBlank;
    var number := NextNumber(cat, cmd.tenant, tool.id);
    var v := BuildVersion(h, cmd, o, content, tool, number, ids.version, ids.versionAt);
    var w := BuildVersion(h, cmd, o, content, tool, number, ids.version, other.versionAt);
    var b := BuildBinding(h, o, content, ids.version, ids.binding, ids.bindingAt);
    var c := BuildBinding(h, o, content, ids.version, ids.binding, other.bindingAt);
    BuiltAlike(h, cmd, o, content, tool, number, ids.version, ids.binding, ids.versionAt, other.versionAt);
    BuiltAlike(h, cmd, o, content, tool, number, ids.version, ids.binding, ids.bindingAt, other.bindingAt);
    BuiltAlike(h, cmd, o, content, tool, number, ids.version, ids.binding, other.versionAt, other.bindingAt);
    BuiltAlike(h, cmd, o, content, tool, number, ids.version, ids.binding, other.bindingAt, other.versionAt);
    ClashesAlike(cat, v, w, b, c);
    ClashesAlike(cat.(versions := cat.versions[v.id := v]), v, v, b, c);
    SameClash(cat.(versions := cat.versions[v.id := v]), cat.(versions := cat.versions[w.id := w]), c);
    var accepted := AcceptOperation(o, ids.version, ids.binding, cmd.notes);
    if accepted.Ok? {
      AddedAlike(cat, v, w, b, c, accepted.value);
    }
  }

  lemma SameClash(c: Catalog, d: Catalog, b: Binding)
    requires c.bindings == d.bindings
    ensures BindingClash(c, b) <==> BindingClash(d, b)
  {
  }

  lemma ReviewAlike(cat: Catalog, h: Digests, cmd: ReviewCommand, ids: Ids, other: Ids)
    requires SameIds(ids, other)
    ensures SameReview(ReviewIn(cat, h, cmd, ids), ReviewIn(cat, h, cmd, other))
  {
    hide Alike, AddDraft, ToolFor, ExistingResult;
    SelfAlike(cat);
    var operation := GetOperation(cat, cmd.tenant, cmd.operationId);
    if operation.Some? && operation.value.toolName.Some? && operation.value.content.Some? {
      var o := operation.value;
      var upstream := GetUpstream(cat, cmd.tenant, o.upstreamId);
      if upstream.Some? {
        var tool := ToolFor(cat, cmd, o.toolName.value, upstream.value.namespace, ids.tool);
        if tool.Ok? {
          DraftAlike(tool.value.0, h, cmd, o, o.content.value, tool.value.1, ids, other);
        }
      }
    }
  }

  // ------------------------------------------------------------------ submit

  lemma SubmitAlike(c: Catalog, d: Catalog, h: Digests, tenant: string, v: string, s: Time, t: Time)
    requires Inv(c, h) && Inv(d, h) && Alike(c, d)
    ensures var a, b := SubmitTx(c, tenant, v, s), SubmitTx(d, tenant, v, t);
            (a.1.Ok? <==> b.1.Ok?) && (a.1.Ok? ==> Alike(a.0, b.0) && Inv(a.0, h) && Inv(b.0, h))
  {
    hide Inv, SubmitTx, Submitted, AlikeBinding;
    SubmitSucceedsExactly(c, h, tenant, v, s);
    SubmitSucceedsExactly(d, h, tenant, v, t);
    var a, b := SubmitTx(c, tenant, v, s), SubmitTx(d, tenant, v, t);
    if a.1.Ok? {
      SubmittedKeeps(c, a.0, v, s, h);
      SubmittedKeeps(d, b.0, v, t, h);
      SubmittedAlike(c, d, a.0, b.0, v, s, t);
    }
  }

  lemma SubmittedAlike(c: Catalog, d: Catalog, c': Catalog, d': Catalog, v: string, s: Time, t: Time)
    requires Alike(c, d) && Submitted(c, c', v, s) && Submitted(d, d', v, t)
    ensures Alike(c', d')
  {
    hide AlikeBinding;
  }

  // ----------------------------------------------------------------- publish

  lemma PublishedAlike(c: Catalog, d: Catalog, t: string, v: string)
    requires Alike(c, d)
    ensures PublishedFor(c, t, v) <==> PublishedFor(d, t, v)
    ensures v in c.versions ==>
              v in d.versions && c.versions[v].number == d.versions[v].number &&
                AlikeVersion(c.versions[v], d.versions[v])
  {
  }

  lemma PublishableAlike(c: Catalog, d: Catalog, cmd: PublishCommand)
    requires Alike(c, d) && Publishable(c, cmd)
    ensures Publishable(d, cmd)
  {
    forall w | PublishedFor(d, cmd.toolId, w) ensures d.versions[w].number < d.versions[cmd.versionId].number {
      PublishedAlike(c, d, cmd.toolId, w);
    }
    forall b | b in d.bindings && d.bindings[b].versionId == cmd.versionId ensures BindingReady(d, cmd, d.bindings[b]) {
      assert AlikeBinding(c.bindings[b], d.bindings[b]) && BindingReady(c, cmd, c.bindings[b]);
    }
  }

  lemma AlikeBack(c: Catalog, d: Catalog)
    requires Alike(c, d)
    ensures Alike(d, c)
  {
    forall v <- c.versions ensures AlikeVersion(d.versions[v], c.versions[v]) {
      assert AlikeVersion(c.versions[v], d.versions[v]);
    }
    forall b <- c.bindings ensures AlikeBinding(d.bindings[b], c.bindings[b]) {
      assert AlikeBinding(c.bindings[b], d.bindings[b]);
    }
  }

  /** The rows two alike publications change are the same. */
  lemma SameRows(c: Catalog, d: Catalog, c': Catalog, d': Catalog, t: string, v: string,
                 b: string, b': string, former: Option<string>, former': Option<string>, k: string, k': string,
                 s: Time, s': Time)
    requires Alike(c, d) && OnePublished(c) && BindingsUnique(c)
    requires Switched(c, c', t, v, b, former, k, s) && Switched(d, d', t, v, b', former', k', s')
    ensures b == b' && former == former' && (former.Some? ==> k == k')
  {
    assert AlikeBinding(c.bindings[b'], d.bindings[b']);
    if former'.Some? {
      PublishedAlike(c, d, t, former'.value);
      assert AlikeBinding(c.bindings[k'], d.bindings[k']);
    }
    if former.Some? { PublishedAlike(c, d, t, former.value); }
  }

  lemma SwitchedVersionsAlike(c: Catalog, d: Catalog, c': Catalog, d': Catalog, t: string, v: string,
                              b: string, former: Option<string>, k: string, k': string, s: Time, s': Time)
    requires Alike(c, d) && Switched(c, c', t, v, b, former, k, s) && Switched(d, d', t, v, b, former, k', s')
    ensures d'.versions.Keys == c'.versions.Keys
    ensures forall x <- c'.versions :: AlikeVersion(c'.versions[x], d'.versions[x])
  {
    hide HasPublished, AlikeBinding;
    forall x <- c'.versions ensures x in d'.versions && AlikeVersion(c'.versions[x], d'.versions[x]) {
      assert AlikeVersion(c.versions[x], d.versions[x]);
    }
  }

  lemma SwitchedBindingsAlike(c: Catalog, d: Catalog, c': Catalog, d': Catalog, t: string, v: string,
                              b: string, former: Option<string>, k: string, k': string, s: Time, s': Time)
    requires Alike(c, d) && (former.Some? ==> k == k')
    requires Switched(c, c', t, v, b, former, k, s) && Switched(d, d', t, v, b, former, k', s')
    ensures d'.bindings.Keys == c'.bindings.Keys
    ensures forall x <- c'.bindings :: AlikeBinding(c'.bindings[x], d'.bindings[x])
    ensures d'.tools == c'.tools && d'.upstreams == c'.upstreams && d'.operations == c'.operations
  {
    hide HasPublished, AlikeVersion;
    forall x <- c'.bindings ensures x in d'.bindings && AlikeBinding(c'.bindings[x], d'.bindings[x]) {
      assert AlikeBinding(c.bindings[x], d.bindings[x]);
    }
  }

  lemma SwitchedAlike(c: Catalog, d: Catalog, c': Catalog, d': Catalog, t: string, v: string,
                      b: string, former: Option<string>, k: string, k': string, s: Time, s': Time)
    requires Alike(c, d) && (former.Some? ==> k == k')
    requires Switched(c, c', t, v, b, former, k, s) && Switched(d, d', t, v, b, former, k', s')
    ensures Alike(c', d')
  {
    hide Switched, AlikeVersion, AlikeBinding;
    SwitchedVersionsAlike(c, d, c', d', t, v, b, former, k, k', s, s');
    SwitchedBindingsAlike(c, d, c', d', t, v, b, former, k, k', s, s');
  }

  lemma PublishAlike(c: Catalog, d: Catalog, h: Digests, cmd: PublishCommand, s: Time, t: Time)
    requires Inv(c, h) && Inv(d, h) && Alike(c, d)
    ensures var a, b := PublishIn(c, h, cmd, s), PublishIn(d, h, cmd, t);
            (a.Ok? <==> b.Ok?) &&
            (a.Ok? ==> Alike(a.value.0, b.value.0) && a.value.1.retiredVersionId == b.value.1.retiredVersionId)
  {
    hide *;
    InvParts(c, h);
    AlikeBack(c, d);
    PublishSucceedsExactly(c, h, cmd, s);
    PublishSucceedsExactly(d, h, cmd, t);
    var a, b := PublishIn(c, h, cmd, s), PublishIn(d, h, cmd, t);
    if a.Ok? { PublishableAlike(c, d, cmd); }
    if b.Ok? { PublishableAlike(d, c, cmd); }
    if a.Ok? {
      var (c', p) := a.value;
      var (d', q) := b.value;
      var k, k' := BindingIdOf(c, p.retiredVersionId), BindingIdOf(d, q.retiredVersionId);
      SameRows(c, d, c', d', cmd.toolId, cmd.versionId, p.bindingId, q.bindingId, p.retiredVersionId,
               q.retiredVersionId, k, k', s, t);
      SwitchedAlike(c, d, c', d', cmd.toolId, cmd.versionId, p.bindingId, p.retiredVersionId, k, k', s, t);
    }
  }

  // ---------------------------------------------------------------- pipeline

  /** The pipeline's outcome does not depend on when its transactions run. */
  lemma PipelineAlike(cat: Catalog, h: Digests, cmd: ReviewCommand, ids: Ids, other: Ids, s: Time, p: Time, now: Time)
    requires Inv(cat, h) && SameIds(ids, other)
    ensures var a, b := Pipeline(cat, h, cmd, other, s, p), Pipeline(cat, h, cmd, ids, now, now);
            (a.1.Ok? <==> b.1.Ok?) &&
            (a.1.Ok? ==>
               && Alike(b.0, a.0) && a.1.value.0 == b.1.value.0
               && a.1.value.1.retiredVersionId == b.1.value.1.retiredVersionId)
  {
    hide Inv, ReviewIn, SubmitTx, PublishIn, Alike;
    ReviewAlike(cat, h, cmd, ids, other);
    if ReviewIn(cat, h, cmd, other).Ok? {
      ReviewKeeps(cat, h, cmd, other);
      ReviewKeeps(cat, h, cmd, ids);
      TailAlike(ReviewIn(cat, h, cmd, ids).value.0, ReviewIn(cat, h, cmd, other).value.0, h, cmd.tenant,
                ReviewIn(cat, h, cmd, other).value.1, s, p, now);
    }
  }

  lemma TailAlike(c: Catalog, d: Catalog, h: Digests, tenant: string, reviewed: Reviewed, s: Time, p: Time, now: Time)
    requires Inv(c, h) && Inv(d, h) && Alike(c, d)
    ensures var a, b :=
              SubmitAndPublish(c, h, tenant, reviewed, now, now), SubmitAndPublish(d, h, tenant, reviewed, s, p);
            (a.1.Ok? <==> b.1.Ok?) &&
              (a.1.Ok? ==> Alike(a.0, b.0) && a.1.value.retiredVersionId == b.1.value.retiredVersionId)
  {
    hide Inv, SubmitTx, PublishIn, Alike;
    DraftsAlike(c, d, reviewed.versionId);
    if IsDraft(c, reviewed.versionId) {
      SubmitAlike(c, d, h, tenant, reviewed.versionId, now, s);
      if SubmitTx(c, tenant, reviewed.versionId, now).1.Ok? {
        PublishAlike(SubmitTx(c, tenant, reviewed.versionId, now).0, SubmitTx(d, tenant, reviewed.versionId, s).0, h,
                     CommandFor(tenant, reviewed), now, p);
      }
    } else {
      PublishAlike(c, d, h, CommandFor(tenant, reviewed), now, p);
    }
  }

  lemma DraftsAlike(c: Catalog, d: Catalog, v: string)
    requires Alike(c, d)
    ensures IsDraft(c, v) <==> IsDraft(d, v)
  {
  }

  /**
   Direct publication refines review, submission and publication at whatever
   times: it publishes exactly if the three transactions in a row all succeed, and
   then commits the same catalog up to recorded times and reports the same rows;
   when it fails nothing at all has changed.
   */
  lemma DirectIsPipelineAtAnyTimes(cat: Catalog, h: Digests, cmd: ReviewCommand, ids: Ids, other: Ids, now: Time,
                                   s: Time, p: Time)
    requires Inv(cat, h) && SameIds(ids, other)
    ensures var (after, direct) := DirectTx(cat, h, cmd, ids, now);
            var (piped, steps) := Pipeline(cat, h, cmd, other, s, p);
            && (direct.Ok? && !direct.value.already <==> steps.Ok?)
            && (steps.Ok? ==>
                  && Alike(after, piped)
                  && direct.value == DirectResult(steps.value.0, steps.value.1.retiredVersionId, now, false))
            && (direct.Err? ==> after == cat)
  {
    hide *;
    DirectIsPipeline(cat, h, cmd, ids, now);
    PipelineAlike(cat, h, cmd, ids, other, s, p, now);
  }
}
