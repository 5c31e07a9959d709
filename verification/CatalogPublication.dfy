/**
 Exactly when publication succeeds, which of its errors can never be raised, and the
 refinement of the three steps by the direct one.
 */
module CatalogPublication {
  import opened Common
  import opened CatalogStore
  import opened CatalogInvariant

  // ------------------------------------------------------------- retirement

  /** The binding of a version, by its id. */
  ghost function BindingIdOf(cat: Catalog, v: Option<string>): string {
    if v.Some? && v.value in cat.versions && BindingOf(cat, cat.versions[v.value].tenant, v.value).Some? then
      BindingOf(cat, cat.versions[v.value].tenant, v.value).value.id
    else ""
  }

  lemma BoundVersion(cat: Catalog, h: Digests, v: string)
    requires RowsLinked(cat, h) && BindingsUnique(cat) && EveryVersionBound(cat) && v in cat.versions
    ensures var b := BindingIdOf(cat, Some(v));
            && b in cat.bindings && cat.bindings[b].id == b && cat.bindings[b].versionId == v
            && BindingOf(cat, cat.versions[v].tenant, v) == Some(cat.bindings[b])
            && cat.bindings[b].tenant == cat.versions[v].tenant
            && cat.bindings[b].digest == h.binding(cat.bindings[b].upstreamId, cat.bindings[b].config)
  {
    assert Bound(cat, v);
    var b :| b in cat.bindings && cat.bindings[b].versionId == v;
    assert BindingRow(cat, h, b);
    TheBinding(cat, h, v, b);
  }

  ghost predicate Newest(cat: Catalog, t: string, v: string)
    requires v in cat.versions
  {
    forall w :: PublishedFor(cat, t, w) ==> cat.versions[w].number < cat.versions[v].number
  }

  /**
   Under the invariant the retirement step fails in one way only: the target is not
   newer than the current version.
   */
  lemma RetireExactly(cat: Catalog, h: Digests, t: string, v: string, now: Time)
    requires Inv(cat, h) && t in cat.tools && v in cat.versions
    ensures var r := RetireCurrent(cat, cat.tools[t].tenant, cat.tools[t], cat.versions[v], now);
            && (r.Ok? <==> Newest(cat, t, v)) && (r.Err? ==> r.error == NotNewer)
            && (r.Ok? ==>
                  var (after, former) := r.value;
                  && after ==
                     cat.(versions := RetiredVersions(cat, former, now),
                          bindings := DisabledBindings(cat, former, BindingIdOf(cat, former)))
                  && match former
                     case None => !HasPublished(cat, t)
                     case Some(w) =>
                       PublishedFor(cat, t, w) && BindingIdOf(cat, former) in cat.bindings &&
                         cat.bindings[BindingIdOf(cat, former)].versionId == w)
  {
    hide *;
    InvParts(cat, h);
    KeyedTool(cat, h, t);
    ThePublished(cat, h, t);
    var current := PublishedOf(cat, cat.tools[t].tenant, t);
    if current.None? {
      NoneIsOlder(cat, t, v);
      NothingRetires(cat, t, v, now);
    } else {
      CurrentIsOnly(cat, t, current.value.id, v);
      if current.value.number < cat.versions[v].number {
        IsVersion(cat, t, current.value.id);
        BoundVersion(cat, h, current.value.id);
        CurrentRetires(cat, h, t, v, current.value, BindingIdOf(cat, Some(current.value.id)), now);
      } else {
        NotNewerRefused(cat, t, v, now);
      }
    }
  }

  lemma KeyedTool(cat: Catalog, h: Digests, t: string)
    requires RowsLinked(cat, h) && t in cat.tools
    ensures cat.tools[t].id == t
  {
  }

  lemma IsVersion(cat: Catalog, t: string, w: string)
    requires PublishedFor(cat, t, w)
    ensures w in cat.versions
  {
  }

  lemma NoneIsOlder(cat: Catalog, t: string, v: string)
    requires !HasPublished(cat, t) && v in cat.versions
    ensures Newest(cat, t, v)
  {
  }

  lemma NothingRetires(cat: Catalog, t: string, v: string, now: Time)
    requires t in cat.tools && cat.tools[t].id == t && v in cat.versions
    requires PublishedOf(cat, cat.tools[t].tenant, t).None?
    ensures RetireCurrent(cat, cat.tools[t].tenant, cat.tools[t], cat.versions[v], now) == Ok((cat, None))
    ensures RetiredVersions(cat, None, now) == cat.versions
    ensures forall c :: DisabledBindings(cat, None, c) == cat.bindings
  {
  }

  lemma NotNewerRefused(cat: Catalog, t: string, v: string, now: Time)
    requires t in cat.tools && cat.tools[t].id == t && v in cat.versions
    requires var current := PublishedOf(cat, cat.tools[t].tenant, t);
             current.Some? && current.value.number >= cat.versions[v].number
    ensures RetireCurrent(cat, cat.tools[t].tenant, cat.tools[t], cat.versions[v], now) == Err(NotNewer)
  {
  }

  lemma CurrentIsOnly(cat: Catalog, t: string, w: string, v: string)
    requires OnePublished(cat) && PublishedFor(cat, t, w) && v in cat.versions
    ensures Newest(cat, t, v) <==> cat.versions[w].number < cat.versions[v].number
  {
  }

  lemma CurrentRetires(cat: Catalog, h: Digests, t: string, v: string, current: Version, b: string, now: Time)
    requires RowsLinked(cat, h) && NumbersUnique(cat) && BindingsUnique(cat) && StatusesTogether(cat)
    requires t in cat.tools && cat.tools[t].id == t && v in cat.versions
    requires PublishedOf(cat, cat.tools[t].tenant, t) == Some(current)
    requires current.number < cat.versions[v].number && current.tenant == cat.tools[t].tenant
    requires PublishedFor(cat, t, current.id) && cat.versions[current.id] == current
    requires b in cat.bindings && cat.bindings[b].id == b && cat.bindings[b].versionId == current.id
    requires cat.bindings[b].tenant == current.tenant
    requires BindingOf(cat, current.tenant, current.id) == Some(cat.bindings[b])
    ensures RetireCurrent(cat, cat.tools[t].tenant, cat.tools[t], cat.versions[v], now) ==
            Ok((cat.(versions := RetiredVersions(cat, Some(current.id), now),
                     bindings := DisabledBindings(cat, Some(current.id), b)), Some(current.id)))
  {
    hide BindingOf, PublishedOf, VersionClash, BindingClash;
    assert VersionRow(cat, h, current.id);
    var retired := current.(status := Retired, retiredAt := Some(now));
    NoVersionClash(cat, h, retired);
    var withVersion := cat.(versions := cat.versions[current.id := retired]);
    NoBindingClash(withVersion, cat.bindings[b].(status := DisabledBinding));
  }

  /** A status change never clashes, unless it would publish a second version of the tool. */
  lemma NoVersionClash(cat: Catalog, h: Digests, v: Version)
    requires NumbersUnique(cat) && v.id in cat.versions && cat.versions[v.id].toolId == v.toolId
    requires cat.versions[v.id].number == v.number
    requires v.status.Published? ==> forall w :: PublishedFor(cat, v.toolId, w) ==> w == v.id
    ensures !VersionClash(cat, v)
  {
    forall w | w in cat.versions && w != v.id && cat.versions[w].toolId == v.toolId
      ensures cat.versions[w].number != v.number && !(cat.versions[w].status.Published? && v.status.Published?)
    {
      assert PublishedFor(cat, v.toolId, w) <==> cat.versions[w].status.Published?;
    }
  }

  lemma NoBindingClash(cat: Catalog, b: Binding)
    requires BindingsUnique(cat) && b.id in cat.bindings && cat.bindings[b.id].versionId == b.versionId
    ensures !BindingClash(cat, b)
  {
  }

  // ------------------------------------------------------------ publication

  /** Saving the published version, its binding and its active tool never fails once the old version is retired. */
  lemma ActivateExactly(cat: Catalog, h: Digests, t: string, v: string, b: string, now: Time)
    requires NumbersUnique(cat) && BindingsUnique(cat) && NamesUnique(cat)
    requires t in cat.tools && cat.tools[t].id == t
    requires v in cat.versions && cat.versions[v].id == v && cat.versions[v].toolId == t
    requires cat.versions[v].status.Review? && cat.versions[v].reviewedAt.Some?
    requires b in cat.bindings && cat.bindings[b].id == b && cat.bindings[b].versionId == v
    requires cat.bindings[b].status.DraftBinding?
    requires !HasPublished(cat, t)
    ensures Activate(cat, cat.tools[t], cat.versions[v], cat.bindings[b], now) ==
            Ok(cat.(tools := cat.tools[t := cat.tools[t].(active := true)],
                    versions := cat.versions[v := cat.versions[v].(status := Published, publishedAt := Some(now))],
                    bindings :=
                      cat.bindings[b := cat.bindings[b].(status := PublishedBinding, publishedAt := Some(now))]))
  {
    hide VersionClash, BindingClash;
    var published := cat.versions[v].(status := Published, publishedAt := Some(now));
    forall w ensures !PublishedFor(cat, t, w) { assert HasPublished(cat, t) <== PublishedFor(cat, t, w); }
    NoVersionClash(cat, h, published);
    var withVersion := cat.(versions := cat.versions[v := published]);
    NoBindingClash(withVersion, cat.bindings[b].(status := PublishedBinding, publishedAt := Some(now)));
  }

  /** What a caller can check before publishing. */
  ghost predicate Publishable(cat: Catalog, cmd: PublishCommand) {
    && cmd.toolId in cat.tools && cat.tools[cmd.toolId].tenant == cmd.tenant
    && cmd.versionId in cat.versions && cat.versions[cmd.versionId].tenant == cmd.tenant
    && cat.versions[cmd.versionId].toolId == cmd.toolId && cat.versions[cmd.versionId].status.Review?
    && cmd.expectedSchema == cat.versions[cmd.versionId].schemaDigest
    && Newest(cat, cmd.toolId, cmd.versionId)
    && forall b <- cat.bindings :: cat.bindings[b].versionId == cmd.versionId ==>
         BindingReady(cat, cmd, cat.bindings[b])
  }

  ghost predicate BindingReady(cat: Catalog, cmd: PublishCommand, b: Binding) {
    cmd.expectedBinding == b.digest && GetUpstream(cat, cmd.tenant, b.upstreamId).Some? &&
      GetUpstream(cat, cmd.tenant, b.upstreamId).value.active
  }

  const DEFENSIVE :=
    {CurrentChanged, CurrentBindingMissing, CurrentBindingUnpublished, BindingNotFound, Integrity, Invalid}

  /** What is known of the rows a publish command names. */
  ghost predicate Named(cat: Catalog, h: Digests, cmd: PublishCommand, b: string) {
    && cmd.toolId in cat.tools && cat.tools[cmd.toolId].tenant == cmd.tenant && cat.tools[cmd.toolId].id == cmd.toolId
    && cmd.versionId in cat.versions && cat.versions[cmd.versionId].tenant == cmd.tenant
    && cat.versions[cmd.versionId].id == cmd.versionId
    && cat.versions[cmd.versionId].schemaDigest ==
       h.schema(cat.versions[cmd.versionId].inputSchema, cat.versions[cmd.versionId].outputSchema)
    && (cat.versions[cmd.versionId].status.Review? ==> cat.versions[cmd.versionId].reviewedAt.Some?)
    && b == BindingIdOf(cat, Some(cmd.versionId)) && b in cat.bindings && cat.bindings[b].id == b
    && cat.bindings[b].versionId == cmd.versionId && cat.bindings[b].tenant == cmd.tenant
    && BindingOf(cat, cmd.tenant, cmd.versionId) == Some(cat.bindings[b])
    && cat.bindings[b].digest == h.binding(cat.bindings[b].upstreamId, cat.bindings[b].config)
    && MovesWith(cat.versions[cmd.versionId].status, cat.bindings[b].status)
  }

  lemma RowsNamed(cat: Catalog, h: Digests, cmd: PublishCommand)
    requires RowsLinked(cat, h) && BindingsUnique(cat) && EveryVersionBound(cat) && StatusesTogether(cat)
    requires GetTool(cat, cmd.tenant, cmd.toolId).Some? && GetVersion(cat, cmd.tenant, cmd.versionId).Some?
    ensures Named(cat, h, cmd, BindingIdOf(cat, Some(cmd.versionId)))
  {
    BoundVersion(cat, h, cmd.versionId);
    assert VersionRow(cat, h, cmd.versionId);
  }

  /** The snapshot check on rows of the invariant: only what a caller can get wrong is ever refused. */
  lemma SnapshotExactly(cat: Catalog, h: Digests, cmd: PublishCommand, b: string, u: Upstream)
    requires Named(cat, h, cmd, b) && u.tenant == cmd.tenant
    ensures var v := cat.versions[cmd.versionId];
            var refused := Snapshot(h, cmd, cat.tools[cmd.toolId], v, cat.bindings[b], u);
            && (refused.None? <==>
                  v.toolId == cmd.toolId && v.status.Review? && u.active && cmd.expectedSchema == v.schemaDigest &&
                    cmd.expectedBinding == cat.bindings[b].digest)
            && (refused.Some? ==>
                refused.value in {InvalidToolState, UpstreamNotActive, SchemaMismatch, BindingMismatch})
  {
  }

  ghost predicate OnlyBinding(cat: Catalog, v: string, b: string) {
    forall c <- cat.bindings :: cat.bindings[c].versionId == v ==> c == b
  }

  /**
   Publication succeeds exactly when the named version is a reviewed version of
   the named tool, newer than the published one, with the expected digests and an
   active upstream.  The checks for rows that changed under the transaction, for
   missing or mismatched bindings, and the storage's own constraints never fire.
   */
  lemma PublishSucceedsExactly(cat: Catalog, h: Digests, cmd: PublishCommand, now: Time)
    requires Inv(cat, h)
    ensures var r := PublishIn(cat, h, cmd, now);
            && (r.Ok? <==> Publishable(cat, cmd))
            && (r.Err? ==> r.error !in DEFENSIVE)
            && (r.Ok? ==>
                  var (after, p) := r.value;
                  && p.toolId == cmd.toolId && p.versionId == cmd.versionId && p.occurredAt == now
                  && Switched(cat, after, cmd.toolId, cmd.versionId, p.bindingId, p.retiredVersionId,
                              BindingIdOf(cat, p.retiredVersionId), now))
  {
    hide *;
    InvParts(cat, h);
    if GetTool(cat, cmd.tenant, cmd.toolId).None? || GetVersion(cat, cmd.tenant, cmd.versionId).None? {
      PublishUnknown(cat, h, cmd, now);
    } else {
      RowsNamed(cat, h, cmd);
      var b := BindingIdOf(cat, Some(cmd.versionId));
      OnlyBindingOf(cat, h, cmd, b);
      var u := GetUpstream(cat, cmd.tenant, cat.bindings[b].upstreamId);
      if u.None? {
        PublishWithoutUpstream(cat, h, cmd, b, now);
      } else {
        UpstreamTenant(cat, cmd.tenant, cat.bindings[b].upstreamId);
        SnapshotExactly(cat, h, cmd, b, u.value);
        var refused := Snapshot(h, cmd, cat.tools[cmd.toolId], cat.versions[cmd.versionId], cat.bindings[b], u.value);
        PublishableMeans(cat, h, cmd, b, u.value);
        if refused.Some? {
          PublishRefused(cat, h, cmd, b, u.value, now);
        } else {
          RetireExactly(cat, h, cmd.toolId, cmd.versionId, now);
          if Newest(cat, cmd.toolId, cmd.versionId) {
            PublishGoesThrough(cat, h, cmd, b, u.value, now);
          } else {
            PublishNotNewer(cat, h, cmd, b, u.value, now);
          }
        }
      }
    }
  }

  lemma PublishUnknown(cat: Catalog, h: Digests, cmd: PublishCommand, now: Time)
    requires GetTool(cat, cmd.tenant, cmd.toolId).None? || GetVersion(cat, cmd.tenant, cmd.versionId).None?
    ensures PublishIn(cat, h, cmd, now).Err? && PublishIn(cat, h, cmd, now).error !in DEFENSIVE
    ensures !Publishable(cat, cmd)
  {
  }

  lemma OnlyBindingOf(cat: Catalog, h: Digests, cmd: PublishCommand, b: string)
    requires Named(cat, h, cmd, b) && BindingsUnique(cat)
    ensures b in cat.bindings && cmd.toolId in cat.tools && cmd.versionId in cat.versions
    ensures OnlyBinding(cat, cmd.versionId, b)
    ensures cat.bindings[b].versionId == cmd.versionId
  {
  }

  lemma UpstreamTenant(cat: Catalog, tenant: string, u: string)
    requires GetUpstream(cat, tenant, u).Some?
    ensures GetUpstream(cat, tenant, u).value.tenant == tenant
  {
  }

  lemma PublishWithoutUpstream(cat: Catalog, h: Digests, cmd: PublishCommand, b: string, now: Time)
    requires Named(cat, h, cmd, b) && GetUpstream(cat, cmd.tenant, cat.bindings[b].upstreamId).None?
    ensures PublishIn(cat, h, cmd, now) == Err(TenantBoundary) && TenantBoundary !in DEFENSIVE && !Publishable(cat, cmd)
  {
    hide BindingOf, BindingIdOf;
    assert !BindingReady(cat, cmd, cat.bindings[b]);
  }

  lemma PublishableMeans(cat: Catalog, h: Digests, cmd: PublishCommand, b: string, u: Upstream)
    requires Named(cat, h, cmd, b) && OnlyBinding(cat, cmd.versionId, b)
    requires GetUpstream(cat, cmd.tenant, cat.bindings[b].upstreamId) == Some(u)
    ensures var v := cat.versions[cmd.versionId];
            Publishable(cat, cmd) <==>
            v.toolId == cmd.toolId && v.status.Review? && u.active && cmd.expectedSchema == v.schemaDigest &&
              cmd.expectedBinding == cat.bindings[b].digest
            && Newest(cat, cmd.toolId, cmd.versionId)
  {
    hide BindingOf, BindingIdOf, Newest;
    assert BindingReady(cat, cmd, cat.bindings[b]) <==> cmd.expectedBinding == cat.bindings[b].digest && u.active;
  }

  lemma PublishRefused(cat: Catalog, h: Digests, cmd: PublishCommand, b: string, u: Upstream, now: Time)
    requires Named(cat, h, cmd, b) && GetUpstream(cat, cmd.tenant, cat.bindings[b].upstreamId) == Some(u)
    requires var refused := Snapshot(h, cmd, cat.tools[cmd.toolId], cat.versions[cmd.versionId], cat.bindings[b], u);
             refused.Some? && refused.value in {InvalidToolState, UpstreamNotActive, SchemaMismatch, BindingMismatch}
    ensures PublishIn(cat, h, cmd, now).Err? && PublishIn(cat, h, cmd, now).error !in DEFENSIVE
  {
    hide BindingOf, BindingIdOf, Snapshot, RetireCurrent, Activate;
  }

  lemma PublishNotNewer(cat: Catalog, h: Digests, cmd: PublishCommand, b: string, u: Upstream, now: Time)
    requires Named(cat, h, cmd, b) && GetUpstream(cat, cmd.tenant, cat.bindings[b].upstreamId) == Some(u)
    requires Snapshot(h, cmd, cat.tools[cmd.toolId], cat.versions[cmd.versionId], cat.bindings[b], u).None?
    requires RetireCurrent(cat, cat.tools[cmd.toolId].tenant, cat.tools[cmd.toolId], cat.versions[cmd.versionId],
                           now) == Err(NotNewer)
    ensures PublishIn(cat, h, cmd, now) == Err(NotNewer) && NotNewer !in DEFENSIVE
  {
    hide BindingOf, BindingIdOf, Snapshot, RetireCurrent, Activate;
  }

  /** The last steps of publication, once nothing is refused. */
  lemma PublishUnfolds(cat: Catalog, h: Digests, cmd: PublishCommand, b: string, u: Upstream, now: Time,
                       retired: Catalog, former: Option<string>, after: Catalog)
    requires Named(cat, h, cmd, b) && GetUpstream(cat, cmd.tenant, cat.bindings[b].upstreamId) == Some(u)
    requires Snapshot(h, cmd, cat.tools[cmd.toolId], cat.versions[cmd.versionId], cat.bindings[b], u).None?
    requires RetireCurrent(cat, cat.tools[cmd.toolId].tenant, cat.tools[cmd.toolId], cat.versions[cmd.versionId],
                           now) == Ok((retired, former))
    requires Activate(retired, cat.tools[cmd.toolId], cat.versions[cmd.versionId], cat.bindings[b], now) == Ok(after)
    ensures PublishIn(cat, h, cmd, now) ==
            Ok((after,
                Publication(cmd.toolId, cmd.versionId, b, cat.tools[cmd.toolId].name,
                            cat.versions[cmd.versionId].number, now, former)))
  {
    hide Snapshot, RetireCurrent, Activate, BindingOf, BindingIdOf;
  }

  lemma PublishGoesThrough(cat: Catalog, h: Digests, cmd: PublishCommand, b: string, u: Upstream, now: Time)
    requires Inv(cat, h) && Named(cat, h, cmd, b) && GetUpstream(cat, cmd.tenant, cat.bindings[b].upstreamId) == Some(u)
    requires Snapshot(h, cmd, cat.tools[cmd.toolId], cat.versions[cmd.versionId], cat.bindings[b], u).None?
    requires Newest(cat, cmd.toolId, cmd.versionId) && cat.versions[cmd.versionId].toolId == cmd.toolId
    requires cat.versions[cmd.versionId].status.Review?
    ensures var r := PublishIn(cat, h, cmd, now);
            && r.Ok? && r.value.1.toolId == cmd.toolId && r.value.1.versionId == cmd.versionId
            && r.value.1.occurredAt == now
            && var (after, p) := r.value;
            Switched(cat, after, cmd.toolId, cmd.versionId, p.bindingId, p.retiredVersionId,
                     BindingIdOf(cat, p.retiredVersionId), now)
  {
    hide Inv, Snapshot, RetireCurrent, Activate, BindingOf, BindingIdOf, Newest, HasPublished, PublishIn, GetUpstream;
    hide NamesUnique, NumbersUnique, BindingsUnique, EveryVersionBound, StatusesTogether, OnePublished;
    hide ActiveExactlyPublished, RetiredBelow, RowsLinked;
    InvParts(cat, h);
    RetireExactly(cat, h, cmd.toolId, cmd.versionId, now);
    var (retired, former) :=
      RetireCurrent(cat, cmd.tenant, cat.tools[cmd.toolId], cat.versions[cmd.versionId], now).value;
    RetiredReady(cat, retired, h, cmd, b, former, BindingIdOf(cat, former), now);
    ActivateExactly(retired, h, cmd.toolId, cmd.versionId, b, now);
    PublishUnfolds(cat, h, cmd, b, u, now, retired, former,
                   Activate(retired, cat.tools[cmd.toolId], cat.versions[cmd.versionId], cat.bindings[b], now).value);
    if former.Some? {
      OlderCurrent(cat, cmd.toolId, former.value, cmd.versionId);
    }
  }

  lemma OlderCurrent(cat: Catalog, t: string, w: string, v: string)
    requires v in cat.versions && Newest(cat, t, v) && PublishedFor(cat, t, w)
    ensures cat.versions[w].number < cat.versions[v].number
  {
  }

  /** The catalog after the retirement step is ready for the activation step. */
  lemma RetiredReady(cat: Catalog, retired: Catalog, h: Digests, cmd: PublishCommand, b: string, former: Option<string>,
                     c: string, now: Time)
    requires NumbersUnique(cat) && BindingsUnique(cat) && NamesUnique(cat) && OnePublished(cat) && Named(cat, h, cmd, b)
    requires cat.versions[cmd.versionId].status.Review?
    requires retired ==
             cat.(versions := RetiredVersions(cat, former, now), bindings := DisabledBindings(cat, former, c))
    requires match former
             case None => !HasPublished(cat, cmd.toolId)
             case Some(w) => PublishedFor(cat, cmd.toolId, w) && c in cat.bindings && cat.bindings[c].versionId == w
    ensures NumbersUnique(retired) && BindingsUnique(retired) && NamesUnique(retired)
    ensures !HasPublished(retired, cmd.toolId)
    ensures retired.tools == cat.tools
    ensures cmd.versionId in retired.versions && retired.versions[cmd.versionId] == cat.versions[cmd.versionId]
    ensures b in retired.bindings && retired.bindings[b] == cat.bindings[b]
  {
    hide BindingOf, BindingIdOf;
    forall w ensures !PublishedFor(retired, cmd.toolId, w) {
      assert PublishedFor(cat, cmd.toolId, w) ==> former == Some(w);
    }
  }
}
