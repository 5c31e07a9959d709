/** What every run of the publication transactions keeps: tool, version and binding move together. */
module CatalogInvariant {
  import opened Common
  import opened CatalogStore

  // ------------------------------------------------------------- invariants

  ghost predicate ToolsKeyed(cat: Catalog) {
    forall t <- cat.tools :: cat.tools[t].id == t
  }

  ghost predicate VersionRow(cat: Catalog, h: Digests, v: string)
    requires v in cat.versions
  {
    var row := cat.versions[v];
    row.id == v && row.Dated() && row.schemaDigest == h.schema(row.inputSchema, row.outputSchema) &&
    row.toolId in cat.tools && cat.tools[row.toolId].tenant == row.tenant
  }

  ghost predicate BindingRow(cat: Catalog, h: Digests, b: string)
    requires b in cat.bindings
  {
    var row := cat.bindings[b];
    row.id == b && row.digest == h.binding(row.upstreamId, row.config) &&
    row.versionId in cat.versions && cat.versions[row.versionId].tenant == row.tenant
  }

  ghost predicate OperationRow(cat: Catalog, o: string)
    requires o in cat.operations
  {
    var row := cat.operations[o];
    row.id == o &&
    (row.review.Accepted? ==>
       && row.versionId.Some? && row.bindingId.Some? && row.versionId.value in cat.versions
       && row.bindingId.value in cat.bindings
       && cat.versions[row.versionId.value].tenant == row.tenant
       && cat.bindings[row.bindingId.value].versionId == row.versionId.value)
  }

  ghost predicate RowsLinked(cat: Catalog, h: Digests) {
    && ToolsKeyed(cat)
    && (forall v <- cat.versions :: VersionRow(cat, h, v))
    && (forall b <- cat.bindings :: BindingRow(cat, h, b))
    && (forall o <- cat.operations :: OperationRow(cat, o))
  }

  ghost predicate NamesUnique(cat: Catalog) {
    forall s, t :: s in cat.tools && t in cat.tools && s != t && cat.tools[s].tenant == cat.tools[t].tenant ==>
      cat.tools[s].name != cat.tools[t].name
  }

  ghost predicate NumbersUnique(cat: Catalog) {
    forall v, w ::
      v in cat.versions && w in cat.versions && v != w && cat.versions[v].toolId == cat.versions[w].toolId ==>
      cat.versions[v].number != cat.versions[w].number
  }

  ghost predicate BindingsUnique(cat: Catalog) {
    forall b, c :: b in cat.bindings && c in cat.bindings && b != c ==>
      cat.bindings[b].versionId != cat.bindings[c].versionId
  }

  ghost predicate Bound(cat: Catalog, v: string) {
    exists b <- cat.bindings :: cat.bindings[b].versionId == v
  }

  ghost predicate EveryVersionBound(cat: Catalog) {
    forall v <- cat.versions :: Bound(cat, v)
  }

  predicate MovesWith(v: VersionStatus, b: BindingStatus) {
    match v
    case Draft => b.DraftBinding?
    case Review => b.DraftBinding?
    case Published => b.PublishedBinding?
    case Retired => b.DisabledBinding?
  }

  ghost predicate StatusesTogether(cat: Catalog) {
    forall b <- cat.bindings :: cat.bindings[b].versionId in cat.versions &&
      MovesWith(cat.versions[cat.bindings[b].versionId].status, cat.bindings[b].status)
  }

  predicate PublishedFor(cat: Catalog, t: string, v: string) {
    v in cat.versions && cat.versions[v].toolId == t && cat.versions[v].status.Published?
  }

  ghost predicate OnePublished(cat: Catalog) {
    forall t, v, w :: PublishedFor(cat, t, v) && PublishedFor(cat, t, w) ==> v == w
  }

  ghost predicate HasPublished(cat: Catalog, t: string) {
    exists v :: PublishedFor(cat, t, v)
  }

  ghost predicate ActiveExactlyPublished(cat: Catalog) {
    forall t <- cat.tools :: cat.tools[t].active <==> HasPublished(cat, t)
  }

  /** Every retired version lies below the published one, and there is one. */
  ghost predicate RetiredBelow(cat: Catalog) {
    forall v <- cat.versions :: cat.versions[v].status.Retired? ==>
      HasPublished(cat, cat.versions[v].toolId) &&
      forall w :: PublishedFor(cat, cat.versions[v].toolId, w) ==> cat.versions[v].number < cat.versions[w].number
  }

  ghost predicate Inv(cat: Catalog, h: Digests) {
    && RowsLinked(cat, h) && NamesUnique(cat) && NumbersUnique(cat) && BindingsUnique(cat) && EveryVersionBound(cat)
    && StatusesTogether(cat) && OnePublished(cat) && ActiveExactlyPublished(cat) && RetiredBelow(cat)
  }

  lemma InvParts(cat: Catalog, h: Digests)
    requires Inv(cat, h)
    ensures RowsLinked(cat, h) && NamesUnique(cat) && NumbersUnique(cat) && BindingsUnique(cat)
    ensures EveryVersionBound(cat)
    ensures StatusesTogether(cat) && OnePublished(cat) && ActiveExactlyPublished(cat) && RetiredBelow(cat)
  {
  }

  lemma InvWhole(cat: Catalog, h: Digests)
    requires RowsLinked(cat, h) && NamesUnique(cat) && NumbersUnique(cat) && BindingsUnique(cat)
    requires EveryVersionBound(cat)
    requires StatusesTogether(cat) && OnePublished(cat) && ActiveExactlyPublished(cat) && RetiredBelow(cat)
    ensures Inv(cat, h)
  {
  }

  // ----------------------------------------------------------------- lookups

  lemma TheBinding(cat: Catalog, h: Digests, v: string, b: string)
    requires RowsLinked(cat, h) && BindingsUnique(cat) && b in cat.bindings && cat.bindings[b].versionId == v
    ensures v in cat.versions && BindingOf(cat, cat.versions[v].tenant, v) == Some(cat.bindings[b])
  {
    assert BindingRow(cat, h, b);
    assert BindsVersion(cat, cat.versions[v].tenant, v, b);
  }

  lemma ThePublished(cat: Catalog, h: Digests, t: string)
    requires RowsLinked(cat, h) && OnePublished(cat) && t in cat.tools
    ensures var current := PublishedOf(cat, cat.tools[t].tenant, t);
            && (current.None? <==> !HasPublished(cat, t))
            && (current.Some? ==>
                PublishedFor(cat, t, current.value.id) && cat.versions[current.value.id] == current.value &&
                                  current.value.tenant == cat.tools[t].tenant)
  {
    if HasPublished(cat, t) {
      var v :| PublishedFor(cat, t, v);
      assert VersionRow(cat, h, v);
      assert IsPublished(cat, cat.tools[t].tenant, t, v);
    }
    var current := PublishedOf(cat, cat.tools[t].tenant, t);
    if current.Some? {
      var w :| IsPublished(cat, cat.tools[t].tenant, t, w) && cat.versions[w] == current.value;
      assert VersionRow(cat, h, w);
      assert PublishedFor(cat, t, w);
    }
  }

  // ----------------------------------------------------------------- publish

  /** What a publication does: the old version and binding retire, the new ones are published, the tool is active. */
  ghost predicate Switched(before: Catalog, after: Catalog, t: string, v: string, b: string, former: Option<string>,
                           c: string, now: Time) {
    && t in before.tools && v in before.versions && before.versions[v].toolId == t && before.versions[v].status.Review?
    && before.versions[v].reviewedAt.Some?
    && b in before.bindings && before.bindings[b].versionId == v && before.bindings[b].status.DraftBinding?
    && var published := before.versions[v].(status := Published, publishedAt := Some(now));
    && var bound := before.bindings[b].(status := PublishedBinding, publishedAt := Some(now));
    && after == Catalog(before.tools[t := before.tools[t].(active := true)],
                        RetiredVersions(before, former, now)[v := published],
                        DisabledBindings(before, former, c)[b := bound],
                        before.upstreams, before.operations)
    && match former
       case None => !HasPublished(before, t)
       case Some(w) =>
         PublishedFor(before, t, w) && before.versions[w].number < before.versions[v].number &&
         c in before.bindings && before.bindings[c].versionId == w
  }

  function RetiredVersions(cat: Catalog, former: Option<string>, now: Time): map<string, Version> {
    if former.Some? && former.value in cat.versions then
      cat.versions[former.value := cat.versions[former.value].(status := Retired, retiredAt := Some(now))]
    else cat.versions
  }

  function DisabledBindings(cat: Catalog, former: Option<string>, c: string): map<string, Binding> {
    if former.Some? && c in cat.bindings then cat.bindings[c := cat.bindings[c].(status := DisabledBinding)]
    else cat.bindings
  }

  /** Fields that a status change leaves alone. */
  ghost predicate SameVersions(before: Catalog, after: Catalog) {
    && after.versions.Keys == before.versions.Keys
    && forall v <- before.versions :: Restated(before.versions[v], after.versions[v])
  }

  ghost predicate Restated(x: Version, y: Version) {
    y == x.(status := y.status, reviewedAt := y.reviewedAt, publishedAt := y.publishedAt, retiredAt := y.retiredAt) &&
      y.Dated()
  }

  ghost predicate SameBindings(before: Catalog, after: Catalog) {
    && after.bindings.Keys == before.bindings.Keys
    && forall b <- before.bindings ::
         var x, y := before.bindings[b], after.bindings[b];
         y == x.(status := y.status, publishedAt := y.publishedAt)
  }

  ghost predicate SameTools(before: Catalog, after: Catalog) {
    && after.tools.Keys == before.tools.Keys
    && forall t <- before.tools :: after.tools[t] == before.tools[t].(active := after.tools[t].active)
  }

  /** A change of statuses only keeps everything that does not mention them. */
  lemma StatusChangeKeeps(before: Catalog, after: Catalog, h: Digests)
    requires RowsLinked(before, h) && NamesUnique(before) && NumbersUnique(before) && BindingsUnique(before)
    requires EveryVersionBound(before)
    requires SameTools(before, after) && SameVersions(before, after) && SameBindings(before, after)
    requires after.operations == before.operations
    ensures RowsLinked(after, h) && NamesUnique(after) && NumbersUnique(after) && BindingsUnique(after)
    ensures EveryVersionBound(after)
  {
    RowsStay(before, after, h);
    forall v <- after.versions ensures Bound(after, v) {
      assert Bound(before, v);
      var b :| b in before.bindings && before.bindings[b].versionId == v;
      assert b in after.bindings && after.bindings[b].versionId == v;
    }
  }

  lemma RowsStay(before: Catalog, after: Catalog, h: Digests)
    requires RowsLinked(before, h)
    requires SameTools(before, after) && SameVersions(before, after) && SameBindings(before, after)
    requires after.operations == before.operations
    ensures RowsLinked(after, h)
  {
    forall v <- after.versions ensures VersionRow(after, h, v) { assert VersionRow(before, h, v); }
    forall b <- after.bindings ensures BindingRow(after, h, b) { assert BindingRow(before, h, b); }
    forall o <- after.operations ensures OperationRow(after, o) { assert OperationRow(before, o); }
  }

  lemma SwitchedIsStatusChange(before: Catalog, after: Catalog, t: string, v: string, b: string, former: Option<string>,
                               c: string, now: Time, h: Digests)
    requires RowsLinked(before, h) && Switched(before, after, t, v, b, former, c, now)
    ensures SameTools(before, after) && SameVersions(before, after) && SameBindings(before, after)
  {
    SwitchedVersions(before, after, t, v, b, former, c, now, h);
    SwitchedRest(before, after, t, v, b, former, c, now);
  }

  lemma SwitchedVersions(before: Catalog, after: Catalog, t: string, v: string, b: string, former: Option<string>,
                         c: string, now: Time, h: Digests)
    requires RowsLinked(before, h) && Switched(before, after, t, v, b, former, c, now)
    ensures SameVersions(before, after)
  {
    assert after.versions.Keys == before.versions.Keys;
    forall w <- before.versions ensures Restated(before.versions[w], after.versions[w]) {
      hide *;
      SwitchedVersion(before, after, t, v, b, former, c, now, h, w);
    }
  }

  lemma SwitchedVersion(before: Catalog, after: Catalog, t: string, v: string, b: string, former: Option<string>,
                        c: string, now: Time,
                        h: Digests, w: string)
    requires RowsLinked(before, h) && Switched(before, after, t, v, b, former, c, now) && w in before.versions
    ensures w in after.versions && Restated(before.versions[w], after.versions[w])
  {
    assert VersionRow(before, h, w);
  }

  lemma SwitchedRest(before: Catalog, after: Catalog, t: string, v: string, b: string, former: Option<string>,
                     c: string, now: Time)
    requires Switched(before, after, t, v, b, former, c, now)
    ensures SameTools(before, after) && SameBindings(before, after)
  {
  }

  lemma SwitchedPublished(before: Catalog, after: Catalog, t: string, v: string, b: string, former: Option<string>,
                          c: string, now: Time)
    requires OnePublished(before) && Switched(before, after, t, v, b, former, c, now)
    ensures forall s, w :: PublishedFor(after, s, w) <==> if s == t then w == v else PublishedFor(before, s, w)
  {
    forall s, w ensures PublishedFor(after, s, w) <==> if s == t then w == v else PublishedFor(before, s, w) {
      assert s == t && PublishedFor(before, s, w) ==> former == Some(w);
    }
  }

  lemma SwitchedTogether(before: Catalog, after: Catalog, t: string, v: string, b: string, former: Option<string>,
                         c: string, now: Time)
    requires StatusesTogether(before) && BindingsUnique(before) && Switched(before, after, t, v, b, former, c, now)
    ensures StatusesTogether(after)
  {
  }

  lemma SwitchedActive(before: Catalog, after: Catalog, t: string, v: string, b: string, former: Option<string>,
                       c: string, now: Time)
    requires ActiveExactlyPublished(before) && OnePublished(before) && Switched(before, after, t, v, b, former, c, now)
    ensures ActiveExactlyPublished(after) && OnePublished(after)
  {
    SwitchedPublished(before, after, t, v, b, former, c, now);
    assert PublishedFor(after, t, v);
    forall s <- after.tools | s != t ensures HasPublished(after, s) <==> HasPublished(before, s) {
      if HasPublished(before, s) {
        var w :| PublishedFor(before, s, w);
        assert PublishedFor(after, s, w);
      }
    }
  }

  lemma SwitchedRetired(before: Catalog, after: Catalog, t: string, v: string, b: string, former: Option<string>,
                        c: string, now: Time)
    requires RetiredBelow(before) && OnePublished(before) && Switched(before, after, t, v, b, former, c, now)
    ensures RetiredBelow(after)
  {
    SwitchedPublished(before, after, t, v, b, former, c, now);
    forall x | x in after.versions && after.versions[x].status.Retired?
      ensures HasPublished(after, after.versions[x].toolId)
      ensures forall w :: PublishedFor(after, after.versions[x].toolId, w) ==>
                after.versions[x].number < after.versions[w].number
    {
      var s := after.versions[x].toolId;
      if s == t {
        assert PublishedFor(after, t, v);
      } else {
        var w :| PublishedFor(before, s, w);
        assert PublishedFor(after, s, w);
      }
    }
  }

  lemma SwitchedKeeps(before: Catalog, after: Catalog, t: string, v: string, b: string, former: Option<string>,
                      c: string, now: Time, h: Digests)
    requires Inv(before, h) && Switched(before, after, t, v, b, former, c, now)
    ensures Inv(after, h)
  {
    hide *;
    InvParts(before, h);
    SwitchedIsStatusChange(before, after, t, v, b, former, c, now, h);
    SwitchedOperations(before, after, t, v, b, former, c, now);
    StatusChangeKeeps(before, after, h);
    SwitchedTogether(before, after, t, v, b, former, c, now);
    SwitchedActive(before, after, t, v, b, former, c, now);
    SwitchedRetired(before, after, t, v, b, former, c, now);
    InvWhole(after, h);
  }

  lemma SwitchedOperations(before: Catalog, after: Catalog, t: string, v: string, b: string, former: Option<string>,
                           c: string, now: Time)
    requires Switched(before, after, t, v, b, former, c, now)
    ensures after.operations == before.operations
  {
  }
}
