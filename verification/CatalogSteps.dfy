/** Submission and review, step by step: what each commits, and exactly when a submission succeeds. */
module CatalogSteps {
  import opened Common
  import opened CatalogStore
  import opened CatalogInvariant

  // ------------------------------------------------------------------ submit

  ghost predicate Submitted(before: Catalog, after: Catalog, v: string, now: Time) {
    && v in before.versions && before.versions[v].status.Draft?
    && after ==
       before.(versions := before.versions[v := before.versions[v].(status := Review, reviewedAt := Some(now))])
  }

  lemma SubmittedKeeps(before: Catalog, after: Catalog, v: string, now: Time, h: Digests)
    requires Inv(before, h) && Submitted(before, after, v, now)
    ensures Inv(after, h)
  {
    hide *;
    InvParts(before, h);
    SubmittedRows(before, after, v, now, h);
    StatusChangeKeeps(before, after, h);
    SubmittedStatuses(before, after, v, now);
    InvWhole(after, h);
  }

  lemma SubmittedRows(before: Catalog, after: Catalog, v: string, now: Time, h: Digests)
    requires RowsLinked(before, h) && Submitted(before, after, v, now)
    ensures SameTools(before, after) && SameVersions(before, after) && SameBindings(before, after)
    ensures after.operations == before.operations
  {
    assert VersionRow(before, h, v);
    forall w <- before.versions ensures Restated(before.versions[w], after.versions[w]) {
      assert VersionRow(before, h, w);
    }
  }

  lemma SubmittedStatuses(before: Catalog, after: Catalog, v: string, now: Time)
    requires StatusesTogether(before) && OnePublished(before) && ActiveExactlyPublished(before) && RetiredBelow(before)
    requires Submitted(before, after, v, now)
    ensures StatusesTogether(after) && OnePublished(after) && ActiveExactlyPublished(after) && RetiredBelow(after)
  {
    forall t, w ensures PublishedFor(after, t, w) <==> PublishedFor(before, t, w) {}
    SamePublished(before, after);
  }

  lemma SamePublished(before: Catalog, after: Catalog)
    requires forall t, w :: PublishedFor(after, t, w) <==> PublishedFor(before, t, w)
    ensures forall t :: HasPublished(after, t) <==> HasPublished(before, t)
  {
    forall t ensures HasPublished(after, t) <==> HasPublished(before, t) {
      if w :| PublishedFor(before, t, w) { assert PublishedFor(after, t, w); }
      if w :| PublishedFor(after, t, w) { assert PublishedFor(before, t, w); }
    }
  }

  /** Submission succeeds exactly for the drafts of the tenant; the storage never refuses one. */
  lemma SubmitSucceedsExactly(cat: Catalog, h: Digests, tenant: string, v: string, now: Time)
    requires Inv(cat, h)
    ensures var (after, r) := SubmitTx(cat, tenant, v, now);
            && (r.Ok? <==> v in cat.versions && cat.versions[v].tenant == tenant && cat.versions[v].status.Draft?)
            && (r.Ok? ==> Submitted(cat, after, v, now)) && (r.Err? ==> after == cat)
  {
    if v in cat.versions {
      assert VersionRow(cat, h, v);
    }
  }

  // ------------------------------------------------------------------ review

  /** A new draft of a tool, its binding, and the accepted operation; the tool may be new too. */
  ghost predicate DraftAdded(before: Catalog, after: Catalog, h: Digests, tool: Tool, v: Version, b: Binding,
                             o: Operation) {
    && (after.tools == before.tools ||
        (tool.id !in before.tools && after.tools == before.tools[tool.id := tool] && !tool.active &&
          (forall t <- before.tools :: before.tools[t].tenant == tool.tenant ==> before.tools[t].name != tool.name)))
    && tool.id in after.tools && after.tools[tool.id] == tool
    && v.id !in before.versions && after.versions == before.versions[v.id := v]
    && v.status.Draft? && v.Dated() && v.toolId == tool.id && v.tenant == tool.tenant
    && v.schemaDigest == h.schema(v.inputSchema, v.outputSchema)
    && (forall w <- before.versions :: before.versions[w].toolId == tool.id ==> before.versions[w].number < v.number)
    && b.id !in before.bindings && after.bindings == before.bindings[b.id := b]
    && b.status.DraftBinding? && b.versionId == v.id && b.tenant == v.tenant
    && b.digest == h.binding(b.upstreamId, b.config)
    && o.id in before.operations && after.operations == before.operations[o.id := o]
    && o.tenant == v.tenant && o.versionId == Some(v.id) && o.bindingId == Some(b.id)
    && after.upstreams == before.upstreams && FromContent(before.operations[o.id], o, v, b)
  }

  /** Version and binding hold what the parser left in the operation, which keeps it. */
  ghost predicate FromContent(former: Operation, o: Operation, v: Version, b: Binding) {
    && former.content.Some? && o.content == former.content && o.upstreamId == former.upstreamId
    && v.inputSchema == o.content.value.inputSchema && v.outputSchema == o.content.value.outputSchema
    && v.tags == o.content.value.tags && v.sideEffect == o.content.value.sideEffect
    && b.config == o.content.value.config && b.upstreamId == o.upstreamId && b.operationId == Some(o.id)
  }

  lemma DraftKeepsRows(before: Catalog, after: Catalog, h: Digests, tool: Tool, v: Version, b: Binding, o: Operation)
    requires RowsLinked(before, h) && DraftAdded(before, after, h, tool, v, b, o)
    ensures RowsLinked(after, h)
  {
    hide VersionRow, BindingRow, OperationRow;
    forall w <- after.versions ensures VersionRow(after, h, w) { DraftVersionRow(before, after, h, tool, v, b, o, w); }
    forall c <- after.bindings ensures BindingRow(after, h, c) { DraftBindingRow(before, after, h, tool, v, b, o, c); }
    forall p <- after.operations ensures OperationRow(after, p) {
      DraftOperationRow(before, after, h, tool, v, b, o, p);
    }
  }

  lemma DraftVersionRow(before: Catalog, after: Catalog, h: Digests, tool: Tool, v: Version, b: Binding, o: Operation,
                        w: string)
    requires RowsLinked(before, h) && DraftAdded(before, after, h, tool, v, b, o) && w in after.versions
    ensures VersionRow(after, h, w)
  {
    if w != v.id { assert VersionRow(before, h, w); }
  }

  lemma DraftBindingRow(before: Catalog, after: Catalog, h: Digests, tool: Tool, v: Version, b: Binding, o: Operation,
                        c: string)
    requires RowsLinked(before, h) && DraftAdded(before, after, h, tool, v, b, o) && c in after.bindings
    ensures BindingRow(after, h, c)
  {
    if c != b.id { assert BindingRow(before, h, c); }
  }

  lemma DraftOperationRow(before: Catalog, after: Catalog, h: Digests, tool: Tool, v: Version, b: Binding, o: Operation,
                          p: string)
    requires RowsLinked(before, h) && DraftAdded(before, after, h, tool, v, b, o) && p in after.operations
    ensures OperationRow(after, p)
  {
    if p != o.id { assert OperationRow(before, p); }
  }

  lemma DraftKeepsNames(before: Catalog, after: Catalog, h: Digests, tool: Tool, v: Version, b: Binding, o: Operation)
    requires DraftAdded(before, after, h, tool, v, b, o) && ToolsKeyed(before) && NamesUnique(before)
    ensures NamesUnique(after)
  {
  }

  lemma DraftKeepsNumbers(before: Catalog, after: Catalog, h: Digests, tool: Tool, v: Version, b: Binding, o: Operation)
    requires DraftAdded(before, after, h, tool, v, b, o) && NumbersUnique(before)
    ensures NumbersUnique(after)
  {
  }

  lemma DraftKeepsBindings(before: Catalog, after: Catalog, h: Digests, tool: Tool, v: Version, b: Binding,
                           o: Operation)
    requires RowsLinked(before, h) && DraftAdded(before, after, h, tool, v, b, o) && BindingsUnique(before)
    ensures BindingsUnique(after)
  {
    forall c <- before.bindings ensures before.bindings[c].versionId != v.id { assert BindingRow(before, h, c); }
  }

  lemma DraftKeepsBound(before: Catalog, after: Catalog, h: Digests, tool: Tool, v: Version, b: Binding, o: Operation)
    requires DraftAdded(before, after, h, tool, v, b, o) && EveryVersionBound(before)
    ensures EveryVersionBound(after)
  {
    forall w <- after.versions ensures Bound(after, w) {
      if w == v.id {
        assert after.bindings[b.id].versionId == w;
      } else {
        assert Bound(before, w);
        var c :| c in before.bindings && before.bindings[c].versionId == w;
        assert after.bindings[c].versionId == w;
      }
    }
  }

  lemma DraftKeepsStatuses(before: Catalog, after: Catalog, h: Digests, tool: Tool, v: Version, b: Binding,
                           o: Operation)
    requires RowsLinked(before, h) && DraftAdded(before, after, h, tool, v, b, o)
    requires StatusesTogether(before) && OnePublished(before) && ActiveExactlyPublished(before) && RetiredBelow(before)
    ensures StatusesTogether(after) && OnePublished(after) && ActiveExactlyPublished(after) && RetiredBelow(after)
  {
    hide StatusesTogether, HasPublished, RowsLinked;
    DraftPublished(before, after, h, tool, v, b, o);
    SamePublished(before, after);
    DraftTogether(before, after, h, tool, v, b, o);
    DraftUnpublished(before, after, h, tool, v, b, o);
  }

  lemma DraftPublished(before: Catalog, after: Catalog, h: Digests, tool: Tool, v: Version, b: Binding, o: Operation)
    requires DraftAdded(before, after, h, tool, v, b, o)
    ensures forall t, w :: PublishedFor(after, t, w) <==> PublishedFor(before, t, w)
  {
  }

  lemma DraftUnpublished(before: Catalog, after: Catalog, h: Digests, tool: Tool, v: Version, b: Binding, o: Operation)
    requires RowsLinked(before, h) && DraftAdded(before, after, h, tool, v, b, o)
    ensures tool.id !in before.tools ==> !HasPublished(before, tool.id)
  {
    if tool.id !in before.tools {
      forall w <- before.versions ensures before.versions[w].toolId != tool.id { assert VersionRow(before, h, w); }
    }
  }

  lemma DraftTogether(before: Catalog, after: Catalog, h: Digests, tool: Tool, v: Version, b: Binding, o: Operation)
    requires DraftAdded(before, after, h, tool, v, b, o) && StatusesTogether(before)
    ensures StatusesTogether(after)
  {
  }

  lemma Keyed(cat: Catalog, h: Digests)
    requires RowsLinked(cat, h)
    ensures ToolsKeyed(cat)
  {
  }

  lemma DraftKeeps(before: Catalog, after: Catalog, h: Digests, tool: Tool, v: Version, b: Binding, o: Operation)
    requires Inv(before, h) && DraftAdded(before, after, h, tool, v, b, o)
    ensures Inv(after, h)
  {
    hide *;
    InvParts(before, h);
    DraftKeepsRows(before, after, h, tool, v, b, o);
    Keyed(before, h);
    DraftKeepsNames(before, after, h, tool, v, b, o);
    DraftKeepsNumbers(before, after, h, tool, v, b, o);
    DraftKeepsBindings(before, after, h, tool, v, b, o);
    DraftKeepsBound(before, after, h, tool, v, b, o);
    DraftKeepsStatuses(before, after, h, tool, v, b, o);
    InvWhole(after, h);
  }

  lemma ToolForShape(cat: Catalog, h: Digests, cmd: ReviewCommand, name: string, namespace: string, id: string)
    requires RowsLinked(cat, h) && ToolFor(cat, cmd, name, namespace, id).Ok?
    ensures var (withTool, tool) := ToolFor(cat, cmd, name, namespace, id).value;
            && tool.tenant == cmd.tenant && tool.name == name && tool.id in withTool.tools
            && withTool.tools[tool.id] == tool
            && (withTool == cat ||
                  (tool.id !in cat.tools && !tool.active && withTool == cat.(tools := cat.tools[tool.id := tool]) &&
                   (forall t <- cat.tools :: cat.tools[t].tenant == tool.tenant ==> cat.tools[t].name != tool.name)))
  {
    forall t | t in cat.tools && cat.tools[t].tenant == cmd.tenant && cat.tools[t].name == name
      ensures ToolByName(cat, cmd.tenant, name).Some?
    {
      assert NamedTool(cat, cmd.tenant, name, t);
    }
  }

  lemma NumberIsNew(cat: Catalog, h: Digests, tool: Tool)
    requires RowsLinked(cat, h) && tool.id in cat.tools && cat.tools[tool.id] == tool
    ensures forall w <- cat.versions :: cat.versions[w].toolId == tool.id ==>
              cat.versions[w].number < NextNumber(cat, tool.tenant, tool.id)
  {
    forall w | w in cat.versions && cat.versions[w].toolId == tool.id
      ensures cat.versions[w].number < NextNumber(cat, tool.tenant, tool.id)
    {
      assert VersionRow(cat, h, w);
      assert cat.versions[w].number in Numbers(cat, tool.tenant, tool.id);
    }
  }

  /** What a successful review leaves: the catalog as it was, or one new draft. */
  lemma ReviewShape(cat: Catalog, h: Digests, cmd: ReviewCommand, ids: Ids)
    requires Inv(cat, h) && ReviewIn(cat, h, cmd, ids).Ok?
    ensures var (after, reviewed) := ReviewIn(cat, h, cmd, ids).value;
            && cmd.operationId in cat.operations
            && (if cat.operations[cmd.operationId].review.Accepted? then
                  after == cat && ReviewedRows(after, cmd.tenant, reviewed)
                else NewDraft(cat, after, h, cmd, ids, reviewed))
  {
    InvParts(cat, h);
    hide Inv;
    var o := cat.operations[cmd.operationId];
    assert OperationRow(cat, cmd.operationId);
    if o.review.Accepted? {
      AcceptedShape(cat, h, cmd.tenant, o);
    } else {
      var namespace := cat.upstreams[o.upstreamId].namespace;
      ToolForShape(cat, h, cmd, o.toolName.value, namespace, ids.tool);
      var (withTool, tool) := ToolFor(cat, cmd, o.toolName.value, namespace, ids.tool).value;
      AddDraftShape(cat, withTool, h, cmd, o, tool, ids);
    }
  }

  /** A review's answer names rows that belong together. */
  ghost predicate ReviewedRows(cat: Catalog, tenant: string, r: Reviewed) {
    && r.versionId in cat.versions && r.bindingId in cat.bindings && r.toolId in cat.tools
    && cat.bindings[r.bindingId].versionId == r.versionId && cat.versions[r.versionId].toolId == r.toolId
    && cat.versions[r.versionId].tenant == tenant && cat.bindings[r.bindingId].tenant == tenant
    && cat.tools[r.toolId].tenant == tenant
    && r.schemaDigest == cat.versions[r.versionId].schemaDigest && r.bindingDigest == cat.bindings[r.bindingId].digest
    && r.number == cat.versions[r.versionId].number && r.name == cat.tools[r.toolId].name
  }

  ghost predicate NewDraft(before: Catalog, after: Catalog, h: Digests, cmd: ReviewCommand, ids: Ids,
                           r: Reviewed) {
    && ReviewedRows(after, cmd.tenant, r) && r.versionId == ids.version && r.bindingId == ids.binding
    && r.operationId == cmd.operationId
    && r.operationId in after.operations && after.operations[r.operationId].review.Accepted?
    && DraftAdded(before, after, h, after.tools[r.toolId], after.versions[r.versionId], after.bindings[r.bindingId],
                  after.operations[r.operationId])
  }

  lemma AcceptedShape(cat: Catalog, h: Digests, tenant: string, o: Operation)
    requires RowsLinked(cat, h) && o.id in cat.operations && cat.operations[o.id] == o && o.tenant == tenant
    requires o.review.Accepted?
    ensures var r := ExistingResult(cat, tenant, o); r.Ok? && ReviewedRows(cat, tenant, r.value)
    ensures o.versionId == Some(ExistingResult(cat, tenant, o).value.versionId)
  {
    assert OperationRow(cat, o.id);
    assert VersionRow(cat, h, o.versionId.value);
    assert BindingRow(cat, h, o.bindingId.value);
  }

  lemma AddDraftShape(cat: Catalog, withTool: Catalog, h: Digests, cmd: ReviewCommand, o: Operation, tool: Tool,
                      ids: Ids)
    requires RowsLinked(cat, h) && o.id in cat.operations && cat.operations[o.id] == o && o.tenant == cmd.tenant
    requires o.id == cmd.operationId
    requires tool.tenant == cmd.tenant && tool.id in withTool.tools && withTool.tools[tool.id] == tool
    requires withTool == cat ||
      (tool.id !in cat.tools && !tool.active && withTool == cat.(tools := cat.tools[tool.id := tool]) &&
       (forall t <- cat.tools :: cat.tools[t].tenant == tool.tenant ==> cat.tools[t].name != tool.name))
    requires o.content.Some? && AddDraft(withTool, h, cmd, o, o.content.value, tool, ids).Ok?
    ensures var (after, reviewed) := AddDraft(withTool, h, cmd, o, o.content.value, tool, ids).value;
            NewDraft(cat, after, h, cmd, ids, reviewed)
  {
    WithToolRows(cat, withTool, h, tool);
    NumberIsNew(withTool, h, tool);
  }

  lemma WithToolRows(cat: Catalog, withTool: Catalog, h: Digests, tool: Tool)
    requires RowsLinked(cat, h)
    requires withTool == cat || (tool.id !in cat.tools && withTool == cat.(tools := cat.tools[tool.id := tool]))
    ensures RowsLinked(withTool, h)
  {
    forall w <- withTool.versions ensures VersionRow(withTool, h, w) { assert VersionRow(cat, h, w); }
    forall c <- withTool.bindings ensures BindingRow(withTool, h, c) { assert BindingRow(cat, h, c); }
    forall p <- withTool.operations ensures OperationRow(withTool, p) { assert OperationRow(cat, p); }
  }

  lemma ReviewKeeps(cat: Catalog, h: Digests, cmd: ReviewCommand, ids: Ids)
    requires Inv(cat, h) && ReviewIn(cat, h, cmd, ids).Ok?
    ensures Inv(ReviewIn(cat, h, cmd, ids).value.0, h)
  {
    hide Inv, ReviewIn, ReviewedRows, DraftAdded;
    ReviewShape(cat, h, cmd, ids);
    var (after, r) := ReviewIn(cat, h, cmd, ids).value;
    if !cat.operations[cmd.operationId].review.Accepted? {
      DraftOf(cat, after, h, cmd, ids, r);
      DraftKeeps(cat, after, h, after.tools[r.toolId], after.versions[r.versionId], after.bindings[r.bindingId],
                 after.operations[r.operationId]);
    }
  }

  lemma DraftOf(before: Catalog, after: Catalog, h: Digests, cmd: ReviewCommand, ids: Ids, r: Reviewed)
    requires NewDraft(before, after, h, cmd, ids, r)
    ensures r.toolId in after.tools && r.versionId in after.versions && r.bindingId in after.bindings
    ensures r.operationId in after.operations
    ensures DraftAdded(before, after, h, after.tools[r.toolId], after.versions[r.versionId],
                       after.bindings[r.bindingId], after.operations[r.operationId])
  {
  }
}
