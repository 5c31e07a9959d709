/** Which tools an endpoint lists for a principal, and which of them it lets the principal call. */
module ToolsetAccess {
  import opened Common
  import opened Ordering
  import opened ToolsetDomain
  import opened ToolsetStore
  import opened ToolsetTheorems

  datatype PublishedTool = PublishedTool(id: string, name: string, visibility: Visibility)

  const ANONYMOUS := "anonymous"

  /** `is_visible_to` */
  predicate VisibleTo(tool: PublishedTool, principal: string) {
    tool.visibility.Public? || (tool.visibility.Authenticated? && principal != ANONYMOUS)
  }

  datatype Scope = Root | Endpoint(slug: string)

  datatype Access = Access(tools: seq<PublishedTool>, unavailable: set<string>, toolset: Option<Toolset>)

  datatype AccessError = ToolsetNotFound | ToolsetNotActive | AccessDenied | ToolUnavailable

  // ----------------------------------------------------------------- sorting

  function InsertByName(tools: seq<PublishedTool>, tool: PublishedTool): seq<PublishedTool> {
    if tools == [] || !Precedes(tools[0].name, tool.name) then [tool] + tools
    else [tools[0]] + InsertByName(tools[1..], tool)
  }

  /** `sorted(tools, key=canonical_name)` */
  function SortByName(tools: seq<PublishedTool>): seq<PublishedTool> {
    if tools == [] then [] else InsertByName(SortByName(tools[1..]), tools[0])
  }

  ghost predicate NamesAscend(tools: seq<PublishedTool>) {
    forall i, j :: 0 <= i < j < |tools| ==> Precedes(tools[i].name, tools[j].name)
  }

  ghost predicate NamesDistinct(tools: seq<PublishedTool>) {
    forall i, j :: 0 <= i < j < |tools| ==> tools[i].name != tools[j].name
  }

  lemma {:induction false} InsertByNameIs(tools: seq<PublishedTool>, tool: PublishedTool)
    requires NamesAscend(tools) && forall t <- tools :: t.name != tool.name
    ensures NamesAscend(InsertByName(tools, tool))
    ensures forall t :: t in InsertByName(tools, tool) <==> t == tool || t in tools
  {
    if tools == [] {
    } else if !Precedes(tools[0].name, tool.name) {
      PrecedesTotal(tools[0].name, tool.name);
      assert tools[0] in tools;
      forall j | 0 < j < |tools| ensures Precedes(tool.name, tools[j].name) {
        PrecedesTransitive(tool.name, tools[0].name, tools[j].name);
      }
    } else {
      InsertByNameIs(tools[1..], tool);
      var rest := InsertByName(tools[1..], tool);
      forall j | 0 <= j < |rest| ensures Precedes(tools[0].name, rest[j].name) {
        assert rest[j] in rest;
        assert rest[j] == tool || rest[j] in tools[1..];
      }
      assert tools == [tools[0]] + tools[1..];
    }
  }

  lemma {:induction false} SortByNameIs(tools: seq<PublishedTool>)
    requires NamesDistinct(tools)
    ensures NamesAscend(SortByName(tools)) && forall t :: t in SortByName(tools) <==> t in tools
  {
    if tools != [] {
      SortByNameIs(tools[1..]);
      forall t <- SortByName(tools[1..]) ensures t.name != tools[0].name {
        var j :| 0 <= j < |tools[1..]| && tools[1..][j] == t;
        assert tools[1 + j] == t;
      }
      InsertByNameIs(SortByName(tools[1..]), tools[0]);
      assert tools == [tools[0]] + tools[1..];
    }
  }

  lemma {:induction false} AscendingToolsUnique(a: seq<PublishedTool>, b: seq<PublishedTool>)
    requires NamesAscend(a) && NamesAscend(b) && forall t :: t in a <==> t in b
    ensures a == b
  {
    assert |a| > 0 ==> a[0] in a && a[0] in b;
    assert |b| > 0 ==> b[0] in b && b[0] in a;
    if a != [] {
      if a[0] != b[0] {
        FirstName(a, b[0]);
        FirstName(b, a[0]);
        PrecedesAsymmetric(a[0].name, b[0].name);
      }
      RestOf(a);
      RestOf(b);
      AscendingToolsUnique(a[1..], b[1..]);
    }
  }

  lemma FirstName(a: seq<PublishedTool>, t: PublishedTool)
    requires NamesAscend(a) && t in a && t != a[0]
    ensures Precedes(a[0].name, t.name)
  {
  }

  lemma RestOf(a: seq<PublishedTool>)
    requires NamesAscend(a) && a != []
    ensures NamesAscend(a[1..]) && forall t :: t in a[1..] <==> t in a && t != a[0]
  {
    PrecedesItself(a[0].name);
    assert a == [a[0]] + a[1..];
  }

  function Filter(tools: seq<PublishedTool>, keep: PublishedTool -> bool): seq<PublishedTool> {
    if tools == [] then [] else (if keep(tools[0]) then [tools[0]] else []) + Filter(tools[1..], keep)
  }

  lemma {:induction false} FilterIs(tools: seq<PublishedTool>, keep: PublishedTool -> bool)
    ensures forall t :: t in Filter(tools, keep) <==> t in tools && keep(t)
    ensures NamesDistinct(tools) ==> NamesDistinct(Filter(tools, keep))
  {
    if tools != [] {
      FilterIs(tools[1..], keep);
      assert tools == [tools[0]] + tools[1..];
      if NamesDistinct(tools) {
        forall j | 0 <= j < |Filter(tools[1..], keep)| ensures Filter(tools[1..], keep)[j].name != tools[0].name {
          var t := Filter(tools[1..], keep)[j];
          assert t in Filter(tools[1..], keep);
          var i :| 0 <= i < |tools[1..]| && tools[1..][i] == t;
          assert tools[1 + i] == t;
        }
      }
    }
  }

  // -------------------------------------------------------------- resolution

  predicate Granted(store: Toolsets, tenant: string, principal: string, t: string) {
    t in store && store[t].tenant == tenant && store[t].status.Active? && principal in PrincipalIds(store[t].grants)
  }

  /** `list_granted_active` */
  function GrantedActive(store: Toolsets, tenant: string, principal: string): set<Toolset> {
    set t | t in store && Granted(store, tenant, principal, t) :: store[t]
  }

  predicate HasSlug(store: Toolsets, tenant: string, slug: string, t: string) {
    t in store && store[t].tenant == tenant && store[t].slug == slug
  }

  ghost function BySlug(store: Toolsets, tenant: string, slug: string): Option<Toolset> {
    if t :| HasSlug(store, tenant, slug, t) then Some(store[t]) else None
  }

  /** The member tools of the explicit toolsets that the catalog knows: the ids of `_member_snapshots`. */
  function MemberTools(catalog: CatalogView, tenant: string, toolsets: set<Toolset>): set<string> {
    set t, x | t in toolsets && t.kind.Explicit? && x in ToolIds(t.members) && catalog(tenant, x).Some? :: x
  }

  predicate AnyAllPublished(toolsets: set<Toolset>) {
    exists t <- toolsets :: t.kind.AllPublished?
  }

  function Eligible(catalog: CatalogView, published: seq<PublishedTool>, tenant: string, principal: string,
                    toolsets: set<Toolset>): seq<PublishedTool> {
    var everything, members := AnyAllPublished(toolsets), MemberTools(catalog, tenant, toolsets);
    SortByName(Filter(published, (t: PublishedTool) => (everything || t.id in members) && VisibleTo(t, principal)))
  }

  predicate IsPublished(published: seq<PublishedTool>, id: string) {
    exists t <- published :: t.id == id
  }

  predicate IsUnavailable(catalog: CatalogView, published: seq<PublishedTool>, tenant: string, x: string) {
    catalog(tenant, x).Some? && catalog(tenant, x).value.name.Some? &&
    (!catalog(tenant, x).value.availability.Available? || !IsPublished(published, x))
  }

  function UnavailableNames(catalog: CatalogView, published: seq<PublishedTool>, tenant: string,
                            toolsets: set<Toolset>): set<string> {
    set x | x in MemberTools(catalog, tenant, toolsets) && IsUnavailable(catalog, published, tenant, x) ::
      catalog(tenant, x).value.name.value
  }

  /** `ResolveToolsetAccess` on one state of toolsets and catalog */
  ghost function Resolve(store: Toolsets, catalog: CatalogView, published: seq<PublishedTool>, tenant: string,
                         principal: string, scope: Scope)
    : Result<Access, AccessError>
  {
    match scope
    case Root =>
      var toolsets := GrantedActive(store, tenant, principal);
      Ok(Access(Eligible(catalog, published, tenant, principal, toolsets),
                UnavailableNames(catalog, published, tenant, toolsets), None))
    case Endpoint(slug) =>
      var toolset := BySlug(store, tenant, slug);
      if toolset.None? then Err(ToolsetNotFound)
      else if !toolset.value.status.Active? then Err(ToolsetNotActive)
      else if principal !in PrincipalIds(toolset.value.grants) then Err(AccessDenied)
      else
        var toolsets := {toolset.value};
        Ok(Access(Eligible(catalog, published, tenant, principal, toolsets),
                  UnavailableNames(catalog, published, tenant, toolsets), toolset))
  }

  /** `require_business_tool` */
  function RequireBusinessTool(access: Access, name: string): Option<AccessError> {
    if exists t <- access.tools :: t.name == name then None
    else if name in access.unavailable then Some(ToolUnavailable)
    else Some(AccessDenied)
  }

  // ---------------------------------------------------------------- theorems

  lemma EligibleIs(catalog: CatalogView, published: seq<PublishedTool>, tenant: string, principal: string,
                   toolsets: set<Toolset>)
    requires NamesDistinct(published)
    ensures var tools := Eligible(catalog, published, tenant, principal, toolsets);
            NamesAscend(tools) &&
            forall t :: t in tools <==>
              t in published && VisibleTo(t, principal) &&
                (AnyAllPublished(toolsets) || t.id in MemberTools(catalog, tenant, toolsets))
  {
    var everything, members := AnyAllPublished(toolsets), MemberTools(catalog, tenant, toolsets);
    var keep := (t: PublishedTool) => (everything || t.id in members) && VisibleTo(t, principal);
    FilterIs(published, keep);
    SortByNameIs(Filter(published, keep));
    assert Eligible(catalog, published, tenant, principal, toolsets) == SortByName(Filter(published, keep));
  }

  /** An endpoint grants access exactly to the principals of its active toolset. */
  lemma EndpointGrants(store: Toolsets, catalog: CatalogView, published: seq<PublishedTool>, tenant: string,
                       principal: string, t: string)
    requires SlugsUnique(store) && t in store && store[t].tenant == tenant
    ensures var r := Resolve(store, catalog, published, tenant, principal, Endpoint(store[t].slug));
            && (r.Ok? <==> Granted(store, tenant, principal, t))
            && (r.Ok? ==> r.value == Access(Eligible(catalog, published, tenant, principal, {store[t]}),
                                            UnavailableNames(catalog, published, tenant, {store[t]}), Some(store[t])))
  {
    assert HasSlug(store, tenant, store[t].slug, t);
  }

  /** tool is listed by the endpoint of a toolset that is active and granted to the principal. */
  ghost predicate ListedByOne(store: Toolsets, catalog: CatalogView, published: seq<PublishedTool>, tenant: string,
                              principal: string, tool: PublishedTool) {
    exists t :: ListedBy(store, catalog, published, tenant, principal, tool, t)
  }

  ghost predicate ListedBy(store: Toolsets, catalog: CatalogView, published: seq<PublishedTool>, tenant: string,
                           principal: string,
                           tool: PublishedTool, t: string) {
    t in store && store[t].tenant == tenant &&
    var r := Resolve(store, catalog, published, tenant, principal, Endpoint(store[t].slug));
    r.Ok? && tool in r.value.tools
  }

  lemma MemberToolsOf(catalog: CatalogView, tenant: string, toolsets: set<Toolset>, x: string)
    ensures x in MemberTools(catalog, tenant, toolsets) <==>
            exists t <- toolsets :: x in MemberTools(catalog, tenant, {t})
  {
    if x in MemberTools(catalog, tenant, toolsets) {
      var t :| t in toolsets && t.kind.Explicit? && x in ToolIds(t.members) && catalog(tenant, x).Some?;
      assert x in MemberTools(catalog, tenant, {t});
    }
  }

  lemma EligibleOfOne(catalog: CatalogView, published: seq<PublishedTool>, tenant: string, principal: string,
                      toolsets: set<Toolset>, tool: PublishedTool)
    requires NamesDistinct(published)
    ensures tool in Eligible(catalog, published, tenant, principal, toolsets) <==>
            exists t <- toolsets :: tool in Eligible(catalog, published, tenant, principal, {t})
  {
    hide Eligible, MemberTools, VisibleTo;
    EligibleIs(catalog, published, tenant, principal, toolsets);
    MemberToolsOf(catalog, tenant, toolsets, tool.id);
    forall t <- toolsets
      ensures tool in Eligible(catalog, published, tenant, principal, {t}) <==>
              tool in published && VisibleTo(tool, principal) &&
                (t.kind.AllPublished? || tool.id in MemberTools(catalog, tenant, {t}))
    {
      EligibleIs(catalog, published, tenant, principal, {t});
      assert t in {t};
    }
  }

  /**
   The root endpoint lists the union of the endpoints of all active toolsets
   granted to the principal: a tool is on its list exactly if one of them lists it,
   and the list is in strictly ascending order of names, without duplicates.
   */
  lemma RootIsUnion(store: Toolsets, catalog: CatalogView, published: seq<PublishedTool>, tenant: string,
                    principal: string, tool: PublishedTool)
    requires Inv(store) && NamesDistinct(published)
    ensures var root := Resolve(store, catalog, published, tenant, principal, Root);
            && root.Ok? && NamesAscend(root.value.tools)
            && (tool in root.value.tools <==> ListedByOne(store, catalog, published, tenant, principal, tool))
  {
    hide Eligible, AllGood, OneSystem, UnavailableNames, NamesAscend, NamesDistinct, BySlug;
    var toolsets := GrantedActive(store, tenant, principal);
    EligibleIs(catalog, published, tenant, principal, toolsets);
    EligibleOfOne(catalog, published, tenant, principal, toolsets, tool);
    if tool in Eligible(catalog, published, tenant, principal, toolsets) {
      var u :| u in toolsets && tool in Eligible(catalog, published, tenant, principal, {u});
      var t :| t in store && Granted(store, tenant, principal, t) && store[t] == u;
      EndpointGrants(store, catalog, published, tenant, principal, t);
      assert ListedBy(store, catalog, published, tenant, principal, tool, t);
    }
    if t :| ListedBy(store, catalog, published, tenant, principal, tool, t) {
      EndpointGrants(store, catalog, published, tenant, principal, t);
      assert store[t] in toolsets;
    }
  }

  /** So the root list is the only list with these two properties. */
  lemma RootIsTheUnion(store: Toolsets, catalog: CatalogView, published: seq<PublishedTool>, tenant: string,
                       principal: string, union: seq<PublishedTool>)
    requires Inv(store) && NamesDistinct(published) && NamesAscend(union)
    requires forall tool :: tool in union <==> ListedByOne(store, catalog, published, tenant, principal, tool)
    ensures Resolve(store, catalog, published, tenant, principal, Root).value.tools == union
  {
    hide Inv, NamesDistinct, NamesAscend, Resolve, ListedByOne;
    var root := Resolve(store, catalog, published, tenant, principal, Root);
    RootResolves(store, catalog, published, tenant, principal);
    RootAscends(store, catalog, published, tenant, principal);
    forall tool ensures tool in union <==> tool in root.value.tools {
      RootIsUnion(store, catalog, published, tenant, principal, tool);
    }
    AscendingToolsUnique(union, root.value.tools);
  }

  lemma RootResolves(store: Toolsets, catalog: CatalogView, published: seq<PublishedTool>, tenant: string,
                     principal: string)
    ensures Resolve(store, catalog, published, tenant, principal, Root).Ok?
  {
  }

  lemma RootAscends(store: Toolsets, catalog: CatalogView, published: seq<PublishedTool>, tenant: string,
                    principal: string)
    requires NamesDistinct(published)
    ensures NamesAscend(Resolve(store, catalog, published, tenant, principal, Root).value.tools)
  {
    EligibleIs(catalog, published, tenant, principal, GrantedActive(store, tenant, principal));
  }

  /**
   A call is let through exactly if the tool is on the list; the root endpoint lets
   through what some granted endpoint does.
   */
  lemma CallsFollowLists(store: Toolsets, catalog: CatalogView, published: seq<PublishedTool>, tenant: string,
                         principal: string, name: string)
    requires Inv(store) && NamesDistinct(published)
    ensures var root := Resolve(store, catalog, published, tenant, principal, Root);
            root.Ok? &&
            (RequireBusinessTool(root.value, name).None? <==>
             AcceptedByOne(store, catalog, published, tenant, principal, name))
  {
    hide Inv, NamesDistinct, Resolve, ListedByOne;
    RootResolves(store, catalog, published, tenant, principal);
    var root := Resolve(store, catalog, published, tenant, principal, Root);
    if RequireBusinessTool(root.value, name).None? {
      var tool :| tool in root.value.tools && tool.name == name;
      RootIsUnion(store, catalog, published, tenant, principal, tool);
      ListingAccepts(store, catalog, published, tenant, principal, tool);
    }
    if t :| AcceptedBy(store, catalog, published, tenant, principal, name, t) {
      var listed := Resolve(store, catalog, published, tenant, principal, Endpoint(store[t].slug)).value;
      var tool :| tool in listed.tools && tool.name == name;
      RootIsUnion(store, catalog, published, tenant, principal, tool);
      AcceptingLists(store, catalog, published, tenant, principal, tool, t);
    }
  }

  ghost predicate AcceptedBy(store: Toolsets, catalog: CatalogView, published: seq<PublishedTool>, tenant: string,
                             principal: string,
                             name: string, t: string) {
    t in store && store[t].tenant == tenant &&
    var r := Resolve(store, catalog, published, tenant, principal, Endpoint(store[t].slug));
    r.Ok? && RequireBusinessTool(r.value, name).None?
  }

  ghost predicate AcceptedByOne(store: Toolsets, catalog: CatalogView, published: seq<PublishedTool>, tenant: string,
                                principal: string, name: string) {
    exists t :: AcceptedBy(store, catalog, published, tenant, principal, name, t)
  }

  lemma ListingAccepts(store: Toolsets, catalog: CatalogView, published: seq<PublishedTool>, tenant: string,
                       principal: string, tool: PublishedTool)
    requires ListedByOne(store, catalog, published, tenant, principal, tool)
    ensures AcceptedByOne(store, catalog, published, tenant, principal, tool.name)
  {
    hide Resolve;
    var t :| ListedBy(store, catalog, published, tenant, principal, tool, t);
    assert AcceptedBy(store, catalog, published, tenant, principal, tool.name, t);
  }

  lemma AcceptingLists(store: Toolsets, catalog: CatalogView, published: seq<PublishedTool>, tenant: string,
                       principal: string, tool: PublishedTool, t: string)
    requires ListedBy(store, catalog, published, tenant, principal, tool, t)
    ensures ListedByOne(store, catalog, published, tenant, principal, tool)
  {
  }
}
