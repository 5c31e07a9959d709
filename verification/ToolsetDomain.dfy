/** The toolset aggregate: members and grants kept in normal form, and a revision that counts its changes. */
module ToolsetDomain {
  import opened Common
  import opened Text
  import opened Ordering

  datatype Kind = Explicit | AllPublished
  datatype DiscoveryMode = Direct | SearchFirst
  datatype Status = Draft | Active | Disabled

  datatype Member = Member(tenant: string, toolsetId: string, toolId: string, addedBy: string, addedAt: Time)
  datatype Grant = Grant(tenant: string, toolsetId: string, principalId: string, grantedBy: string, grantedAt: Time)

  /** The membership digest, by what it is computed from. */
  datatype Digest = AllPublishedDigest | ExplicitDigest(toolIds: seq<string>)

  datatype Error =
    | RevisionConflict | SystemImmutable | Invalid | NotFound | Conflict | InvalidMembers | MemberUnavailable

  function ToolIds(members: seq<Member>): seq<string> {
    seq(|members|, i requires 0 <= i < |members| => members[i].toolId)
  }

  function PrincipalIds(grants: seq<Grant>): seq<string> {
    seq(|grants|, i requires 0 <= i < |grants| => grants[i].principalId)
  }

  /** Lower-case words joined by single hyphens. */
  predicate IsSlug(s: string) {
    && 0 < |s| <= 64 && s[0] != '-' && s[|s| - 1] != '-'
    && (forall i :: 0 <= i < |s| ==> 'a' <= s[i] <= 'z' || '0' <= s[i] <= '9' || s[i] == '-')
    && (forall i :: 0 <= i < |s| - 1 ==> s[i] != '-' || s[i + 1] != '-')
  }

  const SYSTEM_SLUG := "all-published"

  datatype Toolset = Toolset(
    id: string, tenant: string, slug: string, name: string, description: Option<string>, kind: Kind,
    mode: DiscoveryMode,
    status: Status, revision: int, digest: Digest, createdBy: string, createdAt: Time, updatedAt: Time,
    members: seq<Member>, grants: seq<Grant>)
  {
    predicate Named() {
      && NoneBlank([id, tenant, name, createdBy]) && IsSlug(slug) && |name| <= 128
      && (forall m <- members :: NoneBlank([m.tenant, m.toolsetId, m.toolId, m.addedBy]))
      && (forall g <- grants :: NoneBlank([g.tenant, g.toolsetId, g.principalId, g.grantedBy]))
    }

    /** The checks of the constructor that are not about text. */
    predicate WellFormed() {
      && revision > 0 && createdAt <= updatedAt
      && (kind.AllPublished? ==> slug == SYSTEM_SLUG && members == [])
      && (kind.Explicit? && status.Active? ==> members != [])
      && (forall m <- members :: m.tenant == tenant && m.toolsetId == id) && Distinct(ToolIds(members))
      && (forall g <- grants :: g.tenant == tenant && g.toolsetId == id) && Distinct(PrincipalIds(grants))
      && digest == MembershipDigest(kind, ToolIds(members))
    }

    /** What the constructor does not demand but every operation keeps: ids in ascending order. */
    predicate Normal() {
      Ascending(ToolIds(members)) && Ascending(PrincipalIds(grants))
    }
  }

  function MembershipDigest(kind: Kind, toolIds: seq<string>): Digest {
    if kind.AllPublished? then AllPublishedDigest else ExplicitDigest(Normalized(toolIds))
  }

  /** `_normalized_ids` */
  method NormalizedIds(values: seq<string>) returns (r: Option<seq<string>>)
    ensures r == if NoneBlank(values) then Some(Normalized(values)) else None
  {
    var normalized: seq<string> := [];
    for k := 0 to |values|
      invariant NoneBlank(values[..k]) && normalized == Normalized(values[..k])
    {
      assert values[..k + 1] == values[..k] + [values[k]];
      if Blank(values[k]) {
        assert values[k] in values;
        return None;
      }
      normalized := Insert(normalized, values[k]);
      assert values[..k + 1][..k] == values[..k];
    }
    assert values[..|values|] == values;
    return Some(normalized);
  }

  function Checked(t: Toolset): Result<Toolset, Error> {
    if t.Named() && t.WellFormed() then Ok(t) else Err(Invalid)
  }

  // ---------------------------------------------------------------- creation

  function CreateExplicit(id: string, tenant: string, slug: string, name: string, description: Option<string>,
                          createdBy: string, now: Time, mode: DiscoveryMode): Result<Toolset, Error> {
    Checked(Toolset(id, tenant, slug, name, description, Explicit, mode, Draft, 1, ExplicitDigest([]), createdBy, now,
                    now, [], []))
  }

  function CreateAllPublished(id: string, tenant: string, now: Time): Result<Toolset, Error> {
    Checked(Toolset(id, tenant, SYSTEM_SLUG, "All Published Tools",
                    Some("System-managed view of all current published tools."),
                    AllPublished, SearchFirst, Active, 1, AllPublishedDigest, "system", now, now, [], []))
  }

  // ---------------------------------------------------------------- mutators

  function MutatedAt(t: Toolset, changed: Toolset, now: Time): Result<Toolset, Error> {
    if now < t.updatedAt then Err(Invalid) else Checked(changed.(revision := t.revision + 1, updatedAt := now))
  }

  function UpdateProfile(t: Toolset, expected: int, name: string, description: Option<string>, mode: DiscoveryMode,
                         now: Time)
    : Result<Toolset, Error>
  {
    if expected != t.revision then Err(RevisionConflict)
    else if t.kind.AllPublished? && (t.name != name || t.description != description) then Err(SystemImmutable)
    else if t.name == name && t.description == description && t.mode == mode then Ok(t)
    else MutatedAt(t, t.(name := name, description := description, mode := mode), now)
  }

  function FindMember(members: seq<Member>, toolId: string): Option<Member> {
    if members == [] then None
    else if members[0].toolId == toolId then Some(members[0])
    else FindMember(members[1..], toolId)
  }

  function MemberFor(t: Toolset, toolId: string, actor: string, now: Time): Member {
    match FindMember(t.members, toolId)
    case Some(m) => m
    case None => Member(t.tenant, t.id, toolId, actor, now)
  }

  function MembersFor(t: Toolset, ids: seq<string>, actor: string, now: Time): (members: seq<Member>)
    ensures |members| == |ids| && forall i :: 0 <= i < |ids| ==> members[i] == MemberFor(t, ids[i], actor, now)
  {
    seq(|ids|, i requires 0 <= i < |ids| => MemberFor(t, ids[i], actor, now))
  }

  function ReplaceMembers(t: Toolset, expected: int, toolIds: seq<string>, actor: string,
                          now: Time): Result<Toolset, Error> {
    if expected != t.revision then Err(RevisionConflict)
    else if t.kind.AllPublished? then Err(SystemImmutable)
    else if !NoneBlank(toolIds) then Err(Invalid)
    else
      var ids := Normalized(toolIds);
      if t.status.Active? && ids == [] then Err(Invalid)
      else if ids == ToolIds(t.members) then Ok(t)
      else MutatedAt(t, t.(members := MembersFor(t, ids, actor, now), digest := MembershipDigest(t.kind, ids)), now)
  }

  function FindGrant(grants: seq<Grant>, principalId: string): Option<Grant> {
    if grants == [] then None
    else if grants[0].principalId == principalId then Some(grants[0])
    else FindGrant(grants[1..], principalId)
  }

  function GrantFor(t: Toolset, principalId: string, actor: string, now: Time): Grant {
    match FindGrant(t.grants, principalId)
    case Some(g) => g
    case None => Grant(t.tenant, t.id, principalId, actor, now)
  }

  function GrantsFor(t: Toolset, ids: seq<string>, actor: string, now: Time): (grants: seq<Grant>)
    ensures |grants| == |ids| && forall i :: 0 <= i < |ids| ==> grants[i] == GrantFor(t, ids[i], actor, now)
  {
    seq(|ids|, i requires 0 <= i < |ids| => GrantFor(t, ids[i], actor, now))
  }

  function ReplaceGrants(t: Toolset, expected: int, principalIds: seq<string>, actor: string,
                         now: Time): Result<Toolset, Error> {
    if expected != t.revision then Err(RevisionConflict)
    else if !NoneBlank(principalIds) then Err(Invalid)
    else
      var ids := Normalized(principalIds);
      if ids == PrincipalIds(t.grants) then Ok(t)
      else MutatedAt(t, t.(grants := GrantsFor(t, ids, actor, now)), now)
  }

  function Activate(t: Toolset, expected: int, now: Time): Result<Toolset, Error> {
    if expected != t.revision then Err(RevisionConflict)
    else if t.status.Active? then Ok(t)
    else if t.kind.Explicit? && t.members == [] then Err(Invalid)
    else MutatedAt(t, t.(status := Active), now)
  }

  function Disable(t: Toolset, expected: int, now: Time): Result<Toolset, Error> {
    if expected != t.revision then Err(RevisionConflict)
    else if t.status.Disabled? then Ok(t)
    else if t.kind.AllPublished? then Err(SystemImmutable)
    else MutatedAt(t, t.(status := Disabled), now)
  }

  // ------------------------------------------------- what the mutators keep

  /** Who and what a toolset is, for ever. */
  ghost predicate SameIdentity(t: Toolset, u: Toolset) {
    t.id == u.id && t.tenant == u.tenant && t.slug == u.slug && t.kind == u.kind && t.createdBy == u.createdBy &&
      t.createdAt == u.createdAt
  }

  ghost predicate Good(t: Toolset) {
    t.Named() && t.WellFormed() && t.Normal()
  }

  /** A mutation: nothing, or one revision more, later, of the same toolset, still well formed and in normal form. */
  ghost predicate Mutation(t: Toolset, expected: int, r: Result<Toolset, Error>, now: Time) {
    && (expected != t.revision ==> r == Err(RevisionConflict))
    && (r.Ok? ==>
          && Good(r.value) && SameIdentity(t, r.value)
          && (r.value == t || (r.value.revision == t.revision + 1 && r.value.updatedAt == now >= t.updatedAt)))
  }

  lemma {:induction false} FoundMember(members: seq<Member>, toolId: string)
    ensures var found := FindMember(members, toolId);
            && (found.Some? ==> found.value in members && found.value.toolId == toolId)
            && (found.None? ==> toolId !in ToolIds(members))
  {
    if members != [] && members[0].toolId != toolId {
      FoundMember(members[1..], toolId);
      assert ToolIds(members) == [members[0].toolId] + ToolIds(members[1..]);
    }
  }

  lemma {:induction false} FoundGrant(grants: seq<Grant>, principalId: string)
    ensures var found := FindGrant(grants, principalId);
            && (found.Some? ==> found.value in grants && found.value.principalId == principalId)
            && (found.None? ==> principalId !in PrincipalIds(grants))
  {
    if grants != [] && grants[0].principalId != principalId {
      FoundGrant(grants[1..], principalId);
      assert PrincipalIds(grants) == [grants[0].principalId] + PrincipalIds(grants[1..]);
    }
  }

  /** The replaced members are exactly the requested ids, and each kept member is the very record it was. */
  lemma MembersForAre(t: Toolset, ids: seq<string>, actor: string, now: Time)
    ensures ToolIds(MembersFor(t, ids, actor, now)) == ids
    ensures forall m <- MembersFor(t, ids, actor, now) ::
              m.toolId in ids &&
                (m in t.members ||
                 (m.toolId !in ToolIds(t.members) && m == Member(t.tenant, t.id, m.toolId, actor, now)))
  {
    forall i | 0 <= i < |ids| ensures MemberFor(t, ids[i], actor, now).toolId == ids[i] {
      FoundMember(t.members, ids[i]);
    }
    forall m <- MembersFor(t, ids, actor, now)
      ensures m.toolId in ids
      ensures (m in t.members || (m.toolId !in ToolIds(t.members) && m == Member(t.tenant, t.id, m.toolId, actor, now)))
    {
      var i :| 0 <= i < |ids| && MembersFor(t, ids, actor, now)[i] == m;
      FoundMember(t.members, ids[i]);
    }
  }

  lemma GrantsForAre(t: Toolset, ids: seq<string>, actor: string, now: Time)
    ensures PrincipalIds(GrantsFor(t, ids, actor, now)) == ids
    ensures forall g <- GrantsFor(t, ids, actor, now) ::
              g.principalId in ids &&
                (g in t.grants ||
                 (g.principalId !in PrincipalIds(t.grants) && g == Grant(t.tenant, t.id, g.principalId, actor, now)))
  {
    forall i | 0 <= i < |ids| ensures GrantFor(t, ids[i], actor, now).principalId == ids[i] {
      FoundGrant(t.grants, ids[i]);
    }
    forall g <- GrantsFor(t, ids, actor, now)
      ensures g.principalId in ids
      ensures (g in t.grants ||
               (g.principalId !in PrincipalIds(t.grants) && g == Grant(t.tenant, t.id, g.principalId, actor, now)))
    {
      var i :| 0 <= i < |ids| && GrantsFor(t, ids, actor, now)[i] == g;
      FoundGrant(t.grants, ids[i]);
    }
  }

  lemma UpdateProfileMutates(t: Toolset, expected: int, name: string, description: Option<string>, mode: DiscoveryMode,
                             now: Time)
    requires Good(t)
    ensures Mutation(t, expected, UpdateProfile(t, expected, name, description, mode, now), now)
  {
  }

  lemma ReplaceMembersMutates(t: Toolset, expected: int, toolIds: seq<string>, actor: string, now: Time)
    requires Good(t)
    ensures Mutation(t, expected, ReplaceMembers(t, expected, toolIds, actor, now), now)
  {
    NormalizedIs(toolIds);
    MembersForAre(t, Normalized(toolIds), actor, now);
  }

  lemma ReplaceGrantsMutates(t: Toolset, expected: int, principalIds: seq<string>, actor: string, now: Time)
    requires Good(t)
    ensures Mutation(t, expected, ReplaceGrants(t, expected, principalIds, actor, now), now)
  {
    NormalizedIs(principalIds);
    GrantsForAre(t, Normalized(principalIds), actor, now);
  }

  lemma ActivateMutates(t: Toolset, expected: int, now: Time)
    requires Good(t)
    ensures Mutation(t, expected, Activate(t, expected, now), now)
  {
  }

  lemma DisableMutates(t: Toolset, expected: int, now: Time)
    requires Good(t)
    ensures Mutation(t, expected, Disable(t, expected, now), now)
  {
  }

  predicate AllMembers(t: Toolset, toolIds: seq<string>) {
    forall x <- toolIds :: x in ToolIds(t.members)
  }

  /** The new member list passes the constructor's text checks exactly if nobody new is added by a blank actor. */
  lemma NewMembersNamed(t: Toolset, ids: seq<string>, actor: string, now: Time)
    requires Good(t) && NoneBlank(ids)
    ensures var members := MembersFor(t, ids, actor, now);
            (forall m <- members :: NoneBlank([m.tenant, m.toolsetId, m.toolId, m.addedBy])) <==>
              AllMembers(t, ids) || !Blank(actor)
  {
    MembersForAre(t, ids, actor, now);
    var members := MembersFor(t, ids, actor, now);
    if !AllMembers(t, ids) {
      var x :| x in ids && x !in ToolIds(t.members);
      var i :| 0 <= i < |ids| && ids[i] == x;
      FoundMember(t.members, x);
      NotMember(t, members[i]);
      assert members[i] in members && members[i].addedBy == actor;
    }
    forall m <- members ensures AllMembers(t, ids) ==> m in t.members {
      var i :| 0 <= i < |ids| && members[i] == m;
      FoundMember(t.members, ids[i]);
    }
    assert !Blank(actor) ==> NoneBlank([t.tenant, t.id, actor]);
  }

  lemma NotMember(t: Toolset, m: Member)
    requires m.toolId !in ToolIds(t.members)
    ensures m !in t.members
  {
    forall i | 0 <= i < |t.members| ensures t.members[i] != m {
      assert ToolIds(t.members)[i] == t.members[i].toolId;
    }
  }

  /**
   Replacing members succeeds exactly under these conditions, changes nothing
   exactly if the requested tools are the present ones as a set, and then holds
   exactly the requested tools, the ones already there with their provenance.
   */
  lemma ReplaceMembersExactly(t: Toolset, toolIds: seq<string>, actor: string, now: Time)
    requires Good(t)
    ensures var same, r := SameTools(t, toolIds), ReplaceMembers(t, t.revision, toolIds, actor, now);
            && (r.Ok? <==>
                  && t.kind.Explicit? && NoneBlank(toolIds) && (t.status.Active? ==> toolIds != [])
                  && (same || (now >= t.updatedAt && (AllMembers(t, toolIds) || !Blank(actor)))))
            && (r.Ok? ==> (r.value == t <==> same))
            && (r.Ok? ==> forall x :: x in ToolIds(r.value.members) <==> x in toolIds)
            && (r.Ok? ==>
                forall m <- r.value.members ::
                  m in t.members || (m.toolId !in ToolIds(t.members) && m.addedBy == actor && m.addedAt == now))
  {
    NormalizedIs(toolIds);
    var ids := Normalized(toolIds);
    MembersForAre(t, ids, actor, now);
    if SameTools(t, toolIds) { AscendingUnique(ids, ToolIds(t.members)); }
    assert toolIds != [] ==> toolIds[0] in ids;
    assert ids != [] ==> ids[0] in toolIds;
    NormalizedFixed(ids);
    if t.kind.Explicit? && NoneBlank(toolIds) && (t.status.Active? ==> ids != []) && now >= t.updatedAt {
      ReplacedMembersOk(t, ids, actor, now);
    }
  }

  predicate SameTools(t: Toolset, toolIds: seq<string>) {
    (forall x <- toolIds :: x in ToolIds(t.members)) && (forall x <- ToolIds(t.members) :: x in toolIds)
  }

  lemma ReplacedMembersOk(t: Toolset, ids: seq<string>, actor: string, now: Time)
    requires Good(t) && t.kind.Explicit? && Ascending(ids) && NoneBlank(ids) && (t.status.Active? ==> ids != [])
    requires now >= t.updatedAt
    ensures var changed := t.(members := MembersFor(t, ids, actor, now), digest := MembershipDigest(t.kind, ids));
            MutatedAt(t, changed, now).Ok? <==> AllMembers(t, ids) || !Blank(actor)
  {
    MembersForAre(t, ids, actor, now);
    NewMembersNamed(t, ids, actor, now);
    forall i, j | 0 <= i < j < |ids| ensures ids[i] != ids[j] { AscendingIsDistinct(ids, i, j); }
    assert forall m <- MembersFor(t, ids, actor, now) :: m.tenant == t.tenant && m.toolsetId == t.id;
  }

  // ------------------------------------------------------------------ grants

  predicate AllGranted(t: Toolset, principalIds: seq<string>) {
    forall p <- principalIds :: p in PrincipalIds(t.grants)
  }

  predicate SamePrincipals(t: Toolset, principalIds: seq<string>) {
    AllGranted(t, principalIds) && forall p <- PrincipalIds(t.grants) :: p in principalIds
  }

  /** The new grants pass the constructor's text checks exactly if nobody new is admitted by a blank actor. */
  lemma NewGrantsNamed(t: Toolset, ids: seq<string>, actor: string, now: Time)
    requires Good(t) && NoneBlank(ids)
    ensures var grants := GrantsFor(t, ids, actor, now);
            (forall g <- grants :: NoneBlank([g.tenant, g.toolsetId, g.principalId, g.grantedBy])) <==>
              AllGranted(t, ids) || !Blank(actor)
  {
    GrantsForAre(t, ids, actor, now);
    var grants := GrantsFor(t, ids, actor, now);
    if !AllGranted(t, ids) {
      var x :| x in ids && x !in PrincipalIds(t.grants);
      var i :| 0 <= i < |ids| && ids[i] == x;
      FoundGrant(t.grants, x);
      NotGranted(t, grants[i]);
      assert grants[i] in grants && grants[i].grantedBy == actor;
    }
    forall g <- grants ensures AllGranted(t, ids) ==> g in t.grants {
      var i :| 0 <= i < |ids| && grants[i] == g;
      FoundGrant(t.grants, ids[i]);
    }
    assert !Blank(actor) ==> NoneBlank([t.tenant, t.id, actor]);
  }

  lemma NotGranted(t: Toolset, g: Grant)
    requires g.principalId !in PrincipalIds(t.grants)
    ensures g !in t.grants
  {
    forall i | 0 <= i < |t.grants| ensures t.grants[i] != g {
      assert PrincipalIds(t.grants)[i] == t.grants[i].principalId;
    }
  }

  lemma ReplacedGrantsOk(t: Toolset, ids: seq<string>, actor: string, now: Time)
    requires Good(t) && Ascending(ids) && NoneBlank(ids) && now >= t.updatedAt
    ensures MutatedAt(t, t.(grants := GrantsFor(t, ids, actor, now)), now).Ok? <==> AllGranted(t, ids) || !Blank(actor)
  {
    GrantsForAre(t, ids, actor, now);
    NewGrantsNamed(t, ids, actor, now);
    forall i, j | 0 <= i < j < |ids| ensures ids[i] != ids[j] { AscendingIsDistinct(ids, i, j); }
    assert forall g <- GrantsFor(t, ids, actor, now) :: g.tenant == t.tenant && g.toolsetId == t.id;
  }

  /**
   Replacing grants succeeds exactly under these conditions, changes nothing
   exactly if the requested principals are the present ones as a set, and then
   admits exactly the requested principals, those already there with the record
   of who granted it.
   */
  lemma ReplaceGrantsExactly(t: Toolset, principalIds: seq<string>, actor: string, now: Time)
    requires Good(t)
    ensures var same, r := SamePrincipals(t, principalIds), ReplaceGrants(t, t.revision, principalIds, actor, now);
            && (r.Ok? <==>
                  && NoneBlank(principalIds)
                  && (same || (now >= t.updatedAt && (AllGranted(t, principalIds) || !Blank(actor)))))
            && (r.Err? ==> r.error == Invalid)
            && (r.Ok? ==> (r.value == t <==> same))
            && (r.Ok? ==> forall p :: p in PrincipalIds(r.value.grants) <==> p in principalIds)
            && (r.Ok? ==>
                forall g <- r.value.grants ::
                  g in t.grants ||
                  (g.principalId !in PrincipalIds(t.grants) && g.grantedBy == actor && g.grantedAt == now))
  {
    NormalizedIs(principalIds);
    var ids := Normalized(principalIds);
    GrantsForAre(t, ids, actor, now);
    if SamePrincipals(t, principalIds) { AscendingUnique(ids, PrincipalIds(t.grants)); }
    if NoneBlank(principalIds) && now >= t.updatedAt {
      ReplacedGrantsOk(t, ids, actor, now);
    }
  }
}
