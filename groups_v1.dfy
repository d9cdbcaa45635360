/** The group syncer as pkg/connector/groups.go has it: access levels become
    view and invite permissions that groups hold, and every group of the
    enterprise is granted them on the group being synchronised. */
module GroupsV1 {
  import opened Wrappers
  import opened BoxModels
  import opened Sdk
  import ResourceTypes
  import opened GoMaps
  import opened GroupCommon
  import UserSyncer
  import opened BoxClient

  // ---------------------------------------------------------------- catalog

  function AssignmentEntitlement(resource: Resource, slug: string): (e: Entitlement)
    ensures e == Entitlement(resource.id, slug, Assignment, ["user"],
                             slug + " of " + resource.displayName + " Group in Box",
                             resource.displayName + " Group " + slug)
  {
    NewEntitlementThree(resource, slug, Assignment, [ResourceTypes.UserType],
                        slug + " of " + resource.displayName + " Group in Box",
                        resource.displayName + " Group " + slug);
    ResourceTypes.SingleTypeIds();
    NewAssignmentEntitlement(resource, slug,
      [WithGrantableTo([ResourceTypes.UserType]),
       WithDescription(slug + " of " + resource.displayName + " Group in Box"),
       WithDisplayName(resource.displayName + " Group " + slug)])
  }

  function ViewEntitlement(resource: Resource, levelName: string): (e: Entitlement)
    ensures e == Entitlement(resource.id, levelName + " view", Permission, ["group"],
                             "Member viewability level for " + resource.displayName + " group",
                             resource.displayName + " group " + levelName + " view")
  {
    NewEntitlementThree(resource, levelName + " view", Permission, [ResourceTypes.GroupType],
                        "Member viewability level for " + resource.displayName + " group",
                        resource.displayName + " group " + levelName + " view");
    ResourceTypes.SingleTypeIds();
    NewPermissionEntitlement(resource, levelName + " view",
      [WithGrantableTo([ResourceTypes.GroupType]),
       WithDescription("Member viewability level for " + resource.displayName + " group"),
       WithDisplayName(resource.displayName + " group " + levelName + " view")])
  }

  function InviteEntitlement(resource: Resource, levelName: string): (e: Entitlement)
    ensures e == Entitlement(resource.id, levelName + " invite", Permission, ["group"],
                             "Invitability level for " + resource.displayName + " group",
                             resource.displayName + " group " + levelName + " invite")
  {
    NewEntitlementThree(resource, levelName + " invite", Permission, [ResourceTypes.GroupType],
                        "Invitability level for " + resource.displayName + " group",
                        resource.displayName + " group " + levelName + " invite");
    ResourceTypes.SingleTypeIds();
    NewPermissionEntitlement(resource, levelName + " invite",
      [WithGrantableTo([ResourceTypes.GroupType]),
       WithDescription("Invitability level for " + resource.displayName + " group"),
       WithDisplayName(resource.displayName + " group " + levelName + " invite")])
  }

  /** The view and invite pairs, one pair per level key visited. */
  function LevelEntitlements(resource: Resource, order: seq<string>): seq<Entitlement>
    requires forall k :: k in order ==> k in AccessLevels
    decreases |order|
  {
    if order == [] then []
    else
      var levelName := AccessLevels[order[|order| - 1]];
      LevelEntitlements(resource, order[..|order| - 1]) + [ViewEntitlement(resource, levelName), InviteEntitlement(resource, levelName)]
  }

  /** All entitlements of a group, for one visiting order of the levels. */
  function Catalog(resource: Resource, order: seq<string>): seq<Entitlement>
    requires forall k :: k in order ==> k in AccessLevels
  {
    [AssignmentEntitlement(resource, MemberSlug), AssignmentEntitlement(resource, AdminSlug)]
      + LevelEntitlements(resource, order)
  }

  /** Entitlements: the two assignments, then the level pairs in visiting order. */
  method Entitlements(resource: Resource, order: seq<string>) returns (rv: seq<Entitlement>)
    requires Enumerates(order, AccessLevels)
    ensures rv == Catalog(resource, order)
  {
    rv := [];
    for i := 0 to |AssignmentSlugs|
      invariant |rv| == i
      invariant forall j :: 0 <= j < i ==> rv[j] == AssignmentEntitlement(resource, AssignmentSlugs[j])
    {
      rv := rv + [AssignmentEntitlement(resource, AssignmentSlugs[i])];
    }
    ghost var assignments := rv;
    assert assignments == [AssignmentEntitlement(resource, MemberSlug), AssignmentEntitlement(resource, AdminSlug)];
    for i := 0 to |order|
      invariant rv == assignments + LevelEntitlements(resource, order[..i])
    {
      var levelName := AccessLevels[order[i]];
      assert order[..i + 1][..i] == order[..i];
      rv := rv + [ViewEntitlement(resource, levelName), InviteEntitlement(resource, levelName)];
    }
    assert order[..|order|] == order;
  }

  lemma {:induction false} LevelEntitlementsFacts(resource: Resource, order: seq<string>)
    requires forall k :: k in order ==> k in AccessLevels
    ensures |LevelEntitlements(resource, order)| == 2 * |order|
    ensures forall i :: 0 <= i < |LevelEntitlements(resource, order)| ==>
      var e := LevelEntitlements(resource, order)[i]; e.kind == Permission && e.grantableTo == ["group"] && e.resource == resource.id
    ensures forall e :: e in LevelEntitlements(resource, order) <==>
      exists k :: k in order && (e == ViewEntitlement(resource, AccessLevels[k]) || e == InviteEntitlement(resource, AccessLevels[k]))
    decreases |order|
  {
    if order != [] {
      var front := order[..|order| - 1];
      var last := order[|order| - 1];
      LevelEntitlementsFacts(resource, front);
      assert forall k :: k in order <==> k in front || k == last;
    }
  }

  /** Eight entitlements whatever the visiting order: member and admin, grantable
      to users, then six permissions grantable to groups. */
  lemma CatalogShape(resource: Resource, order: seq<string>)
    requires Enumerates(order, AccessLevels)
    ensures var c := Catalog(resource, order);
      && |c| == 8
      && c[0].slug == MemberSlug && c[1].slug == AdminSlug
      && (forall i :: 0 <= i < 2 ==> c[i].kind == Assignment && c[i].grantableTo == ["user"])
      && (forall i :: 2 <= i < 8 ==> c[i].kind == Permission && c[i].grantableTo == ["group"])
      && (forall e :: e in c ==> e.resource == resource.id)
  {
    EnumerationLength(order, AccessLevels);
    LevelEntitlementsFacts(resource, order);
    var c := Catalog(resource, order);
    assert forall i :: 2 <= i < |c| ==> c[i] == LevelEntitlements(resource, order)[i - 2];
  }

  /** The catalog's entries, independently of the visiting order: the two
      assignments and a view and an invite permission for every access level. */
  lemma CatalogMembers(resource: Resource, order: seq<string>)
    requires Enumerates(order, AccessLevels)
    ensures forall e :: e in Catalog(resource, order) <==>
      || e == AssignmentEntitlement(resource, MemberSlug)
      || e == AssignmentEntitlement(resource, AdminSlug)
      || exists k :: k in AccessLevels && (e == ViewEntitlement(resource, AccessLevels[k]) || e == InviteEntitlement(resource, AccessLevels[k]))
  {
    LevelEntitlementsFacts(resource, order);
  }

  // ---------------------------------------------------------------- grants

  /** Both of a group's levels are keys of the access-level table. */
  predicate BothKnown(g: Group) {
    g.invitabilityLevel in AccessLevels && g.memberViewabilityLevel in AccessLevels
  }

  function InviteGrant(resource: Resource, g: Group): Grant
    requires g.invitabilityLevel in AccessLevels
  {
    NewGrant(resource, AccessLevels[g.invitabilityLevel] + " invite", GroupResource(g, resource.id).id)
  }

  function ViewGrant(resource: Resource, g: Group): Grant
    requires g.memberViewabilityLevel in AccessLevels
  {
    NewGrant(resource, AccessLevels[g.memberViewabilityLevel] + " view", GroupResource(g, resource.id).id)
  }

  /** The level grants over a list of groups: an invite and a view grant per group
      whose levels are both known, the other groups skipped. */
  function LevelGrants(resource: Resource, groups: seq<Group>): seq<Grant>
    decreases |groups|
  {
    if groups == [] then []
    else
      var g := groups[|groups| - 1];
      var front := LevelGrants(resource, groups[..|groups| - 1]);
      if BothKnown(g) then front + [InviteGrant(resource, g), ViewGrant(resource, g)] else front
  }

  /** The groups whose levels are both known, in order. */
  function KnownGroups(groups: seq<Group>): (known: seq<Group>)
    ensures forall g :: g in known <==> g in groups && BothKnown(g)
    ensures |known| <= |groups|
    decreases |groups|
  {
    if groups == [] then []
    else
      var g := groups[|groups| - 1];
      var front := KnownGroups(groups[..|groups| - 1]);
      assert forall h :: h in groups <==> h in groups[..|groups| - 1] || h == g;
      if BothKnown(g) then front + [g] else front
  }

  /** Filtering a concatenation whose second part is not empty looks at that
      part's last element last. */
  lemma KnownGroupsSplitLast(a: seq<Group>, b: seq<Group>)
    requires b != []
    ensures var front, u := b[..|b| - 1], b[|b| - 1];
      && KnownGroups(a + b) == (if BothKnown(u) then KnownGroups(a + front) + [u] else KnownGroups(a + front))
      && KnownGroups(b) == (if BothKnown(u) then KnownGroups(front) + [u] else KnownGroups(front))
  {
    var ab := a + b;
    assert ab[..|ab| - 1] == a + b[..|b| - 1];
    assert ab[|ab| - 1] == b[|b| - 1];
  }

  /** Filtering keeps order: the known groups of a concatenation are those of each part, in turn. */
  lemma {:induction false} KnownGroupsAppend(a: seq<Group>, b: seq<Group>)
    ensures KnownGroups(a + b) == KnownGroups(a) + KnownGroups(b)
    decreases |b|
  {
    if b == [] {
      assert a + b == a;
    } else {
      KnownGroupsAppend(a, b[..|b| - 1]);
      KnownGroupsSplitLast(a, b);
    }
  }

  /** The grants of one group resource, given its memberships and every group of
      the enterprise. */
  function GrantsOf(resource: Resource, ms: seq<GroupMembership>, groups: seq<Group>): seq<Grant> {
    RoleGrants(resource, ms) + LevelGrants(resource, groups)
  }

  /** The two loops of Grants: the membership grants, then the level grants. */
  method ResolveGrants(resource: Resource, ms: seq<GroupMembership>, groups: seq<Group>) returns (rv: seq<Grant>)
    ensures rv == GrantsOf(resource, ms, groups)
  {
    var memberships := ResolveMemberships(resource, ms);
    var levels := ResolveLevels(resource, groups);
    rv := memberships + levels;
  }

  /** The first loop of Grants: one role grant per membership. */
  method ResolveMemberships(resource: Resource, ms: seq<GroupMembership>) returns (rv: seq<Grant>)
    ensures rv == RoleGrants(resource, ms)
  {
    rv := [];
    for i := 0 to |ms|
      invariant rv == RoleGrants(resource, ms[..i])
    {
      assert ms[..i + 1][..i] == ms[..i];
      rv := rv + [RoleGrant(resource, ms[i])];
    }
    assert ms[..|ms|] == ms;
  }

  /** The second loop of Grants: the level grants, skipping a group with an
      unknown level. */
  method ResolveLevels(resource: Resource, groups: seq<Group>) returns (rv: seq<Grant>)
    ensures rv == LevelGrants(resource, groups)
  {
    rv := [];
    for i := 0 to |groups|
      invariant rv == LevelGrants(resource, groups[..i])
    {
      assert groups[..i + 1][..i] == groups[..i];
      var g := groups[i];
      if g.invitabilityLevel !in AccessLevels {
        continue;
      }
      if g.memberViewabilityLevel !in AccessLevels {
        continue;
      }
      rv := rv + [InviteGrant(resource, g), ViewGrant(resource, g)];
    }
    assert groups[..|groups|] == groups;
  }

  lemma {:induction false} LevelGrantsFacts(resource: Resource, groups: seq<Group>)
    ensures |LevelGrants(resource, groups)| == 2 * |KnownGroups(groups)|
    ensures forall x :: x in LevelGrants(resource, groups) <==>
      exists g :: g in groups && BothKnown(g) && (x == InviteGrant(resource, g) || x == ViewGrant(resource, g))
    decreases |groups|
  {
    if groups != [] {
      var front := groups[..|groups| - 1];
      LevelGrantsFacts(resource, front);
      assert forall h :: h in groups <==> h in front || h == groups[|groups| - 1];
    }
  }

  /** The shape of a group's grants: one per membership, first and in order, then
      two per enterprise group with both levels known, held by that group. */
  lemma GrantsOfFacts(resource: Resource, ms: seq<GroupMembership>, groups: seq<Group>)
    ensures var gs := GrantsOf(resource, ms, groups);
      && |gs| == |ms| + 2 * |KnownGroups(groups)|
      && (forall i :: 0 <= i < |ms| ==> gs[i] == RoleGrant(resource, ms[i]))
      && (forall i :: |ms| <= i < |gs| ==> gs[i].principal.resourceType == ResourceTypes.GroupType.id)
      && (forall x :: x in gs ==> x.resource == resource.id)
  {
    LevelGrantsFacts(resource, groups);
    var gs := GrantsOf(resource, ms, groups);
    var levels := LevelGrants(resource, groups);
    forall i | |ms| <= i < |gs|
      ensures gs[i].principal.resourceType == ResourceTypes.GroupType.id
    {
      assert gs[i] == levels[i - |ms|];
      assert levels[i - |ms|] in levels;
    }
    forall x | x in gs
      ensures x.resource == resource.id
    {
      if x in levels {
      }
    }
  }

  /** Every level grant names an entitlement of the catalog, whatever the order
      in which the catalog visited the levels. */
  lemma LevelGrantsInCatalog(resource: Resource, groups: seq<Group>, order: seq<string>)
    requires Enumerates(order, AccessLevels)
    ensures forall x :: x in LevelGrants(resource, groups) ==>
      exists e :: e in Catalog(resource, order) && e.slug == x.slug && e.kind == Permission
  {
    LevelGrantsFacts(resource, groups);
    LevelEntitlementsFacts(resource, order);
    var c := Catalog(resource, order);
    forall x | x in LevelGrants(resource, groups)
      ensures exists e :: e in c && e.slug == x.slug && e.kind == Permission
    {
      var g :| g in groups && BothKnown(g) && (x == InviteGrant(resource, g) || x == ViewGrant(resource, g));
      if x == InviteGrant(resource, g) {
        var e := InviteEntitlement(resource, AccessLevels[g.invitabilityLevel]);
        assert e in LevelEntitlements(resource, order);
        assert e in c;
      } else {
        var e := ViewEntitlement(resource, AccessLevels[g.memberViewabilityLevel]);
        assert e in LevelEntitlements(resource, order);
        assert e in c;
      }
    }
  }

  /** What Grants fetches and returns: the memberships, then the groups; either
      error is returned as it came, with no grants. */
  function GrantsCall(s: Server, resource: Resource, rec: ErrorRecord): Call<seq<Grant>>
    requires s.WellBehaved()
  {
    var m := MembershipsRun(s, resource.id.resource, rec);
    if m.result.Failure? then Call(Failure(m.result.error), m.rec, m.sent)
    else
      var g := GroupsRun(s, m.rec);
      if g.result.Failure? then Call(Failure(g.result.error), g.rec, m.sent + g.sent)
      else Call(Success(GrantsOf(resource, m.result.value, g.result.value)), g.rec, m.sent + g.sent)
  }

  method Grants(client: Client, s: Server, resource: Resource) returns (r: Result<seq<Grant>, string>)
    requires s.WellBehaved()
    modifies client
    ensures var c := GrantsCall(s, resource, old(client.errorResponse));
      r == c.result && client.errorResponse == c.rec && client.sent == old(client.sent) + c.sent
  {
    var ms := client.GetGroupMemberships(s, resource.id.resource);
    if ms.Failure? {
      return Failure(ms.error);
    }
    var groups := client.GetGroups(s);
    if groups.Failure? {
      return Failure(groups.error);
    }
    var rv := ResolveGrants(resource, ms.value, groups.value);
    r := Success(rv);
  }
}
