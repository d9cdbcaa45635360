/** The group syncer as pkg/connector/group.go has it: one permission per access
    level, held by users, granted from the group's own member-viewability level. */
module GroupV2 {
  import opened Wrappers
  import opened BoxModels
  import opened Sdk
  import ResourceTypes
  import opened GoMaps
  import opened GroupCommon
  import UserSyncer
  import opened BoxClient

  // ---------------------------------------------------------------- catalog

  function AssignmentEntitlement(resource: Resource, slug: string, titleCase: string -> string): (e: Entitlement)
    ensures e == Entitlement(resource.id, slug, Assignment, ["user"],
                             titleCase(slug) + " of " + resource.displayName + " group in Box",
                             resource.displayName + " group " + slug)
  {
    NewEntitlementThree(resource, slug, Assignment, [ResourceTypes.UserType],
                        titleCase(slug) + " of " + resource.displayName + " group in Box",
                        resource.displayName + " group " + slug);
    ResourceTypes.SingleTypeIds();
    NewAssignmentEntitlement(resource, slug,
      [WithGrantableTo([ResourceTypes.UserType]),
       WithDescription(titleCase(slug) + " of " + resource.displayName + " group in Box"),
       WithDisplayName(resource.displayName + " group " + slug)])
  }

  /** A level's permission: its slug is the level's label itself. */
  function LevelPermission(resource: Resource, levelName: string, titleCase: string -> string): (e: Entitlement)
    ensures e == Entitlement(resource.id, levelName, Permission, ["user"],
                             "View and invite permission for " + resource.displayName + " group",
                             titleCase(levelName) + " permissions for " + resource.displayName + " group")
  {
    NewEntitlementThree(resource, levelName, Permission, [ResourceTypes.UserType],
                        "View and invite permission for " + resource.displayName + " group",
                        titleCase(levelName) + " permissions for " + resource.displayName + " group");
    ResourceTypes.SingleTypeIds();
    NewPermissionEntitlement(resource, levelName,
      [WithGrantableTo([ResourceTypes.UserType]),
       WithDescription("View and invite permission for " + resource.displayName + " group"),
       WithDisplayName(titleCase(levelName) + " permissions for " + resource.displayName + " group")])
  }

  function LevelEntitlements(resource: Resource, order: seq<string>, titleCase: string -> string): seq<Entitlement>
    requires forall k :: k in order ==> k in AccessLevels
    decreases |order|
  {
    if order == [] then []
    else
      LevelEntitlements(resource, order[..|order| - 1], titleCase)
        + [LevelPermission(resource, AccessLevels[order[|order| - 1]], titleCase)]
  }

  function Catalog(resource: Resource, order: seq<string>, titleCase: string -> string): seq<Entitlement>
    requires forall k :: k in order ==> k in AccessLevels
  {
    [AssignmentEntitlement(resource, MemberSlug, titleCase), AssignmentEntitlement(resource, AdminSlug, titleCase)]
      + LevelEntitlements(resource, order, titleCase)
  }

  /** Entitlements: the two assignments, then one permission per level in visiting order. */
  method Entitlements(resource: Resource, order: seq<string>, titleCase: string -> string) returns (rv: seq<Entitlement>)
    requires Enumerates(order, AccessLevels)
    ensures rv == Catalog(resource, order, titleCase)
  {
    rv := [];
    for i := 0 to |AssignmentSlugs|
      invariant |rv| == i
      invariant forall j :: 0 <= j < i ==> rv[j] == AssignmentEntitlement(resource, AssignmentSlugs[j], titleCase)
    {
      rv := rv + [AssignmentEntitlement(resource, AssignmentSlugs[i], titleCase)];
    }
    ghost var assignments := rv;
    assert assignments == [AssignmentEntitlement(resource, MemberSlug, titleCase), AssignmentEntitlement(resource, AdminSlug, titleCase)];
    for i := 0 to |order|
      invariant rv == assignments + LevelEntitlements(resource, order[..i], titleCase)
    {
      assert order[..i + 1][..i] == order[..i];
      rv := rv + [LevelPermission(resource, AccessLevels[order[i]], titleCase)];
    }
    assert order[..|order|] == order;
  }

  lemma {:induction false} LevelEntitlementsFacts(resource: Resource, order: seq<string>, titleCase: string -> string)
    requires forall k :: k in order ==> k in AccessLevels
    ensures |LevelEntitlements(resource, order, titleCase)| == |order|
    ensures forall i :: 0 <= i < |LevelEntitlements(resource, order, titleCase)| ==>
      var e := LevelEntitlements(resource, order, titleCase)[i]; e.kind == Permission && e.grantableTo == ["user"] && e.resource == resource.id
    ensures forall e :: e in LevelEntitlements(resource, order, titleCase) <==>
      exists k :: k in order && e == LevelPermission(resource, AccessLevels[k], titleCase)
    decreases |order|
  {
    if order != [] {
      var front := order[..|order| - 1];
      LevelEntitlementsFacts(resource, front, titleCase);
      assert forall k :: k in order <==> k in front || k == order[|order| - 1];
    }
  }

  /** Five entitlements whatever the visiting order, all grantable to users:
      member and admin, then three permissions. */
  lemma CatalogShape(resource: Resource, order: seq<string>, titleCase: string -> string)
    requires Enumerates(order, AccessLevels)
    ensures var c := Catalog(resource, order, titleCase);
      && |c| == 5
      && c[0].slug == MemberSlug && c[1].slug == AdminSlug
      && (forall i :: 0 <= i < 2 ==> c[i].kind == Assignment)
      && (forall i :: 2 <= i < 5 ==> c[i].kind == Permission)
      && (forall e :: e in c ==> e.resource == resource.id && e.grantableTo == ["user"])
  {
    EnumerationLength(order, AccessLevels);
    LevelEntitlementsFacts(resource, order, titleCase);
    var c := Catalog(resource, order, titleCase);
    assert forall i :: 2 <= i < |c| ==> c[i] == LevelEntitlements(resource, order, titleCase)[i - 2];
  }

  /** The permissions' slugs are exactly the three level labels. */
  lemma CatalogMembers(resource: Resource, order: seq<string>, titleCase: string -> string)
    requires Enumerates(order, AccessLevels)
    ensures forall e :: e in Catalog(resource, order, titleCase) <==>
      || e == AssignmentEntitlement(resource, MemberSlug, titleCase)
      || e == AssignmentEntitlement(resource, AdminSlug, titleCase)
      || exists k :: k in AccessLevels && e == LevelPermission(resource, AccessLevels[k], titleCase)
  {
    LevelEntitlementsFacts(resource, order, titleCase);
  }

  // ---------------------------------------------------------------- grants

  const AllManagedLabel := AccessLevels[AllManagedUsers]
  const AdminsOnlyLabel := AccessLevels[AdminsOnly]
  const AdminsAndMembersLabel := AccessLevels[AdminsAndMembers]

  function UserGrant(resource: Resource, slug: string, user: User): (g: Grant)
    ensures g == Grant(resource.id, slug, ResourceId(ResourceTypes.UserType.id, user.base.id))
  {
    NewGrant(resource, slug, UserSyncer.UserResource(user, resource.id).id)
  }

  /** The "all managed users" grant for every user of the enterprise, in order. */
  function FanOut(resource: Resource, users: seq<User>): (gs: seq<Grant>)
    ensures |gs| == |users|
    ensures forall i :: 0 <= i < |users| ==> gs[i] == UserGrant(resource, AllManagedLabel, users[i])
    decreases |users|
  {
    if users == [] then []
    else FanOut(resource, users[..|users| - 1]) + [UserGrant(resource, AllManagedLabel, users[|users| - 1])]
  }

  /** The grant a membership of a group at `level` earns besides its role. */
  function Extra(resource: Resource, level: string, m: GroupMembership): seq<Grant> {
    if level == AdminsOnly && m.role == AdminSlug then [UserGrant(resource, AdminsOnlyLabel, m.user)]
    else if level == AdminsAndMembers then [UserGrant(resource, AdminsAndMembersLabel, m.user)]
    else []
  }

  /** Per membership, in order: the raw-role grant, then its extra grant if any. */
  function MembershipGrants(resource: Resource, level: string, ms: seq<GroupMembership>): seq<Grant>
    decreases |ms|
  {
    if ms == [] then []
    else
      var m := ms[|ms| - 1];
      MembershipGrants(resource, level, ms[..|ms| - 1]) + [RoleGrant(resource, m)] + Extra(resource, level, m)
  }

  /** The number of memberships whose role is exactly "admin". */
  function AdminCount(ms: seq<GroupMembership>): (n: nat)
    ensures n <= |ms|
    decreases |ms|
  {
    if ms == [] then 0
    else AdminCount(ms[..|ms| - 1]) + (if ms[|ms| - 1].role == AdminSlug then 1 else 0)
  }

  /** A group's grants, given its member-viewability level, the enterprise's users
      (consulted only at level all_managed_users) and its memberships. */
  function GrantsOf(resource: Resource, level: string, users: seq<User>, ms: seq<GroupMembership>): seq<Grant> {
    (if level == AllManagedUsers then FanOut(resource, users) else []) + MembershipGrants(resource, level, ms)
  }

  /** The user loop of Grants. */
  method AllManagedUserGrants(resource: Resource, users: seq<User>) returns (rv: seq<Grant>)
    ensures rv == FanOut(resource, users)
  {
    rv := [];
    for i := 0 to |users|
      invariant rv == FanOut(resource, users[..i])
    {
      assert users[..i + 1][..i] == users[..i];
      rv := rv + [UserGrant(resource, AllManagedLabel, users[i])];
    }
    assert users[..|users|] == users;
  }

  /** The membership loop of Grants. */
  method ResolveMemberships(resource: Resource, level: string, ms: seq<GroupMembership>) returns (rv: seq<Grant>)
    ensures rv == MembershipGrants(resource, level, ms)
  {
    rv := [];
    for i := 0 to |ms|
      invariant rv == MembershipGrants(resource, level, ms[..i])
    {
      assert ms[..i + 1][..i] == ms[..i];
      var m := ms[i];
      rv := rv + [RoleGrant(resource, m)];
      if level == AdminsOnly && m.role == AdminSlug {
        rv := rv + [UserGrant(resource, AdminsOnlyLabel, m.user)];
      } else if level == AdminsAndMembers {
        rv := rv + [UserGrant(resource, AdminsAndMembersLabel, m.user)];
      }
    }
    assert ms[..|ms|] == ms;
  }

  lemma {:induction false} MembershipGrantsCount(resource: Resource, level: string, ms: seq<GroupMembership>)
    ensures |MembershipGrants(resource, level, ms)|
         == |ms| + (if level == AdminsOnly then AdminCount(ms) else if level == AdminsAndMembers then |ms| else 0)
    decreases |ms|
  {
    if ms != [] {
      MembershipGrantsCount(resource, level, ms[..|ms| - 1]);
    }
  }

  /** Every grant comes from a membership: its raw role, or the extra its level
      allows; and every membership yields its role grant. */
  lemma {:induction false} MembershipGrantsMembers(resource: Resource, level: string, ms: seq<GroupMembership>)
    ensures forall x :: x in MembershipGrants(resource, level, ms) <==>
      exists m :: m in ms && (x == RoleGrant(resource, m) || x in Extra(resource, level, m))
    decreases |ms|
  {
    if ms != [] {
      MembershipGrantsMembers(resource, level, ms[..|ms| - 1]);
      assert forall m :: m in ms <==> m in ms[..|ms| - 1] || m == ms[|ms| - 1];
    }
  }

  /** At any level but admins_only and admins_and_members (unknown levels
      included) a membership yields its role grant and nothing else. */
  lemma {:induction false} OtherLevelsNoExtras(resource: Resource, level: string, ms: seq<GroupMembership>)
    requires level != AdminsOnly && level != AdminsAndMembers
    ensures MembershipGrants(resource, level, ms) == RoleGrants(resource, ms)
    decreases |ms|
  {
    if ms != [] {
      OtherLevelsNoExtras(resource, level, ms[..|ms| - 1]);
      assert Extra(resource, level, ms[|ms| - 1]) == [];
    }
  }

  /** The number of grants: the users at level all_managed_users, plus one per
      membership, plus one per admin membership at admins_only or one per
      membership at admins_and_members; so at most one extra per membership. */
  lemma GrantsOfCount(resource: Resource, level: string, users: seq<User>, ms: seq<GroupMembership>)
    ensures |GrantsOf(resource, level, users, ms)|
         == (if level == AllManagedUsers then |users| else 0) + |ms|
            + (if level == AdminsOnly then AdminCount(ms) else if level == AdminsAndMembers then |ms| else 0)
    ensures |GrantsOf(resource, level, users, ms)| <= (if level == AllManagedUsers then |users| else 0) + 2 * |ms|
  {
    MembershipGrantsCount(resource, level, ms);
  }

  /** The user fan-out comes first, in user order. */
  lemma FanOutFirst(resource: Resource, users: seq<User>, ms: seq<GroupMembership>)
    ensures var gs := GrantsOf(resource, AllManagedUsers, users, ms);
      forall i :: 0 <= i < |users| ==> gs[i] == UserGrant(resource, AllManagedLabel, users[i])
  {
  }

  /** What Grants fetches and returns: the group itself, the users only at level
      all_managed_users, then the memberships; any error is returned as it came,
      with no grants. `sent` is the request log before the call; the result
      carries the log after it. */
  function GrantsCall(s: Server, resource: Resource, rec: ErrorRecord, sent: seq<Request>): Call<seq<Grant>>
    requires s.WellBehaved()
  {
    var g := GroupCall(s, resource.id.resource, rec);
    if g.result.Failure? then Call(Failure(g.result.error), g.rec, sent + g.sent)
    else AfterGroup(s, resource, g.result.value.memberViewabilityLevel, g.rec, sent + g.sent)
  }

  /** The users step: a paged fetch at level all_managed_users, nothing otherwise. */
  function UsersStep(s: Server, level: string, rec: ErrorRecord): Call<seq<User>>
    requires s.WellBehaved()
  {
    if level == AllManagedUsers then UsersRun(s, rec).AsCall() else Call(Success([]), rec, [])
  }

  function AfterGroup(s: Server, resource: Resource, level: string, rec: ErrorRecord, sent: seq<Request>): Call<seq<Grant>>
    requires s.WellBehaved()
  {
    var u := UsersStep(s, level, rec);
    if u.result.Failure? then Call(Failure(u.result.error), u.rec, sent + u.sent)
    else AfterUsers(s, resource, level, u.result.value, u.rec, sent + u.sent)
  }

  function AfterUsers(s: Server, resource: Resource, level: string, users: seq<User>, rec: ErrorRecord, sent: seq<Request>): Call<seq<Grant>>
    requires s.WellBehaved()
  {
    var m := MembershipsRun(s, resource.id.resource, rec);
    if m.result.Failure? then Call(Failure(m.result.error), m.rec, sent + m.sent)
    else Call(Success(GrantsOf(resource, level, users, m.result.value)), m.rec, sent + m.sent)
  }

  /** Users are fetched only at level all_managed_users: at any other level the
      requests are the group's and the memberships' alone, and at that level the
      request right after the group's is the first page of users. */
  lemma UsersFetchedOnlyForAllManaged(s: Server, resource: Resource, rec: ErrorRecord, sent: seq<Request>)
    requires s.WellBehaved()
    ensures var g := GroupCall(s, resource.id.resource, rec);
      g.result.Success? && g.result.value.memberViewabilityLevel != AllManagedUsers ==>
        GrantsCall(s, resource, rec, sent).sent == sent + g.sent + MembershipsRun(s, resource.id.resource, g.rec).sent
    ensures var g := GroupCall(s, resource.id.resource, rec);
      var c := GrantsCall(s, resource, rec, sent);
      g.result.Success? && g.result.value.memberViewabilityLevel == AllManagedUsers ==>
        |c.sent| > |sent| + 1 && c.sent[|sent| + 1] == PageRequest(UsersUrl, Some(UserFields), DefaultOffset)
  {
    var g := GroupCall(s, resource.id.resource, rec);
    if g.result.Success? && g.result.value.memberViewabilityLevel == AllManagedUsers {
      FetchRunFirstRequest(s.users, UsersUrl, Some(UserFields), "users", g.rec, DefaultOffset, s.bound);
      var u := UsersRun(s, g.rec);
      var c := GrantsCall(s, resource, rec, sent);
      if u.result.Success? {
        var m := MembershipsRun(s, resource.id.resource, u.rec);
        assert c.sent == sent + g.sent + u.sent + m.sent;
        assert c.sent[|sent| + 1] == u.sent[0];
      } else {
        assert c.sent == sent + g.sent + u.sent;
      }
    }
  }

  /** Grants: the group first; its member-viewability level decides the rest. */
  method Grants(client: Client, s: Server, resource: Resource) returns (r: Result<seq<Grant>, string>)
    requires s.WellBehaved()
    modifies client
    ensures var c := GrantsCall(s, resource, old(client.errorResponse), old(client.sent));
      r == c.result && client.errorResponse == c.rec && client.sent == c.sent
  {
    var group := client.GetGroup(s, resource.id.resource);
    if group.Failure? {
      return Failure(group.error);
    }
    var level := group.value.memberViewabilityLevel;
    var rv: seq<Grant> := [];
    ghost var users: seq<User> := [];
    if level == AllManagedUsers {
      var all := client.GetUsers(s);
      if all.Failure? {
        return Failure(all.error);
      }
      users := all.value;
      rv := AllManagedUserGrants(resource, all.value);
    }
    var ms := client.GetGroupMemberships(s, resource.id.resource);
    if ms.Failure? {
      return Failure(ms.error);
    }
    var more := ResolveMemberships(resource, level, ms.value);
    r := Success(rv + more);
  }
}
