/** The role syncer (pkg/connector/role.go): one role resource per role label,
    and a "member" grant for each user whose role string equals the resource id. */
module RoleSyncer {
  import opened Wrappers
  import opened BoxModels
  import opened Sdk
  import ResourceTypes
  import opened GoMaps
  import UserSyncer
  import opened BoxClient

  /** The file's own copy of the role table. */
  const Roles: map<string, string> := map["admin" := "admin", "coadmin" := "co-admin", "user" := "user"]

  const MemberSlug := "member"

  /** roleResource: a role resource named by `role`, shown title-cased. */
  function RoleResource(role: string, parent: ResourceId, titleCase: string -> string): (r: Resource)
    ensures r.id == ResourceId(ResourceTypes.RoleType.id, role)
    ensures r.displayName == titleCase(role) && r.parent == Some(parent) && r.childTypes == []
    ensures r.traitData == RoleTrait(map["role_name" := titleCase(role), "role_id" := role])
  {
    var displayName := titleCase(role);
    Resource(ResourceId(ResourceTypes.RoleType.id, role), displayName, Some(parent),
             RoleTrait(map["role_name" := displayName, "role_id" := role]), [])
  }

  /** List: nothing without a parent; otherwise one resource per role label, in
      the visiting order of the role table. Nothing is fetched. */
  method List(parent: Option<ResourceId>, order: seq<string>, titleCase: string -> string) returns (rv: seq<Resource>)
    requires Enumerates(order, Roles)
    ensures parent.None? ==> rv == []
    ensures parent.Some? ==>
      |rv| == |order| && forall i :: 0 <= i < |order| ==> rv[i] == RoleResource(Roles[order[i]], parent.value, titleCase)
  {
    rv := [];
    if parent.None? {
      return;
    }
    for i := 0 to |order|
      invariant |rv| == i
      invariant forall j :: 0 <= j < i ==> rv[j] == RoleResource(Roles[order[j]], parent.value, titleCase)
    {
      rv := rv + [RoleResource(Roles[order[i]], parent.value, titleCase)];
    }
  }

  /** The resources List builds are named by the labels "admin", "co-admin" and
      "user": every label once, and never Box's own string "coadmin". */
  lemma ListedIds(order: seq<string>)
    requires Enumerates(order, Roles)
    ensures |order| == 3
    ensures (set k | k in order :: Roles[k]) == {"admin", "co-admin", "user"}
    ensures forall k :: k in order ==> Roles[k] != "coadmin"
  {
    EnumerationLength(order, Roles);
    assert "admin" in order && "coadmin" in order && "user" in order;
  }

  /** The single "member" permission of a role, held by users. */
  function Entitlements(resource: Resource): (es: seq<Entitlement>)
    ensures |es| == 1
    ensures es[0] == Entitlement(resource.id, MemberSlug, Permission, ["user"],
                                 resource.displayName + " Box role",
                                 resource.displayName + " role " + MemberSlug)
  {
    NewEntitlementThree(resource, MemberSlug, Permission, [ResourceTypes.UserType],
                        resource.displayName + " Box role", resource.displayName + " role " + MemberSlug);
    ResourceTypes.SingleTypeIds();
    [NewPermissionEntitlement(resource, MemberSlug,
      [WithGrantableTo([ResourceTypes.UserType]),
       WithDescription(resource.displayName + " Box role"),
       WithDisplayName(resource.displayName + " role " + MemberSlug)])]
  }

  function MemberGrant(resource: Resource, u: User): (g: Grant)
    ensures g == Grant(resource.id, MemberSlug, ResourceId(ResourceTypes.UserType.id, u.base.id))
  {
    NewGrant(resource, MemberSlug, UserSyncer.UserResource(u, resource.id).id)
  }

  /** The users whose role string is exactly the resource's id, in order. */
  function MatchingUsers(resource: Resource, users: seq<User>): (matching: seq<User>)
    ensures forall u :: u in matching <==> u in users && u.role == resource.id.resource
    ensures |matching| <= |users|
    decreases |users|
  {
    if users == [] then []
    else
      var u := users[|users| - 1];
      var front := MatchingUsers(resource, users[..|users| - 1]);
      assert forall v :: v in users <==> v in users[..|users| - 1] || v == u;
      if resource.id.resource == u.role then front + [u] else front
  }

  /** Appending one user keeps it at the end exactly when its role matches. */
  lemma MatchingUsersSnoc(resource: Resource, xs: seq<User>, u: User)
    ensures MatchingUsers(resource, xs + [u]) == if resource.id.resource == u.role then MatchingUsers(resource, xs) + [u] else MatchingUsers(resource, xs)
  {
    assert (xs + [u])[..|xs|] == xs;
  }

  /** Filtering a concatenation whose second part is not empty looks at that
      part's last element last. */
  lemma MatchingUsersSplitLast(resource: Resource, a: seq<User>, b: seq<User>)
    requires b != []
    ensures var front, u := b[..|b| - 1], b[|b| - 1];
      && MatchingUsers(resource, a + b) == (if resource.id.resource == u.role then MatchingUsers(resource, a + front) + [u] else MatchingUsers(resource, a + front))
      && MatchingUsers(resource, b) == (if resource.id.resource == u.role then MatchingUsers(resource, front) + [u] else MatchingUsers(resource, front))
  {
    var front, u := b[..|b| - 1], b[|b| - 1];
    assert b == front + [u];
    assert a + b == (a + front) + [u];
    MatchingUsersSnoc(resource, a + front, u);
    MatchingUsersSnoc(resource, front, u);
  }

  /** Filtering keeps order: the matching users of a concatenation are those of each part, in turn. */
  lemma {:induction false} MatchingUsersAppend(resource: Resource, a: seq<User>, b: seq<User>)
    ensures MatchingUsers(resource, a + b) == MatchingUsers(resource, a) + MatchingUsers(resource, b)
    decreases |b|
  {
    if b == [] {
      assert a + b == a;
    } else {
      MatchingUsersAppend(resource, a, b[..|b| - 1]);
      MatchingUsersSplitLast(resource, a, b);
    }
  }

  /** A "member" grant for each user whose role string is the resource's id, in order. */
  function MemberGrants(resource: Resource, users: seq<User>): seq<Grant>
    decreases |users|
  {
    if users == [] then []
    else
      var u := users[|users| - 1];
      var front := MemberGrants(resource, users[..|users| - 1]);
      if resource.id.resource == u.role then front + [MemberGrant(resource, u)] else front
  }

  /** The loop of Grants. */
  method ResolveGrants(resource: Resource, users: seq<User>) returns (rv: seq<Grant>)
    ensures rv == MemberGrants(resource, users)
  {
    rv := [];
    for i := 0 to |users|
      invariant rv == MemberGrants(resource, users[..i])
    {
      assert users[..i + 1][..i] == users[..i];
      var u := users[i];
      if resource.id.resource == u.role {
        rv := rv + [MemberGrant(resource, u)];
      }
    }
    assert users[..|users|] == users;
  }

  /** A grant exists exactly for the users whose role string matches the id. */
  lemma {:induction false} MemberGrantsMembers(resource: Resource, users: seq<User>)
    ensures |MemberGrants(resource, users)| <= |users|
    ensures forall x :: x in MemberGrants(resource, users) <==>
      exists u :: u in users && u.role == resource.id.resource && x == MemberGrant(resource, u)
    decreases |users|
  {
    if users != [] {
      MemberGrantsMembers(resource, users[..|users| - 1]);
      assert forall v :: v in users <==> v in users[..|users| - 1] || v == users[|users| - 1];
    }
  }

  /** Exactly one grant per matching user, in user order. */
  lemma {:induction false} MemberGrantsFollowUsers(resource: Resource, users: seq<User>)
    ensures var gs := MemberGrants(resource, users);
      var matching := MatchingUsers(resource, users);
      |gs| == |matching| && forall i :: 0 <= i < |matching| ==> gs[i] == MemberGrant(resource, matching[i])
    decreases |users|
  {
    if users != [] {
      var front := users[..|users| - 1];
      MemberGrantsFollowUsers(resource, front);
      var matching := MatchingUsers(resource, front);
      var gs := MemberGrants(resource, front);
      var u := users[|users| - 1];
      if resource.id.resource == u.role {
        forall i | 0 <= i < |matching| + 1
          ensures (gs + [MemberGrant(resource, u)])[i] == MemberGrant(resource, (matching + [u])[i])
        {
          if i < |matching| {
          }
        }
      }
    }
  }

  /** Box reports co-administrators as "coadmin" while the role resource is named
      "co-admin": as long as every user carries one of Box's role strings, the
      co-admin role is never granted to anyone. */
  lemma {:induction false} CoAdminNeverGranted(resource: Resource, users: seq<User>)
    requires resource.id.resource == Roles["coadmin"]
    requires forall u :: u in users ==> u.role in Roles
    ensures MemberGrants(resource, users) == []
    decreases |users|
  {
    if users != [] {
      assert users[|users| - 1] in users;
      CoAdminNeverGranted(resource, users[..|users| - 1]);
    }
  }

  method Grants(client: Client, s: Server, resource: Resource) returns (r: Result<seq<Grant>, string>)
    requires s.WellBehaved()
    modifies client
    ensures var run := UsersRun(s, old(client.errorResponse));
      && client.errorResponse == run.rec && client.sent == old(client.sent) + run.sent
      && (run.result.Failure? ==> r == Failure(UserSyncer.ListUsersError + run.result.error))
      && (run.result.Success? ==> r == Success(MemberGrants(resource, run.result.value)))
  {
    var users := client.GetUsers(s);
    if users.Failure? {
      return Failure(UserSyncer.ListUsersError + users.error);
    }
    var rv := ResolveGrants(resource, users.value);
    r := Success(rv);
  }
}
