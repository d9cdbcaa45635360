/** The enterprise syncer (pkg/connector/enterprise.go): the one enterprise
    resource, its role permissions, and a grant per user with a known role. */
module EnterpriseSyncer {
  import opened Wrappers
  import opened BoxModels
  import opened Sdk
  import ResourceTypes
  import opened GoMaps
  import UserSyncer
  import opened BoxClient

  /** Box's role strings and the labels the connector gives them. */
  const Roles: map<string, string> := map["admin" := "admin", "coadmin" := "co-admin", "user" := "user"]

  /** enterpriseResource: a top-level resource declaring users and groups as its children. */
  function EnterpriseResource(e: Enterprise): (r: Resource)
    ensures r.id == ResourceId(ResourceTypes.EnterpriseType.id, e.base.id)
    ensures r.displayName == e.name && r.parent == None && r.traitData == NoTrait
    ensures r.childTypes == [ResourceTypes.UserType.id, ResourceTypes.GroupType.id]
  {
    Resource(ResourceId(ResourceTypes.EnterpriseType.id, e.base.id), e.name, None, NoTrait,
             [ResourceTypes.UserType.id, ResourceTypes.GroupType.id])
  }

  /** List: the enterprise of the current user, whatever the parent; the fetch
      error is returned as it came. */
  method List(client: Client, s: Server) returns (r: Result<seq<Resource>, string>)
    modifies client
    ensures var c := CurrentUserCall(s, old(client.errorResponse));
      && client.errorResponse == c.rec && client.sent == old(client.sent) + c.sent
      && (c.result.Failure? ==> r == Failure(c.result.error))
      && (c.result.Success? ==> r == Success([EnterpriseResource(c.result.value.enterprise)]))
  {
    var current := client.GetCurrentUserWithEnterprise(s);
    if current.Failure? {
      return Failure(current.error);
    }
    r := Success([EnterpriseResource(current.value.enterprise)]);
  }

  // ---------------------------------------------------------------- catalog

  function RolePermission(resource: Resource, roleName: string): (e: Entitlement)
    ensures e == Entitlement(resource.id, roleName, Permission, ["user"],
                             "Role in " + resource.displayName + " Box enterprise",
                             resource.displayName + " Enterprise " + roleName)
  {
    NewEntitlementThree(resource, roleName, Permission, [ResourceTypes.UserType],
                        "Role in " + resource.displayName + " Box enterprise",
                        resource.displayName + " Enterprise " + roleName);
    ResourceTypes.SingleTypeIds();
    NewPermissionEntitlement(resource, roleName,
      [WithGrantableTo([ResourceTypes.UserType]),
       WithDescription("Role in " + resource.displayName + " Box enterprise"),
       WithDisplayName(resource.displayName + " Enterprise " + roleName)])
  }

  /** One permission per role key visited, named by the role's label. */
  function Catalog(resource: Resource, order: seq<string>): seq<Entitlement>
    requires forall k :: k in order ==> k in Roles
    decreases |order|
  {
    if order == [] then []
    else Catalog(resource, order[..|order| - 1]) + [RolePermission(resource, Roles[order[|order| - 1]])]
  }

  method Entitlements(resource: Resource, order: seq<string>) returns (rv: seq<Entitlement>)
    requires Enumerates(order, Roles)
    ensures rv == Catalog(resource, order)
  {
    rv := [];
    for i := 0 to |order|
      invariant rv == Catalog(resource, order[..i])
    {
      assert order[..i + 1][..i] == order[..i];
      rv := rv + [RolePermission(resource, Roles[order[i]])];
    }
    assert order[..|order|] == order;
  }

  lemma {:induction false} CatalogMembers(resource: Resource, order: seq<string>)
    requires forall k :: k in order ==> k in Roles
    ensures |Catalog(resource, order)| == |order|
    ensures forall e :: e in Catalog(resource, order) <==> exists k :: k in order && e == RolePermission(resource, Roles[k])
    decreases |order|
  {
    if order != [] {
      var front := order[..|order| - 1];
      CatalogMembers(resource, front);
      assert forall k :: k in order <==> k in front || k == order[|order| - 1];
    }
  }

  /** Three permissions whatever the visiting order, one per role label, all
      grantable to users. */
  lemma CatalogFacts(resource: Resource, order: seq<string>)
    requires Enumerates(order, Roles)
    ensures var c := Catalog(resource, order);
      && |c| == 3
      && (forall e :: e in c <==> exists k :: k in Roles && e == RolePermission(resource, Roles[k]))
      && (forall e :: e in c ==> e.kind == Permission && e.grantableTo == ["user"] && e.slug in Roles.Values)
  {
    EnumerationLength(order, Roles);
    CatalogMembers(resource, order);
  }

  // ---------------------------------------------------------------- grants

  function RoleGrant(resource: Resource, u: User): (g: Grant)
    requires u.role in Roles
    ensures g == Grant(resource.id, Roles[u.role], ResourceId(ResourceTypes.UserType.id, u.base.id))
  {
    NewGrant(resource, Roles[u.role], UserSyncer.UserResource(u, resource.id).id)
  }

  /** The users whose role is a key of the role table, in order. */
  function KnownRoleUsers(users: seq<User>): (known: seq<User>)
    ensures forall u :: u in known <==> u in users && u.role in Roles
    ensures |known| <= |users|
    decreases |users|
  {
    if users == [] then []
    else
      var u := users[|users| - 1];
      var front := KnownRoleUsers(users[..|users| - 1]);
      assert forall v :: v in users <==> v in users[..|users| - 1] || v == u;
      if u.role in Roles then front + [u] else front
  }

  /** Filtering a concatenation whose second part is not empty looks at that
      part's last element last. */
  lemma KnownRoleUsersSplitLast(a: seq<User>, b: seq<User>)
    requires b != []
    ensures var front, u := b[..|b| - 1], b[|b| - 1];
      && KnownRoleUsers(a + b) == (if u.role in Roles then KnownRoleUsers(a + front) + [u] else KnownRoleUsers(a + front))
      && KnownRoleUsers(b) == (if u.role in Roles then KnownRoleUsers(front) + [u] else KnownRoleUsers(front))
  {
    var ab := a + b;
    assert ab[..|ab| - 1] == a + b[..|b| - 1];
    assert ab[|ab| - 1] == b[|b| - 1];
  }

  /** Filtering keeps order: the known-role users of a concatenation are those of each part, in turn. */
  lemma {:induction false} KnownRoleUsersAppend(a: seq<User>, b: seq<User>)
    ensures KnownRoleUsers(a + b) == KnownRoleUsers(a) + KnownRoleUsers(b)
    decreases |b|
  {
    if b == [] {
      assert a + b == a;
    } else {
      KnownRoleUsersAppend(a, b[..|b| - 1]);
      KnownRoleUsersSplitLast(a, b);
    }
  }

  /** A grant per user with a known role, in user order; the others are skipped. */
  function RoleGrants(resource: Resource, users: seq<User>): seq<Grant>
    decreases |users|
  {
    if users == [] then []
    else
      var u := users[|users| - 1];
      var front := RoleGrants(resource, users[..|users| - 1]);
      if u.role in Roles then front + [RoleGrant(resource, u)] else front
  }

  /** The loop of Grants. */
  method ResolveGrants(resource: Resource, users: seq<User>) returns (rv: seq<Grant>)
    ensures rv == RoleGrants(resource, users)
  {
    rv := [];
    for i := 0 to |users|
      invariant rv == RoleGrants(resource, users[..i])
    {
      assert users[..i + 1][..i] == users[..i];
      var u := users[i];
      if u.role !in Roles {
        continue;
      }
      rv := rv + [RoleGrant(resource, u)];
    }
    assert users[..|users|] == users;
  }

  /** Exactly one grant per user with a known role, in the same order. */
  lemma {:induction false} RoleGrantsFollowUsers(resource: Resource, users: seq<User>)
    ensures var gs := RoleGrants(resource, users);
      var known := KnownRoleUsers(users);
      |gs| == |known| && forall i :: 0 <= i < |known| ==> gs[i] == RoleGrant(resource, known[i])
    decreases |users|
  {
    if users != [] {
      var front := users[..|users| - 1];
      RoleGrantsFollowUsers(resource, front);
      var known := KnownRoleUsers(front);
      var gs := RoleGrants(resource, front);
      var u := users[|users| - 1];
      if u.role in Roles {
        forall i | 0 <= i < |known| + 1
          ensures (gs + [RoleGrant(resource, u)])[i] == RoleGrant(resource, (known + [u])[i])
        {
          if i < |known| {
          }
        }
      }
    }
  }

  /** A co-administrator, role string "coadmin", is granted the "co-admin" permission. */
  lemma CoadminGrant(resource: Resource, u: User)
    requires u.role == "coadmin"
    ensures RoleGrants(resource, [u]) == [Grant(resource.id, "co-admin", ResourceId(ResourceTypes.UserType.id, u.base.id))]
  {
    assert [u][..0] == [];
  }

  method Grants(client: Client, s: Server, resource: Resource) returns (r: Result<seq<Grant>, string>)
    requires s.WellBehaved()
    modifies client
    ensures var run := UsersRun(s, old(client.errorResponse));
      && client.errorResponse == run.rec && client.sent == old(client.sent) + run.sent
      && (run.result.Failure? ==> r == Failure(run.result.error))
      && (run.result.Success? ==> r == Success(RoleGrants(resource, run.result.value)))
  {
    var users := client.GetUsers(s);
    if users.Failure? {
      return Failure(users.error);
    }
    var rv := ResolveGrants(resource, users.value);
    r := Success(rv);
  }
}
