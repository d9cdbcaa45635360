/** What the two revisions of the group syncer (pkg/connector/groups.go and
    pkg/connector/group.go) declare identically: the access-level labels, the
    two assignment slugs, the group resource and List. */
module GroupCommon {
  import opened Wrappers
  import opened BoxModels
  import opened Sdk
  import ResourceTypes
  import UserSyncer
  import opened BoxClient

  const MemberSlug := "member"
  const AdminSlug := "admin"

  const AdminsOnly := "admins_only"
  const AdminsAndMembers := "admins_and_members"
  const AllManagedUsers := "all_managed_users"

  /** Box access-level values and the labels the connector uses for them. */
  const AccessLevels: map<string, string> :=
    map[AdminsOnly := "admins only", AdminsAndMembers := "admins and members", AllManagedUsers := "all managed users"]

  /** The assignment entitlements of a group, in order. */
  const AssignmentSlugs: seq<string> := [MemberSlug, AdminSlug]

  const ListGroupsError := "box-connector: failed to list groups: "

  /** No two levels share a label. */
  lemma LabelsDistinct(a: string, b: string)
    requires a in AccessLevels && b in AccessLevels && a != b
    ensures AccessLevels[a] != AccessLevels[b]
  {
  }

  /** groupResource: a group resource under `parent` with its id and name as profile. */
  function GroupResource(group: Group, parent: ResourceId): (r: Resource)
    ensures r.id == ResourceId(ResourceTypes.GroupType.id, group.base.id)
    ensures r.displayName == group.name && r.parent == Some(parent) && r.childTypes == []
    ensures r.traitData.GroupTrait? && r.traitData.profile.Keys == {"group_id", "group_name"}
    ensures r.traitData.profile["group_id"] == group.base.id && r.traitData.profile["group_name"] == group.name
  {
    Resource(ResourceId(ResourceTypes.GroupType.id, group.base.id), group.name, Some(parent),
             GroupTrait(map["group_id" := group.base.id, "group_name" := group.name]), [])
  }

  /** The loop of List: one resource per group, in order. */
  method GroupResources(groups: seq<Group>, parent: ResourceId) returns (rv: seq<Resource>)
    ensures |rv| == |groups|
    ensures forall i :: 0 <= i < |groups| ==> rv[i] == GroupResource(groups[i], parent)
  {
    rv := [];
    for i := 0 to |groups|
      invariant |rv| == i
      invariant forall j :: 0 <= j < i ==> rv[j] == GroupResource(groups[j], parent)
    {
      rv := rv + [GroupResource(groups[i], parent)];
    }
  }

  /** List: nothing without a parent; otherwise every group the client pages
      through, or the wrapped fetch error. */
  method List(client: Client, s: Server, parent: Option<ResourceId>) returns (r: Result<seq<Resource>, string>)
    requires parent.Some? ==> s.WellBehaved()
    modifies client
    ensures parent.None? ==> r == Success([]) && client.errorResponse == old(client.errorResponse) && client.sent == old(client.sent)
    ensures parent.Some? ==>
      var run := GroupsRun(s, old(client.errorResponse));
      && client.errorResponse == run.rec && client.sent == old(client.sent) + run.sent
      && (run.result.Failure? ==> r == Failure(ListGroupsError + run.result.error))
      && (run.result.Success? ==>
            && r.Success? && |r.value| == |run.result.value|
            && forall i :: 0 <= i < |r.value| ==> r.value[i] == GroupResource(run.result.value[i], parent.value))
  {
    if parent.None? {
      return Success([]);
    }
    var groups := client.GetGroups(s);
    if groups.Failure? {
      return Failure(ListGroupsError + groups.error);
    }
    var rv := GroupResources(groups.value, parent.value);
    r := Success(rv);
  }

  /** A membership grants its raw role string, as slug, to the member user; the
      string is not checked against the catalog. */
  function RoleGrant(resource: Resource, m: GroupMembership): (g: Grant)
    ensures g == Grant(resource.id, m.role, ResourceId(ResourceTypes.UserType.id, m.user.base.id))
  {
    NewGrant(resource, m.role, UserSyncer.UserResource(m.user, resource.id).id)
  }

  function RoleGrants(resource: Resource, ms: seq<GroupMembership>): (gs: seq<Grant>)
    ensures |gs| == |ms|
    ensures forall i :: 0 <= i < |ms| ==> gs[i] == RoleGrant(resource, ms[i])
    decreases |ms|
  {
    if ms == [] then []
    else RoleGrants(resource, ms[..|ms| - 1]) + [RoleGrant(resource, ms[|ms| - 1])]
  }
}
