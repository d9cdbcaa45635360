/** The user syncer (pkg/connector/user.go): Box users become user resources. */
module UserSyncer {
  import opened Wrappers
  import opened BoxModels
  import opened Sdk
  import ResourceTypes
  import opened BoxClient

  const ListUsersError := "box-connector: failed to list users: "

  /** The index of the first space in `s`, or |s| when there is none. */
  function FirstSpace(s: string): (i: nat)
    ensures i <= |s|
    ensures i < |s| ==> s[i] == ' '
    ensures forall j :: 0 <= j < i ==> s[j] != ' '
    decreases |s|
  {
    if s == [] then 0
    else if s[0] == ' ' then 0
    else 1 + FirstSpace(s[1..])
  }

  /** strings.SplitN(name, " ", 2), read back as first and last name. */
  function SplitName(name: string): (r: (string, string))
    ensures ' ' !in name ==> r == (name, "")
    ensures ' ' in name ==> ' ' !in r.0 && r.0 + " " + r.1 == name
  {
    var i := FirstSpace(name);
    if i == |name| then (name, "")
    else
      assert name == name[..i] + " " + name[i + 1..];
      (name[..i], name[i + 1..])
  }

  /** The first name is the text before the first space, whatever follows it. */
  lemma SplitAtFirstSpace(first: string, last: string)
    requires ' ' !in first
    ensures SplitName(first + " " + last) == (first, last)
  {
    var name := first + " " + last;
    assert name[|first|] == ' ';
    assert name[..|first|] == first;
    assert name[|first| + 1..] == last;
  }

  lemma SplitNameExample()
    ensures SplitName("Ada B. Lovelace") == ("Ada", "B. Lovelace")
  {
    SplitAtFirstSpace("Ada", "B. Lovelace");
    assert "Ada" + " " + "B. Lovelace" == "Ada B. Lovelace";
  }

  function MapStatus(status: string): (st: UserStatus)
    ensures st == StatusEnabled <==> status == "active"
    ensures st == StatusDisabled <==> status == "inactive"
  {
    if status == "active" then StatusEnabled
    else if status == "inactive" then StatusDisabled
    else StatusUnspecified
  }

  function UserProfile(user: User): (p: Profile)
    ensures p.Keys == {"first_name", "last_name", "login", "user_id"}
  {
    var (first, last) := SplitName(user.name);
    map["first_name" := first, "last_name" := last, "login" := user.login, "user_id" := user.base.id]
  }

  /** userResource: a user resource under `parent`, its login as primary email. */
  function UserResource(user: User, parent: ResourceId): (r: Resource)
    ensures r.id == ResourceId(ResourceTypes.UserType.id, user.base.id)
    ensures r.displayName == user.name && r.parent == Some(parent) && r.childTypes == []
    ensures r.traitData.UserTrait?
    ensures r.traitData.emails == [Email(user.login, true)] && r.traitData.status == MapStatus(user.status)
  {
    Resource(ResourceId(ResourceTypes.UserType.id, user.base.id), user.name, Some(parent),
             UserTrait(UserProfile(user), [Email(user.login, true)], MapStatus(user.status)), [])
  }

  /** The profile gives the name back: first and last name rejoin with one space,
      and a name without a space is all first name. */
  lemma ProfileKeepsName(user: User, parent: ResourceId)
    ensures var p := UserResource(user, parent).traitData.profile;
      && p["login"] == user.login && p["user_id"] == user.base.id
      && (' ' in user.name ==> p["first_name"] + " " + p["last_name"] == user.name && ' ' !in p["first_name"])
      && (' ' !in user.name ==> p["first_name"] == user.name && p["last_name"] == "")
  {
  }

  /** The loop of List: one resource per user, in order. */
  method UserResources(users: seq<User>, parent: ResourceId) returns (rv: seq<Resource>)
    ensures |rv| == |users|
    ensures forall i :: 0 <= i < |users| ==> rv[i] == UserResource(users[i], parent)
  {
    rv := [];
    for i := 0 to |users|
      invariant |rv| == i
      invariant forall j :: 0 <= j < i ==> rv[j] == UserResource(users[j], parent)
    {
      rv := rv + [UserResource(users[i], parent)];
    }
  }

  /** List: nothing without a parent; otherwise every user the client pages
      through, or the wrapped fetch error. */
  method List(client: Client, s: Server, parent: Option<ResourceId>) returns (r: Result<seq<Resource>, string>)
    requires parent.Some? ==> s.WellBehaved()
    modifies client
    ensures parent.None? ==> r == Success([]) && client.errorResponse == old(client.errorResponse) && client.sent == old(client.sent)
    ensures parent.Some? ==>
      var run := UsersRun(s, old(client.errorResponse));
      && client.errorResponse == run.rec && client.sent == old(client.sent) + run.sent
      && (run.result.Failure? ==> r == Failure(ListUsersError + run.result.error))
      && (run.result.Success? ==>
            && r.Success? && |r.value| == |run.result.value|
            && forall i :: 0 <= i < |r.value| ==> r.value[i] == UserResource(run.result.value[i], parent.value))
  {
    if parent.None? {
      return Success([]);
    }
    var users := client.GetUsers(s);
    if users.Failure? {
      return Failure(ListUsersError + users.error);
    }
    var rv := UserResources(users.value, parent.value);
    r := Success(rv);
  }

  /** Users carry no entitlements of their own. */
  function Entitlements(resource: Resource): (es: seq<Entitlement>)
    ensures es == []
  {
    []
  }

  /** Nothing is granted on a user. */
  function Grants(resource: Resource): (gs: seq<Grant>)
    ensures gs == []
  {
    []
  }
}
