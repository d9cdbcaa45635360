/** The connector itself (pkg/connector/connector.go): the admin check that
    validates the credentials, and the list of resource syncers. */
module Connector {
  import opened Wrappers
  import opened BoxModels
  import opened Sdk
  import ResourceTypes
  import opened BoxClient

  const AdminRole := "admin"
  const AuthenticateError := "box-connector: failed to authenticate: "
  const NotAdminError := "box-connector: user is not an admin"

  /** The verdict of Validate once the current user has been fetched: `None` is
      Go's nil error. */
  function ValidateOutcome(current: Result<User, string>): (err: Option<string>)
    ensures err.None? <==> current.Success? && current.value.role == AdminRole
    ensures current.Failure? ==> err == Some(AuthenticateError + current.error)
    ensures current.Success? && current.value.role != AdminRole ==> err == Some(NotAdminError)
  {
    match current
    case Failure(e) => Some(AuthenticateError + e)
    case Success(u) => if u.role == AdminRole then None else Some(NotAdminError)
  }

  /** A co-administrator holds the role string "coadmin" and is refused. */
  lemma CoadminRejected(u: User)
    requires u.role == "coadmin"
    ensures ValidateOutcome(Success(u)) == Some(NotAdminError)
  {
  }

  /** Validate: fetch the current user and require the admin role. */
  method Validate(client: Client, s: Server) returns (err: Option<string>)
    modifies client
    ensures var c := CurrentUserCall(s, old(client.errorResponse));
      err == ValidateOutcome(c.result) && client.errorResponse == c.rec && client.sent == old(client.sent) + c.sent
  {
    var current := client.GetCurrentUserWithEnterprise(s);
    if current.Failure? {
      return Some(AuthenticateError + current.error);
    }
    if current.value.role != AdminRole {
      return Some(NotAdminError);
    }
    return None;
  }

  /** Each syncer is known here by the resource type it serves. */
  function ResourceSyncers(): (syncers: seq<ResourceType>)
    ensures |syncers| == 4
    ensures syncers[0].id == "user" && syncers[1].id == "group"
    ensures syncers[2].id == "enterprise" && syncers[3].id == "role"
  {
    [ResourceTypes.UserType, ResourceTypes.GroupType, ResourceTypes.EnterpriseType, ResourceTypes.RoleType]
  }
}
