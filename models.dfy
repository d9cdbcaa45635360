/** The records the Box API returns (pkg/box/models.go). Every enumeration-like
    field (Role, Status, InvitabilityLevel, MemberViewabilityLevel) is a free
    string: the upstream values form an open set. */
module BoxModels {

  /** Fields shared by every Box object. */
  datatype BaseType = BaseType(id: string, typ: string)

  datatype Enterprise = Enterprise(base: BaseType, name: string)

  datatype User = User(
    base: BaseType,
    enterprise: Enterprise,
    login: string,
    name: string,
    phone: string,
    role: string,
    status: string)

  datatype Group = Group(
    base: BaseType,
    invitabilityLevel: string,
    memberViewabilityLevel: string,
    name: string)

  /** One user's membership of one group, with its per-group role. */
  datatype GroupMembership = GroupMembership(
    base: BaseType,
    role: string,
    user: User,
    group: Group)
}
