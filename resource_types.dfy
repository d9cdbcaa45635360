/** The four resource types of the access graph (pkg/connector/connector.go). */
module ResourceTypes {
  import opened Sdk

  const UserType := ResourceType("user", "User", [TraitUser])
  const GroupType := ResourceType("group", "Group", [TraitGroup])
  const EnterpriseType := ResourceType("enterprise", "Enterprise", [])
  const RoleType := ResourceType("role", "Role", [TraitRole])

  function AllTypes(): (ts: seq<ResourceType>)
    ensures |ts| == 4
    ensures forall i, j :: 0 <= i < j < |ts| ==> ts[i].id != ts[j].id
  {
    [UserType, GroupType, EnterpriseType, RoleType]
  }

  /** User, group and role carry exactly their own trait; enterprise carries none. */
  lemma Traits()
    ensures UserType.traits == [TraitUser] && GroupType.traits == [TraitGroup]
    ensures RoleType.traits == [TraitRole] && EnterpriseType.traits == []
  {
  }

  /** The grantable-to lists the connector writes name one type each. */
  lemma SingleTypeIds()
    ensures TypeIds([UserType]) == ["user"] && TypeIds([GroupType]) == ["group"]
  {
    assert TypeIds([UserType])[0] == "user";
    assert TypeIds([GroupType])[0] == "group";
  }
}
