/** The baton-sdk objects the connector produces, as plain values: resource
    types, resources, entitlements and grants. The SDK constructors are modelled
    as total functions. */
module Sdk {
  import opened Wrappers

  datatype Trait = TraitUser | TraitGroup | TraitRole

  datatype ResourceType = ResourceType(id: string, displayName: string, traits: seq<Trait>)

  /** A node's address in the access graph: its resource type id and its own id. */
  datatype ResourceId = ResourceId(resourceType: string, resource: string)

  /** Profiles in this connector hold only string values. */
  type Profile = map<string, string>

  datatype UserStatus = StatusUnspecified | StatusEnabled | StatusDisabled

  datatype Email = Email(address: string, isPrimary: bool)

  /** The trait attached to a resource, with the options the connector sets on it. */
  datatype TraitData =
    | UserTrait(profile: Profile, emails: seq<Email>, status: UserStatus)
    | GroupTrait(profile: Profile)
    | RoleTrait(profile: Profile)
    | NoTrait

  datatype Resource = Resource(
    id: ResourceId,
    displayName: string,
    parent: Option<ResourceId>,
    traitData: TraitData,
    childTypes: seq<string>)

  datatype EntitlementKind = Assignment | Permission

  datatype Entitlement = Entitlement(
    resource: ResourceId,
    slug: string,
    kind: EntitlementKind,
    grantableTo: seq<string>,
    description: string,
    displayName: string)

  datatype EntitlementOption =
    | WithGrantableTo(types: seq<ResourceType>)
    | WithDescription(text: string)
    | WithDisplayName(text: string)

  /** An edge of the graph: `principal` holds entitlement `slug` of `resource`. */
  datatype Grant = Grant(resource: ResourceId, slug: string, principal: ResourceId)

  function TypeIds(types: seq<ResourceType>): seq<string> {
    seq(|types|, i requires 0 <= i < |types| => types[i].id)
  }

  function ApplyOption(e: Entitlement, o: EntitlementOption): Entitlement {
    match o
    case WithGrantableTo(types) => e.(grantableTo := TypeIds(types))
    case WithDescription(text) => e.(description := text)
    case WithDisplayName(text) => e.(displayName := text)
  }

  /** Options are applied in order; a later option of the same kind wins. */
  function ApplyOptions(e: Entitlement, opts: seq<EntitlementOption>): Entitlement
    decreases |opts|
  {
    if opts == [] then e else ApplyOptions(ApplyOption(e, opts[0]), opts[1..])
  }

  function NewEntitlement(r: Resource, slug: string, kind: EntitlementKind, opts: seq<EntitlementOption>): Entitlement {
    ApplyOptions(Entitlement(r.id, slug, kind, [], "", slug), opts)
  }

  function NewAssignmentEntitlement(r: Resource, slug: string, opts: seq<EntitlementOption>): Entitlement {
    NewEntitlement(r, slug, Assignment, opts)
  }

  function NewPermissionEntitlement(r: Resource, slug: string, opts: seq<EntitlementOption>): Entitlement {
    NewEntitlement(r, slug, Permission, opts)
  }

  function NewGrant(r: Resource, slug: string, principal: ResourceId): Grant {
    Grant(r.id, slug, principal)
  }

  /** The three-option list every catalog entry of the connector is built with. */
  lemma ThreeOptions(e: Entitlement, types: seq<ResourceType>, description: string, displayName: string)
    ensures ApplyOptions(e, [WithGrantableTo(types), WithDescription(description), WithDisplayName(displayName)])
         == e.(grantableTo := TypeIds(types), description := description, displayName := displayName)
  {
    var opts := [WithGrantableTo(types), WithDescription(description), WithDisplayName(displayName)];
    var e1 := ApplyOption(e, opts[0]);
    var e2 := ApplyOption(e1, opts[1]);
    var e3 := ApplyOption(e2, opts[2]);
    assert opts[1..][1..][1..] == [];
    assert ApplyOptions(e3, []) == e3;
    assert ApplyOptions(e2, opts[1..][1..]) == e3;
    assert ApplyOptions(e1, opts[1..]) == e3;
  }

  /** What a constructor given those three options builds. */
  lemma NewEntitlementThree(r: Resource, slug: string, kind: EntitlementKind,
                            types: seq<ResourceType>, description: string, displayName: string)
    ensures NewEntitlement(r, slug, kind, [WithGrantableTo(types), WithDescription(description), WithDisplayName(displayName)])
         == Entitlement(r.id, slug, kind, TypeIds(types), description, displayName)
  {
    ThreeOptions(Entitlement(r.id, slug, kind, [], "", slug), types, description, displayName);
  }
}
