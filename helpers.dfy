/** The option list shared by catalog entries (pkg/connector/helpers.go). The
    title caser it sits next to is an English-language library call; wherever the
    connector uses it, the model takes it as a parameter `titleCase`. */
module Helpers {
  import opened Sdk
  import ResourceTypes

  /** PopulateOptions: grantable to users, with a description and a display name
      built from the three words. */
  function PopulateOptions(displayName: string, permission: string, resource: string): (opts: seq<EntitlementOption>)
    ensures |opts| == 3
  {
    [WithGrantableTo([ResourceTypes.UserType]),
     WithDescription(permission + " of Box " + displayName + " " + resource),
     WithDisplayName(displayName + " " + resource + " " + permission)]
  }

  /** An entitlement built with these options is grantable only to users and
      carries the two formatted texts. */
  lemma PopulatedEntitlement(r: Resource, slug: string, kind: EntitlementKind,
                             displayName: string, permission: string, resource: string)
    ensures var e := NewEntitlement(r, slug, kind, PopulateOptions(displayName, permission, resource));
      && e.resource == r.id && e.slug == slug && e.kind == kind
      && e.grantableTo == ["user"]
      && e.description == permission + " of Box " + displayName + " " + resource
      && e.displayName == displayName + " " + resource + " " + permission
  {
    ThreeOptions(Entitlement(r.id, slug, kind, [], "", slug), [ResourceTypes.UserType],
                 permission + " of Box " + displayName + " " + resource,
                 displayName + " " + resource + " " + permission);
  }
}
