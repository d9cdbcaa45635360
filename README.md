# baton-box in Dafny

A model of the Box connector for the baton access-graph synchroniser. The connector reads a Box enterprise and never writes to it. It turns what it reads into the nodes and edges of an access graph:

- **Resources**: users, groups, the enterprise and its roles.
- **Entitlements**: what a resource offers.
- **Grants**: which principal holds which entitlement.

The model covers these parts:

- **The Box API client.** This is the offset/limit pagination loop shared by the three list getters, and the two single-object getters. It includes the request step, which writes the package-level error record, and the choice of error message that reads that record back.
- **The syncers.** There is one syncer each for users, groups, the enterprise and roles. Each has its resource mapper, its entitlement catalog and its grant resolver.
- **The two validators.** These are the configuration check and the admin check.

## Layout

| file | module | models |
|---|---|---|
| wrappers.dfy | Wrappers | Option, and Result (a Go `(value, error)` pair) |
| models.dfy | BoxModels | the API records of pkg/box/models.go |
| decimal.dfy | Decimal | `strconv.Itoa` and its inverse |
| sdk.dfy | Sdk | the baton-sdk resource, entitlement and grant values, and their option constructors |
| gomaps.dfy | GoMaps | the order in which `range` visits a Go map, given as a parameter |
| client.dfy | BoxClient | pkg/box/client.go: the `Client` class, the abstract `Server`, the loop specification `FetchRun` and its lemmas |
| resource_types.dfy | ResourceTypes | the four resource types of pkg/connector/connector.go |
| connector.dfy | Connector | `Validate` and `ResourceSyncers` |
| config.dfy | Config | `validateConfig` |
| helpers.dfy | Helpers | `PopulateOptions` |
| user.dfy | UserSyncer | pkg/connector/user.go |
| group_common.dfy | GroupCommon | what groups.go and group.go declare identically (access levels, slugs, `groupResource`, `List`, the membership role grant) |
| groups_v1.dfy | GroupsV1 | the grant policy of pkg/connector/groups.go |
| group_v2.dfy | GroupV2 | the grant policy of pkg/connector/group.go |
| enterprise.dfy | EnterpriseSyncer | pkg/connector/enterprise.go |
| role.dfy | RoleSyncer | pkg/connector/role.go |

pkg/connector/groups.go and pkg/connector/group.go are two revisions of the same syncer. They declare the same names in one package, so they cannot be built together. Their grant policies differ, and each revision has its own module.

### How state is modelled

- **`BoxClient.Client`** is a class. Its field `errorResponse` plays the package-level `ErrorResponse`. Its ghost field `sent` logs the requests the transport has seen.
- **Getters.** Every getter is a method that changes only these two fields. It is proved equal to a specification function over an abstract `Server`:
  - `FetchRun`, a recursion on the offset, specifies the pagination loop;
  - `SingleCall` specifies a one-request getter.
- **`Server`** answers a page request by its offset, and a single-object request by its id. Each answer is a `Reply`: a transport error, or a status paired with the outcome of decoding the error body and the payload.
- **Loop invariants of `FetchAll`.** The loop keeps `offset == totalReturned`. It also keeps this equation:

  `FetchRun from offset 0 == (pages so far) followed by FetchRun from offset`.
- **Syncer loops.** Each loop in the syncers is a method that changes nothing.
  - The loops that map a list element by element (`UserSyncer.UserResources`, `GroupCommon.GroupResources`, `RoleSyncer.List`) are proved pointwise: entry i is the mapper applied to element i.
  - The other loops are proved equal to a back-recursive function. That function's lemmas then state the source's promises: counts, order, membership both ways, and the skips.
- **Definitions.** Rows below whose third column begins with "definition" name a specification function with no contract of its own; the lemmas and methods listed beside it state what it means.

## Model

| member | source | states |
|---|---|---|
| BoxClient.PaginationQueryReadsBack | pkg/box/client.go:55-63 | the pagination query holds exactly the keys offset and limit, each with a single decimal string that parses back to the given number |
| BoxClient.PageRequestQuery | pkg/box/client.go:125-126 | a page request's query holds offset, limit 200, and the getter's field list when it has one (set, so it holds one value), and nothing else |
| BoxClient.DoResult | pkg/box/client.go:253-285 | doRequest succeeds iff the transport answered, the payload decoded, and either the status was 200 or the error body decoded without error; on success the value is the decoded payload |
| BoxClient.ErrorAfter | pkg/box/client.go:274-278 | the error record changes only on a non-200 status, and then it becomes the old record with every field the error-body decoder wrote written over it (after a type error, all the others; after a syntax error, none) |
| BoxClient.PartialErrorBodyDecidesMessage | pkg/box/client.go:129-132 | a 404 whose error body fails with a type error after writing type "error" and message "Not Found" still makes the getter report "failed to get users: Not Found" |
| BoxClient.MergeError | pkg/box/client.go:275 | definition: each field the decoder wrote replaces the old one, every other field is kept |
| BoxClient.GetterError | pkg/box/client.go:129-132 | definition: "failed to get X: message" when the record's type is "error", else the raw error |
| BoxClient.PaginationQuery | pkg/box/client.go:55-63 | definition: the query with offset and limit set to their decimal renderings; stated by PaginationQueryReadsBack |
| BoxClient.RequestQuery | pkg/box/client.go:125-126 | definition: the pagination query, with fields set when the getter has a field list; stated by PageRequestQuery |
| BoxClient.FetchRun | pkg/box/client.go:112-146 | definition: the pagination loop as a recursion on the offset; stated by the FetchRun lemmas below and by Client.FetchAll |
| BoxClient.OkLeavesRecord | pkg/box/client.go:273-278 | a 200 response never touches the error record, whatever its payload |
| BoxClient.SingleCall | pkg/box/client.go:224-232 | a single-object getter sends one request; it succeeds iff doRequest did, with its value; on failure it returns "failed to get X: message" if the record's type is "error" after the request, else the raw error |
| BoxClient.StaleRecordDecidesMessage | pkg/box/client.go:129-132 | once an earlier failure left type "error" in the record, a later transport failure is reported with that earlier upstream message |
| BoxClient.FetchRunFails | pkg/box/client.go:128-133 | a failed request ends the loop at once, with the chosen message, no entries, and that one request sent |
| BoxClient.FetchRunEnds | pkg/box/client.go:135-140 | a page that brings the running total of limits up to its total count ends the loop, returning its entries after that one request |
| BoxClient.FetchRunGoesOn | pkg/box/client.go:137-142 | otherwise the page's limit is positive, the next offset is offset + limit (still below the bound), and the rest of the loop runs from there with the updated record |
| BoxClient.FetchRunFirstRequest | pkg/box/client.go:115-125 | every loop starts with a page request for its own offset with limit 200; the whole loop starts at offset 0 |
| BoxClient.FetchRunEntries | pkg/box/client.go:135-145 | a successful loop returns exactly the concatenation, in request order, of the entries of the pages it read |
| BoxClient.FetchRunRequests | pkg/box/client.go:115-142 | request i asks for the start offset plus the sum of the limits the earlier pages reported (not the number of entries), always with limit 200; a failed loop sends one request more than the pages it read |
| BoxClient.FetchRunPages | pkg/box/client.go:128-135 | page i is what the server answered to request i |
| BoxClient.FetchRunFailure | pkg/box/client.go:128-133 | a failed loop returns no entries; its message comes from the request that failed, decided by the record that request left behind |
| BoxClient.FetchRunStopsCovered | pkg/box/client.go:137-140 | a successful loop read at least one page, and the running total of limits covered the last page's total count |
| BoxClient.FetchRunNoEarlyStop | pkg/box/client.go:137-143 | every page read except the last page of a successful loop left the running total below its total count, so the loop stops at the first covering page |
| BoxClient.FetchRunSingleRequest | pkg/box/client.go:137-140 | if the first page already covers its total count (a total count of 0, say), exactly one request is sent and that page's entries are returned |
| BoxClient.ShortPageAccepted | pkg/box/client.go:135-145 | nothing compares the entries received with the total count: an empty page that reports 5 users ends an empty, successful loop |
| BoxClient.Client.constructor | pkg/box/client.go:35-52 | a fresh client has the zero error record and has sent nothing |
| BoxClient.Client.DoRequest | pkg/box/client.go:253-285 | one request is logged; the result is DoResult and the record becomes ErrorAfter of the old record |
| BoxClient.Client.FetchAll | pkg/box/client.go:112-146 | the loop, starting from offset 0 and keeping offset == totalReturned, returns, records and sends exactly what FetchRun specifies from the record it started with |
| BoxClient.Client.GetUsers | pkg/box/client.go:113-146 | the loop over /2.0/users with fields role,name,login,status |
| BoxClient.Client.GetGroups | pkg/box/client.go:149-182 | the loop over /2.0/groups with the group fields |
| BoxClient.Client.GetGroupMemberships | pkg/box/client.go:185-216 | the loop over /2.0/groups/ID/memberships with no fields |
| BoxClient.Client.GetCurrentUserWithEnterprise | pkg/box/client.go:219-233 | one request to /2.0/users/me with fields enterprise,role,name, as SingleCall specifies |
| BoxClient.Client.GetGroup | pkg/box/client.go:236-251 | one request to /2.0/groups/ID with the group fields, as SingleCall specifies |
| Decimal.NatToDecimal | pkg/box/client.go:57-58 | the rendering of a natural number is a non-empty digit string with no leading zero |
| Decimal.NatToDecimalRoundTrip | pkg/box/client.go:57-58 | reading the digits of n back gives n |
| Decimal.ItoaRoundTrip | pkg/box/client.go:57-58 | every integer, negative ones included, parses back from its strconv.Itoa rendering |
| ResourceTypes.AllTypes | pkg/connector/connector.go:15-41 | four resource types with pairwise distinct ids |
| ResourceTypes.Traits | pkg/connector/connector.go:15-41 | user, group and role carry exactly their own trait; enterprise carries none |
| ResourceTypes.SingleTypeIds | pkg/connector/connector.go:16-29 | a grantable-to list of the user type (or the group type) names exactly "user" (or "group") |
| Connector.ValidateOutcome | pkg/connector/connector.go:69-80 | validation passes iff the current user was fetched and its role is exactly "admin"; a fetch error is wrapped as "failed to authenticate", any other role gives "user is not an admin" |
| Connector.CoadminRejected | pkg/connector/connector.go:75-77 | a co-administrator (role "coadmin") is rejected |
| Connector.Validate | pkg/connector/connector.go:69-80 | fetches the current user once and returns ValidateOutcome of that call |
| Connector.ResourceSyncers | pkg/connector/connector.go:82-89 | four syncers, in the order user, group, enterprise, role |
| Config.ValidateConfig | cmd/baton-box/config.go:21-32 | nil iff all three fields are non-empty; an empty client id is reported whatever the rest; the secret is reported only when the id is set; the enterprise id only when both others are set |
| GoMaps.EnumerationLength | pkg/connector/groups.go:103 | a range over a map visits exactly as many keys as the map holds |
| Helpers.PopulateOptions | pkg/connector/helpers.go:18-25 | exactly three options |
| Helpers.PopulatedEntitlement | pkg/connector/helpers.go:18-25 | an entitlement built with them is grantable to users only, with description "P of Box D R" and display name "D R P" |
| UserSyncer.FirstSpace | pkg/connector/user.go:26 | the index of the first space, or the length when there is none |
| UserSyncer.SplitName | pkg/connector/user.go:26-34 | a name without a space is all first name with an empty last name; otherwise the first name has no space and first + " " + last is the name |
| UserSyncer.SplitAtFirstSpace | pkg/connector/user.go:26-34 | the first name is the text before the first space and the last name everything after it, spaces included |
| UserSyncer.SplitNameExample | pkg/connector/user.go:26-34 | "Ada B. Lovelace" splits into "Ada" and "B. Lovelace" |
| UserSyncer.MapStatus | pkg/connector/user.go:43-51 | "active" maps to enabled and only it, "inactive" to disabled and only it, every other string to unspecified |
| UserSyncer.UserProfile | pkg/connector/user.go:36-41 | the profile has exactly the keys first_name, last_name, login and user_id |
| UserSyncer.UserResource | pkg/connector/user.go:25-71 | a user resource with the user's id and name under the given parent, with the login as its only, primary, email and the mapped status |
| UserSyncer.ProfileKeepsName | pkg/connector/user.go:26-41 | the profile keeps login and id, and its first and last name give the name back |
| UserSyncer.UserResources | pkg/connector/user.go:83-91 | one resource per user, in order |
| UserSyncer.List | pkg/connector/user.go:73-94 | no parent: empty, nothing sent; otherwise the users' resources in order, or the fetch error wrapped as "failed to list users" |
| UserSyncer.Entitlements | pkg/connector/user.go:96-98 | always empty |
| UserSyncer.Grants | pkg/connector/user.go:100-102 | always empty |
| GroupCommon.LabelsDistinct | pkg/connector/groups.go:23-27 | no two access levels share a label |
| GroupCommon.GroupResource | pkg/connector/groups.go:44-64 | a group resource with the group's id and name under the given parent, profile exactly {group_id, group_name} |
| GroupCommon.GroupResources | pkg/connector/groups.go:76-85 | one resource per group, in order |
| GroupCommon.List | pkg/connector/groups.go:66-87 | no parent: empty, nothing sent; otherwise the groups' resources in order, or the fetch error wrapped as "failed to list groups" |
| GroupCommon.RoleGrant | pkg/connector/groups.go:137-144 | a membership grants its raw role string, unchecked, to the member user |
| GroupCommon.RoleGrants | pkg/connector/groups.go:137-145 | one role grant per membership, in order |
| GroupsV1.AssignmentEntitlement | pkg/connector/groups.go:93-99 | an assignment entitlement grantable to users, with "S of D Group in Box" and "D Group S" |
| GroupsV1.ViewEntitlement | pkg/connector/groups.go:110-116 | the permission "L view", grantable to groups, with its viewability texts |
| GroupsV1.InviteEntitlement | pkg/connector/groups.go:104-117 | the permission "L invite", grantable to groups, with its invitability texts |
| GroupsV1.Catalog | pkg/connector/groups.go:89-122 | definition: the two assignments, then view and invite per level in visiting order; stated by LevelEntitlementsFacts, CatalogShape and CatalogMembers |
| GroupsV1.Entitlements | pkg/connector/groups.go:89-122 | the two assignments, then a view and an invite entitlement per level, in visiting order |
| GroupsV1.LevelEntitlementsFacts | pkg/connector/groups.go:103-119 | two entitlements per visited level, all permissions grantable to groups on this resource, and nothing but a level's view or invite |
| GroupsV1.CatalogShape | pkg/connector/groups.go:89-122 | eight entitlements whatever the visiting order: member and admin assignments grantable to users, then six permissions grantable to groups |
| GroupsV1.CatalogMembers | pkg/connector/groups.go:89-122 | the catalog holds exactly the two assignments and the view and invite permission of every access level |
| GroupsV1.InviteGrant | pkg/connector/groups.go:172 | definition: the "L invite" grant, for the group's invitability level, held by the group |
| GroupsV1.ViewGrant | pkg/connector/groups.go:173 | definition: the "L view" grant, for the group's member-viewability level, held by the group |
| GroupsV1.LevelGrants | pkg/connector/groups.go:147-175 | definition: the second loop as a recursion; stated by LevelGrantsFacts and ResolveLevels |
| GroupsV1.KnownGroups | pkg/connector/groups.go:147-164 | the groups kept are exactly those whose two levels are both known, and no more than there are groups |
| GroupsV1.KnownGroupsAppend | pkg/connector/groups.go:147-164 | the filter keeps order: the known groups of a concatenation are those of the first part followed by those of the second |
| GroupsV1.ResolveGrants | pkg/connector/groups.go:137-175 | the membership grants followed by the level grants |
| GroupsV1.ResolveMemberships | pkg/connector/groups.go:137-145 | the first loop yields the role grants, in order |
| GroupsV1.ResolveLevels | pkg/connector/groups.go:147-175 | the second loop yields an invite and a view grant for each group with both levels known, and skips the rest |
| GroupsV1.LevelGrantsFacts | pkg/connector/groups.go:147-175 | two grants per group with both levels known, and a grant is there iff it is such a group's invite or view grant |
| GroupsV1.GrantsOfFacts | pkg/connector/groups.go:137-177 | the count is the memberships plus twice the known groups; the membership grants come first, in order; the rest are held by groups; all are on this resource |
| GroupsV1.LevelGrantsInCatalog | pkg/connector/groups.go:172-173 | every level grant names a permission of the catalog, whatever the visiting order |
| GroupsV1.GrantsCall | pkg/connector/groups.go:124-178 | definition: memberships fetched, then groups, then both resolved; stated by GrantsOfFacts and Grants |
| GroupsV1.Grants | pkg/connector/groups.go:124-178 | memberships first, then every group of the enterprise; either fetch error is returned unwrapped with no grants |
| GroupV2.AssignmentEntitlement | pkg/connector/group.go:93-101 | an assignment entitlement grantable to users, with "Title(S) of D group in Box" and "D group S" |
| GroupV2.LevelPermission | pkg/connector/group.go:104-112 | the permission whose slug is the level label itself, grantable to users |
| GroupV2.Catalog | pkg/connector/group.go:90-116 | definition: the two assignments, then one permission per level in visiting order; stated by LevelEntitlementsFacts, CatalogShape and CatalogMembers |
| GroupV2.Entitlements | pkg/connector/group.go:90-116 | the two assignments, then one permission per level in visiting order |
| GroupV2.LevelEntitlementsFacts | pkg/connector/group.go:104-113 | one permission per visited level, grantable to users, and nothing else |
| GroupV2.CatalogShape | pkg/connector/group.go:90-116 | five entitlements whatever the visiting order, all grantable to users: member, admin, then three permissions |
| GroupV2.CatalogMembers | pkg/connector/group.go:24-33 | the catalog holds exactly the two assignments and the permission of every access level |
| GroupV2.UserGrant | pkg/connector/group.go:133-139 | a grant on this resource held by the user |
| GroupV2.FanOut | pkg/connector/group.go:132-142 | one "all managed users" grant per enterprise user, in user order |
| GroupV2.AdminCount | pkg/connector/group.go:158 | the number of memberships whose role is exactly "admin", at most their number |
| GroupV2.AllManagedUserGrants | pkg/connector/group.go:132-142 | the user loop yields FanOut |
| GroupV2.Extra | pkg/connector/group.go:158-164 | definition: at admins_only an admin membership earns one extra grant, at admins_and_members every membership does, otherwise none |
| GroupV2.MembershipGrants | pkg/connector/group.go:150-165 | definition: the membership loop as a recursion; stated by MembershipGrantsCount, MembershipGrantsMembers and OtherLevelsNoExtras |
| GroupV2.ResolveMemberships | pkg/connector/group.go:150-165 | the membership loop: per membership its role grant, then its extra grant if its level earns one |
| GroupV2.MembershipGrantsCount | pkg/connector/group.go:150-165 | one grant per membership, plus one per admin membership at admins_only, or one per membership at admins_and_members |
| GroupV2.MembershipGrantsMembers | pkg/connector/group.go:150-164 | a grant is there iff it is a membership's role grant or the extra its level allows |
| GroupV2.OtherLevelsNoExtras | pkg/connector/group.go:158-164 | at any other level, unknown ones included, the memberships yield their role grants and nothing more |
| GroupV2.GrantsOfCount | pkg/connector/group.go:126-165 | the count formula, and at most one extra grant per membership |
| GroupV2.FanOutFirst | pkg/connector/group.go:126-143 | at all_managed_users the user grants come first, in user order |
| GroupV2.UsersFetchedOnlyForAllManaged | pkg/connector/group.go:126-130 | users are fetched only at all_managed_users; otherwise only the group and its memberships are requested |
| GroupV2.GrantsCall | pkg/connector/group.go:118-168 | definition: the group, then users at all_managed_users, then memberships; stated by GrantsOfCount, FanOutFirst and UsersFetchedOnlyForAllManaged |
| GroupV2.Grants | pkg/connector/group.go:118-168 | only this group is fetched, then users if its level says so, then its memberships; an error at any step is returned unwrapped with no grants |
| EnterpriseSyncer.EnterpriseResource | pkg/connector/enterprise.go:42-56 | a top-level resource with the enterprise's id and name, no trait, declaring exactly user and group as child types |
| EnterpriseSyncer.List | pkg/connector/enterprise.go:58-73 | exactly one resource, from the current user's enterprise, whatever the parent; a fetch error is returned unwrapped |
| EnterpriseSyncer.RolePermission | pkg/connector/enterprise.go:78-84 | a permission named by the role label, grantable to users |
| EnterpriseSyncer.Catalog | pkg/connector/enterprise.go:75-89 | definition: one permission per role in visiting order; stated by CatalogMembers and CatalogFacts |
| EnterpriseSyncer.Entitlements | pkg/connector/enterprise.go:75-89 | one permission per role, in visiting order |
| EnterpriseSyncer.CatalogMembers | pkg/connector/enterprise.go:77-86 | as many permissions as roles visited, and exactly the visited roles' permissions |
| EnterpriseSyncer.CatalogFacts | pkg/connector/enterprise.go:75-89 | exactly three permissions whatever the visiting order, one per role label, all grantable to users |
| EnterpriseSyncer.RoleGrant | pkg/connector/enterprise.go:99-115 | a user with a known role holds its mapped label on the enterprise |
| EnterpriseSyncer.KnownRoleUsers | pkg/connector/enterprise.go:98-106 | the users kept are exactly those whose role is a key of the role table, and no more than there are users |
| EnterpriseSyncer.KnownRoleUsersAppend | pkg/connector/enterprise.go:98-106 | the filter keeps order: the known-role users of a concatenation are those of the first part followed by those of the second |
| EnterpriseSyncer.RoleGrants | pkg/connector/enterprise.go:97-117 | definition: the user loop as a recursion; stated by RoleGrantsFollowUsers |
| EnterpriseSyncer.ResolveGrants | pkg/connector/enterprise.go:97-117 | the loop yields a grant per user with a known role and skips the rest |
| EnterpriseSyncer.RoleGrantsFollowUsers | pkg/connector/enterprise.go:97-117 | exactly one grant per user with a known role, in user order |
| EnterpriseSyncer.CoadminGrant | pkg/connector/enterprise.go:19-23 | a user with role "coadmin" is granted "co-admin" |
| EnterpriseSyncer.Grants | pkg/connector/enterprise.go:91-119 | the users are fetched and resolved; a fetch error is returned unwrapped |
| RoleSyncer.RoleResource | pkg/connector/role.go:32-55 | a role resource with id the role string, display name its title case, profile {role_name, role_id} |
| RoleSyncer.List | pkg/connector/role.go:57-72 | no parent: empty; otherwise one resource per role label, in visiting order, with nothing fetched |
| RoleSyncer.ListedIds | pkg/connector/role.go:25-29 | the listed ids are exactly "admin", "co-admin" and "user", never "coadmin" |
| RoleSyncer.Entitlements | pkg/connector/role.go:74-86 | exactly one permission, "member", grantable to users |
| RoleSyncer.MemberGrant | pkg/connector/role.go:102-105 | the "member" grant on this role held by the user |
| RoleSyncer.MatchingUsers | pkg/connector/role.go:102 | a user is kept iff it is one of the users and its role string equals the resource id, and no more than there are users |
| RoleSyncer.MatchingUsersAppend | pkg/connector/role.go:95-106 | the filter keeps order: the matching users of a concatenation are those of the first part followed by those of the second |
| RoleSyncer.MemberGrants | pkg/connector/role.go:95-106 | definition: the user loop as a recursion; stated by MemberGrantsMembers and MemberGrantsFollowUsers |
| RoleSyncer.ResolveGrants | pkg/connector/role.go:94-106 | the loop yields a member grant per user whose role string equals the resource id |
| RoleSyncer.MemberGrantsMembers | pkg/connector/role.go:95-106 | a grant is there iff it is the member grant of a user whose role equals the id; at most one per user |
| RoleSyncer.MemberGrantsFollowUsers | pkg/connector/role.go:95-106 | exactly one grant per matching user, in user order: grant i is the member grant of matching user i |
| RoleSyncer.CoAdminNeverGranted | pkg/connector/role.go:102 | the co-admin role resource never receives a grant when every user carries one of Box's role strings |
| RoleSyncer.Grants | pkg/connector/role.go:88-109 | the users are fetched and filtered; a fetch error is wrapped as "failed to list users" |

## Notes on the code

- **The co-admin role is never granted.** Box reports a co-administrator with the role string "coadmin". The role syncer, however, names that role resource by its label "co-admin" and grants only on an exact match (pkg/connector/role.go:102). `RoleSyncer.CoAdminNeverGranted` states the consequence. The model keeps the code as written.
- **Enterprise child types.** The enterprise resource declares users and groups as its children, and not roles (pkg/connector/enterprise.go:43-48). The model follows the code.
- **The record is shared.** The package-level error record is never reset. A getter's message therefore depends on every earlier failure (`StaleRecordDecidesMessage`).
- **The groups syncer logs the wrong field.** It writes the invitability value into its warning about an unknown member-viewability level (pkg/connector/groups.go:160). This is log content only and is not modelled.

## Left out

- RequestAccessToken, the OAuth2 token request and `connector.New` are not modelled. They are HTTP and SDK wiring.
- cmd/baton-box/main.go and `cmdFlags` are not modelled. They are command-line wiring.
- HTTP mechanics and JSON decoding are replaced by the abstract `Server`. Its `Reply` gives the outcome of each decoding step. Two consequences follow:
  - a request that cannot be built is not modelled;
  - decoding of the error body is modelled as the fields the decoder wrote plus the error it returned; after a syntax error it writes nothing, after a type error it has still written every field other than the mistyped ones.
- The payload is modelled as a complete value in every page. Go decodes each page into the same reused struct, so a missing field could keep the previous page's value; the model does not capture that.
- BoxClient.Client.FetchAll: a server whose pages could make the loop run forever is ruled out. The precondition `PagesBounded` asks that every total count be at most a bound, and that the limit be positive while the running total stays below the total count. The getters and the syncers that page carry it as `Server.WellBehaved`. That bound covers the whole server: every offset, and all three paged endpoints, including those a given syncer never reads.
- BoxClient.FetchRun: offsets, limits and the running total are unbounded integers. Go's `totalReturned += res.Limit` and `offset += res.Limit` (pkg/box/client.go:137, 142) wrap around at 2^63; the model does not capture that, so a page reporting a limit near 2^63 ends the model's loop where Go's would go on from a negative offset. The same holds for BoxClient.Client.FetchAll.
- BoxClient.Client: one client object stands in for the package-level `ErrorResponse`. That is enough because the connector has a single client.
- Contexts and logging are not modelled. Cancellation and deadlines are contexts, and the zap warnings on skipped groups and roles are logging; only the skip itself is modelled.
- The baton-sdk constructors are modelled as total functions (`Sdk`), so their internal error paths are not modelled.
- The SDK's user, group and role trait options are modelled as the resulting trait values.
- `titleCase` and the `titleCaser` library call are one uninterpreted function. Every member that uses them takes it as a parameter `titleCase`.
- Go's map iteration order is not fixed. The catalogs and the role list take the visiting order as a parameter `order` that enumerates the map's keys, and every property about them holds for every such order.
