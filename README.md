# user-service authorization and account core, in Dafny

This project models the core of the `user-service` of a logistics platform.
The service keeps user accounts in four roles: MASTER, HUB_MANAGER,
VENDOR_MANAGER and DELIVERY_MANAGER. It issues JWT access and refresh
tokens and answers authorization questions for the other services.
The model covers the following parts:

- **Two authorization engines.**
  - The principal-based policy engine `AuthzPolicyService.decide` (module `AuthzPolicy`, with `AuthzPrincipals`).
  - The rule table `UserRoleScope` (module `UserRoleScope`), which parses the action with `Action.of` (module `ActionParse`).
  - Lemmas in `EngineComparison` show where the two engines agree and where they differ.
- **The method-security checks.**
  - `AccessChecker` (module `AccessChecking`).
  - The permission strings of `PermissionMapper` (module `Permissions`).
  - The permission test of `AuthzService` (module `AuthzServices`).
- **Tokens.**
  - The claims `JwtProvider` puts into access and refresh tokens (module `Jwt`).
  - The bearer-token filter `JwtAuthorizationFilter` (module `JwtFilter`).
  - The Redis bookkeeping of refresh tokens and the access-token blacklist in `TokenRedisService`, modelled as a class over a map of expiring entries (module `TokenStore`).
- **Accounts.**
  - The `User` entity as a class whose mutators change one field each (module `Users`).
  - The repositories as classes over a sequence of users and a map of courier records (module `UserStore`).
  - `loadUserByUsername` (module `UserDetailsLoading`).
  - The request bodies and their validation constraints (module `RequestDtos`).
  - Administrator account creation and the batch approve/reject loop of `UserService` (module `UserServices`).
  - Sign-up, username recovery, password reset and temporary-password generation of `AuthService` (module `AuthServices`).
- **Shared types and Java string behaviour.**
  - `Common` holds the shared enums and `Option`/`Result`.
  - `JavaStrings` holds `String.trim`, ASCII `toUpperCase`/`toLowerCase` and `StringUtils.hasText`.

Exceptions are `Failure(code)` values of a `Result`, or the `Some(code)`
of an error function that the operation checks before it changes any state.
A service method that throws inside a `@Transactional` block is modelled as
checking its error first and storing nothing.

Some behaviours are modelled exactly as written, and the lemmas make them visible:
- `signUp` stores a VENDOR_MANAGER's vendor id in the hub-id field (`SignedUpVendorManagerManagesNoVendor`).
- `createUser` checks e-mail uniqueness on the trimmed address without lower-casing it, although it stores the lower-cased address (`EmailCheckMissesCaseVariants`). In the program the database's unique e-mail column then rejects the insert; the model has no such constraint.
- Generated temporary passwords need not match the sign-up password pattern (`TempPasswordMayMissPattern`).

## Model

Source cells give the repository file and the lines the member models.

| member | source | states |
|---|---|---|
| ActionParse.ValueOf | src/main/java/com/sparta/userservice/global/security/role/Action.java:6-8 | the constant found has exactly the given name; none found means no constant has that name |
| ActionParse.Of | src/main/java/com/sparta/userservice/global/security/role/Action.java:6-8 | `of` finds the action whose name is the trimmed, upper-cased input; absent means no action has that name (IllegalArgumentException) |
| ActionParse.OfName | src/main/java/com/sparta/userservice/global/security/role/Action.java:6-8 | parsing an action's own name gives that action back (round trip) |
| ActionParse.OfIgnoresCaseAndPadding | src/main/java/com/sparta/userservice/global/security/role/Action.java:6-8 | any spelling whose upper-case is an action name, padded with trimmable characters, parses to that action |
| ActionParse.OfReadSpellings | src/main/java/com/sparta/userservice/global/security/role/Action.java:6-8 | "read", " Read " and "READ" all parse to READ |
| ActionParse.OfReadLower | src/main/java/com/sparta/userservice/global/security/role/Action.java:6-8 | lower-case "read" parses to READ |
| ActionParse.OfReadPadded | src/main/java/com/sparta/userservice/global/security/role/Action.java:6-8 | a padded " Read " parses to READ |
| ActionParse.OfRejectsUnknownName | src/main/java/com/sparta/userservice/global/security/role/Action.java:6-8 | an unknown word such as "remove" is rejected |
| AuthzPolicy.ActionIn | src/main/java/com/sparta/userservice/global/security/authz/AuthzPolicyService.java:223-228 | true exactly when the action is present and among the listed ones |
| AuthzPolicy.AllActionsComplete | src/main/java/com/sparta/userservice/global/security/role/Action.java:3-8 | the list of actions the policies use holds every action |
| AuthzPolicy.Decide | src/main/java/com/sparta/userservice/global/security/authz/AuthzPolicyService.java:16-40 | MASTER is always permitted, even without a resource; for anyone else a missing resource throws (NullPointerException) exactly, and a permit needs a known resource and a present action |
| AuthzPolicy.Permits | src/main/java/com/sparta/userservice/global/security/authz/AuthzPolicyService.java:16-40 | a permit is `decide` returning true, as opposed to false or an exception |
| AuthzPolicy.HubPolicy | src/main/java/com/sparta/userservice/global/security/authz/AuthzPolicyService.java:47-52 | every role but MASTER, which `decide` permits before any table, may only READ hubs |
| AuthzPolicy.HubPathPolicy | src/main/java/com/sparta/userservice/global/security/authz/AuthzPolicyService.java:59-64 | every role but MASTER may only READ hub paths |
| AuthzPolicy.DeliveryManagerPolicy | src/main/java/com/sparta/userservice/global/security/authz/AuthzPolicyService.java:73-87 | a hub manager has every action on couriers of its own non-null hub; a vendor manager none; a courier only READ of its own record |
| AuthzPolicy.VendorPolicy | src/main/java/com/sparta/userservice/global/security/authz/AuthzPolicyService.java:96-116 | a hub manager has every action on vendors of its hub; a vendor manager may UPDATE its own vendor and READ any; a courier may READ |
| AuthzPolicy.ProductPolicy | src/main/java/com/sparta/userservice/global/security/authz/AuthzPolicyService.java:125-145 | a hub manager has every action on products of its hub; a vendor manager may CREATE or UPDATE its own vendor's products and READ any; a courier may READ |
| AuthzPolicy.OrderPolicy | src/main/java/com/sparta/userservice/global/security/authz/AuthzPolicyService.java:154-175 | a hub manager may CREATE any order and READ, UPDATE or DELETE orders of its hub; a vendor manager and a courier may CREATE, and READ their own orders |
| AuthzPolicy.DeliveryPolicy | src/main/java/com/sparta/userservice/global/security/authz/AuthzPolicyService.java:184-206 | a hub manager may READ, UPDATE or DELETE deliveries of its hub but not CREATE; a vendor manager and a courier may READ; a courier may UPDATE deliveries assigned to it |
| AuthzPolicy.SlackPolicy | src/main/java/com/sparta/userservice/global/security/authz/AuthzPolicyService.java:213-216 | every role but MASTER may only CREATE Slack messages |
| AuthzPolicy.HubIsReadOnly | src/main/java/com/sparta/userservice/global/security/authz/AuthzPolicyService.java:47-64 | outside MASTER, HUB and HUB_PATH are permitted exactly for READ |
| AuthzPolicy.SlackIsCreateOnly | src/main/java/com/sparta/userservice/global/security/authz/AuthzPolicyService.java:213-216 | outside MASTER, SLACK is permitted exactly for CREATE |
| AuthzPolicy.MissingActionDenied | src/main/java/com/sparta/userservice/global/security/authz/AuthzPolicyService.java:219-228 | outside MASTER, a request without an action is denied on every resource |
| AuthzPolicy.VendorRules | src/main/java/com/sparta/userservice/global/security/authz/AuthzPolicyService.java:96-116 | a hub manager acts on vendors of its own hub; a vendor manager reads or updates its own vendor; a courier only reads |
| AuthzPolicy.ProductRules | src/main/java/com/sparta/userservice/global/security/authz/AuthzPolicyService.java:125-145 | the same shape as vendors, over the product's hub and vendor |
| AuthzPolicy.DeliveryManagerRules | src/main/java/com/sparta/userservice/global/security/authz/AuthzPolicyService.java:73-87 | a hub manager needs a present, equal hub; a courier reads only its own record; a vendor manager is denied |
| AuthzPolicy.OrderRules | src/main/java/com/sparta/userservice/global/security/authz/AuthzPolicyService.java:154-175 | everyone creates orders; otherwise hub managers need the hub and the others need ownership |
| AuthzPolicy.DeliveryRules | src/main/java/com/sparta/userservice/global/security/authz/AuthzPolicyService.java:184-206 | nobody but MASTER creates deliveries; hub managers act within their hub, vendor managers only read, couriers act on their own |
| AuthzPolicy.AbsentHubMatchesAbsentTarget | src/main/java/com/sparta/userservice/global/security/authz/AuthzPolicyService.java:96-116 | a hub manager without a hub is permitted on a vendor request without a hub, because two absent ids compare equal |
| AuthzPrincipals.From | src/main/java/com/sparta/userservice/global/security/authz/AuthzPrincipal.java:25-35 | the principal copies the account's id, role, hub and vendor, and the courier record's delivery type when there is one |
| Security.AnyMatch | src/main/java/com/sparta/userservice/global/AccessChecker.java:19-22 | true exactly when some authority is among the wanted ones |
| Security.AnyMatchMonotonic | src/main/java/com/sparta/userservice/global/AccessChecker.java:19-22 | more authorities never make a match fail |
| UserRoleScope.Principal | src/main/java/com/sparta/userservice/global/security/role/UserRoleScope.java:147-151 | a principal is present exactly when the authentication holds user details, and it is that account |
| UserRoleScope.Same | src/main/java/com/sparta/userservice/global/security/role/UserRoleScope.java:169-171 | two scope ids match only when the first is present and equal to the second |
| UserRoleScope.IsSelf | src/main/java/com/sparta/userservice/global/security/role/UserRoleScope.java:173-175 | an owner id matches only when it is present and is the principal's own id |
| UserRoleScope.HubRule | src/main/java/com/sparta/userservice/global/security/role/UserRoleScope.java:16-25 | writes on hubs are MASTER-only and every role may READ |
| UserRoleScope.DeliveryManagerRule | src/main/java/com/sparta/userservice/global/security/role/UserRoleScope.java:40-52 | writes on couriers need MASTER or a hub manager of the same hub; READ adds a courier reading its own record |
| UserRoleScope.VendorRule | src/main/java/com/sparta/userservice/global/security/role/UserRoleScope.java:55-69 | writes on vendors need MASTER or a hub manager of the same hub, and UPDATE also admits any vendor manager; every role may READ |
| UserRoleScope.ProductRule | src/main/java/com/sparta/userservice/global/security/role/UserRoleScope.java:72-91 | CREATE and UPDATE need MASTER, a hub manager of the same hub or a vendor manager of the same vendor; DELETE needs MASTER or a hub manager of the same hub; every role may READ |
| UserRoleScope.OrderRule | src/main/java/com/sparta/userservice/global/security/role/UserRoleScope.java:94-108 | every role may CREATE orders; other actions need MASTER, a hub manager of the same hub, or a vendor manager or courier who owns the order |
| UserRoleScope.DeliveryRule | src/main/java/com/sparta/userservice/global/security/role/UserRoleScope.java:111-126 | only MASTER creates deliveries; other actions need MASTER, a hub manager of the same hub, a vendor manager for READ, or the assigned courier |
| UserRoleScope.SlackRule | src/main/java/com/sparta/userservice/global/security/role/UserRoleScope.java:129-138 | every role may CREATE Slack messages; the other actions are MASTER-only |
| UserRoleScope.Guarded | src/main/java/com/sparta/userservice/global/security/role/UserRoleScope.java:16-25 | a bad action fails before the principal is looked at; without a principal nothing is permitted; otherwise the rule decides |
| UserRoleScope.CanHub | src/main/java/com/sparta/userservice/global/security/role/UserRoleScope.java:16-25 | fails exactly on an unknown action; permits exactly a principal whose hub rule holds |
| UserRoleScope.CanHubRoute | src/main/java/com/sparta/userservice/global/security/role/UserRoleScope.java:28-37 | the same as hubs, for hub routes |
| UserRoleScope.CanDeliveryManager | src/main/java/com/sparta/userservice/global/security/role/UserRoleScope.java:40-52 | fails exactly on an unknown action; permits exactly a principal whose courier-record rule holds |
| UserRoleScope.CanVendor | src/main/java/com/sparta/userservice/global/security/role/UserRoleScope.java:55-69 | fails exactly on an unknown action; permits exactly a principal whose vendor rule holds |
| UserRoleScope.CanProduct | src/main/java/com/sparta/userservice/global/security/role/UserRoleScope.java:72-91 | fails exactly on an unknown action; permits exactly a principal whose product rule holds |
| UserRoleScope.CanOrder | src/main/java/com/sparta/userservice/global/security/role/UserRoleScope.java:94-108 | fails exactly on an unknown action; permits exactly a principal whose order rule holds |
| UserRoleScope.CanDelivery | src/main/java/com/sparta/userservice/global/security/role/UserRoleScope.java:111-126 | fails exactly on an unknown action; permits exactly a principal whose delivery rule holds |
| UserRoleScope.CanSlack | src/main/java/com/sparta/userservice/global/security/role/UserRoleScope.java:129-138 | fails exactly on an unknown action; permits exactly a principal whose Slack rule holds |
| UserRoleScope.CanReadUser | src/main/java/com/sparta/userservice/global/security/role/UserRoleScope.java:140-143 | true exactly when a principal is present and the target is that principal's own id |
| UserRoleScope.MasterAllowedEverything | src/main/java/com/sparta/userservice/global/security/role/UserRoleScope.java:16-138 | every rule admits MASTER for every action and target |
| UserRoleScope.HubManagerWithoutHubIsDenied | src/main/java/com/sparta/userservice/global/security/role/UserRoleScope.java:169-171 | a hub manager without a hub never matches a hub, so it loses every hub-scoped right |
| UserRoleScope.NoPrincipalNoAccess | src/main/java/com/sparta/userservice/global/security/role/UserRoleScope.java:147-151 | without user details nothing is permitted |
| UserRoleScope.BadActionFailsBeforePrincipal | src/main/java/com/sparta/userservice/global/security/role/UserRoleScope.java:16-25 | an unknown action fails with IllegalArgument whatever the authentication |
| UserRoleScope.AnyoneReadsHubs | src/main/java/com/sparta/userservice/global/security/role/UserRoleScope.java:16-25 | every authenticated account reads hubs |
| UserRoleScope.OnlyMasterWritesHubs | src/main/java/com/sparta/userservice/global/security/role/UserRoleScope.java:16-25 | a hub write is permitted exactly for MASTER |
| UserRoleScope.DeliveryManagerReadsSelf | src/main/java/com/sparta/userservice/global/security/role/UserRoleScope.java:40-52 | a courier reads exactly its own record and never updates it |
| UserRoleScope.VendorManagerUpdatesAnyVendor | src/main/java/com/sparta/userservice/global/security/role/UserRoleScope.java:55-69 | a vendor manager may update any vendor, but not create or delete one |
| UserRoleScope.ProductWriteNeedsOwnScope | src/main/java/com/sparta/userservice/global/security/role/UserRoleScope.java:72-91 | outside MASTER, a product write needs the principal's own hub or vendor |
| UserRoleScope.OrderOwnership | src/main/java/com/sparta/userservice/global/security/role/UserRoleScope.java:94-108 | for vendor managers and couriers, anything but create needs ownership of the order |
| UserRoleScope.DeliveryByRole | src/main/java/com/sparta/userservice/global/security/role/UserRoleScope.java:111-126 | vendor managers only read deliveries; couriers act only on deliveries assigned to them |
| EngineComparison.HubEnginesAgree | src/main/java/com/sparta/userservice/global/security/authz/AuthzPolicyService.java:47-64 | the policy engine and the rule table decide hub and hub-route requests alike |
| EngineComparison.SlackEnginesAgree | src/main/java/com/sparta/userservice/global/security/authz/AuthzPolicyService.java:213-216 | the two engines decide Slack requests alike |
| EngineComparison.DeliveryManagerEnginesAgree | src/main/java/com/sparta/userservice/global/security/authz/AuthzPolicyService.java:73-87 | the two engines decide courier-record requests alike |
| EngineComparison.VendorEnginesDiffer | src/main/java/com/sparta/userservice/global/security/authz/AuthzPolicyService.java:96-116 | on vendors the policy engine permits only what the rule table permits, and misses exactly a hub manager reading another hub's vendor and a vendor manager updating another vendor |
| EngineComparison.ProductEnginesDiffer | src/main/java/com/sparta/userservice/global/security/authz/AuthzPolicyService.java:125-145 | on products the policy engine permits only what the rule table permits, and misses exactly a hub manager reading another hub's product |
| EngineComparison.OrderEnginesDiffer | src/main/java/com/sparta/userservice/global/security/authz/AuthzPolicyService.java:154-175 | on orders the policy engine permits only what the rule table permits, and misses exactly a vendor manager or courier updating or deleting its own order |
| EngineComparison.DeliveryEnginesDiffer | src/main/java/com/sparta/userservice/global/security/authz/AuthzPolicyService.java:184-206 | on deliveries the engines differ both ways, only for couriers: the policy engine lets one read any delivery, the rule table lets one delete its own |
| EngineComparison.AbsentHubsDiverge | src/main/java/com/sparta/userservice/global/security/role/UserRoleScope.java:169-171 | a hub manager without a hub updates a vendor without a hub under the policy engine but not under the rule table |
| AccessChecking.RoleAuthority | src/main/java/com/sparta/userservice/global/AccessChecker.java:21 | a role authority is the role name behind the `ROLE_` prefix |
| AccessChecking.HasRole | src/main/java/com/sparta/userservice/global/AccessChecker.java:19-22 | true exactly when the authorities contain the role's authority |
| AccessChecking.CanManageHub | src/main/java/com/sparta/userservice/global/AccessChecker.java:24-33 | MASTER authority, or HUB_MANAGER authority with a present account hub equal to the target |
| AccessChecking.CanManageVendor | src/main/java/com/sparta/userservice/global/AccessChecker.java:35-44 | MASTER authority, or VENDOR_MANAGER authority with a present account vendor equal to the target |
| AccessChecking.CanManageVendorUnderHub | src/main/java/com/sparta/userservice/global/AccessChecker.java:46-51 | a pass needs MASTER or HUB_MANAGER authority |
| AccessChecking.VendorUnderHubIsManageHub | src/main/java/com/sparta/userservice/global/AccessChecker.java:46-51 | the check decides exactly as `canManageHub` |
| AccessChecking.CanManageDelivery | src/main/java/com/sparta/userservice/global/AccessChecker.java:53-70 | MASTER authority always passes; otherwise a pass needs exactly the caller to be the named courier, with the flag, a record, and a HUB_TO_HUB type or a HUB_TO_VENDOR type with a hub |
| AccessChecking.MasterAuthorityPassesAll | src/main/java/com/sparta/userservice/global/AccessChecker.java:24-70 | MASTER authority passes all four checks |
| AccessChecking.AuthoritiesNotAccountRole | src/main/java/com/sparta/userservice/global/AccessChecker.java:24-33 | the hub check trusts the authorities, not the account's role |
| AccessChecking.ManageHubMonotonic | src/main/java/com/sparta/userservice/global/AccessChecker.java:24-33 | adding authorities never revokes a hub check |
| Permissions.PermsFor | src/main/java/com/sparta/userservice/global/PermissionMapper.java:17-43 | every permission is well-formed and listed once; MASTER has exactly the global manage grant; every other role reads users of its hub and vendor; only a hub manager creates or deletes vendor users, and hub and vendor managers update them |
| Permissions.PermsNest | src/main/java/com/sparta/userservice/global/PermissionMapper.java:24-41 | a courier's permissions are a vendor manager's, which are a hub manager's |
| AuthzServices.Accepted | src/main/java/com/sparta/userservice/global/security/AuthzService.java:12-21 | the exact permission is always among the accepted ones |
| AuthzServices.Has | src/main/java/com/sparta/userservice/global/security/AuthzService.java:12-21 | true exactly when some authority is an accepted permission |
| AuthzServices.InSameHub | src/main/java/com/sparta/userservice/global/security/AuthzService.java:24-29 | true exactly when the target hub is present and equals the account's hub |
| AuthzServices.InSameVendor | src/main/java/com/sparta/userservice/global/security/AuthzService.java:31-36 | true exactly when the target vendor is present and equals the account's vendor |
| AuthzServices.PermInjective | src/main/java/com/sparta/userservice/global/PermissionMapper.java:8-13 | colon-free resource and action names make permission strings decode uniquely |
| AuthzServices.AcceptedArePerms | src/main/java/com/sparta/userservice/global/security/AuthzService.java:12-21 | the accepted set is the exact permission, MANAGE in the scope, the action in GLOBAL scope, and MANAGE in GLOBAL scope |
| AuthzServices.SingleGrant | src/main/java/com/sparta/userservice/global/security/AuthzService.java:12-21 | one granted permission satisfies exactly the requests on its resource whose action it equals or is MANAGE, and whose scope it equals or is GLOBAL |
| AuthzServices.ManageGlobalGrantsAll | src/main/java/com/sparta/userservice/global/security/AuthzService.java:12-21 | the global manage grant of a resource satisfies every action and scope on it |
| AuthzServices.HasMonotonic | src/main/java/com/sparta/userservice/global/security/AuthzService.java:12-21 | more authorities never revoke a permission |
| AuthzServices.NothingFromNothing | src/main/java/com/sparta/userservice/global/security/AuthzService.java:12-21 | no authorities grant nothing |
| AuthzServices.MasterPermsGrantAll | src/main/java/com/sparta/userservice/global/PermissionMapper.java:20-22 | MASTER's permissions satisfy every user action in every scope |
| AuthzServices.DeliveryManagerPermsReadOnly | src/main/java/com/sparta/userservice/global/PermissionMapper.java:38-41 | a courier's permissions satisfy exactly reading users of its hub or vendor |
| AuthzServices.HubManagerPerms | src/main/java/com/sparta/userservice/global/PermissionMapper.java:24-30 | a hub manager's permissions satisfy exactly reading users of its hub or vendor, and creating, updating or deleting vendor users |
| AuthzServices.VendorManagerPerms | src/main/java/com/sparta/userservice/global/PermissionMapper.java:32-36 | a vendor manager's permissions satisfy exactly reading users of its hub or vendor, and updating vendor users |
| AuthzServices.HasSplit | src/main/java/com/sparta/userservice/global/security/AuthzService.java:12-21 | a permission is held by concatenated authorities exactly when either part holds it |
| Jwt.CreateAccessToken | src/main/java/com/sparta/userservice/global/security/jwt/JwtProvider.java:57-80 | issuer, subject, 15-minute validity; username, role, permissions and token type always; the hub and vendor claims exactly when the account has them; the delivery type exactly for a courier record and its hub exactly when the record has one; each with its value |
| Jwt.CreateRefreshToken | src/main/java/com/sparta/userservice/global/security/jwt/JwtProvider.java:82-93 | issuer, subject, issued now and expiring 14 days later, and the token type as the only custom claim |
| Jwt.ClaimNamesDistinct | src/main/java/com/sparta/userservice/global/security/jwt/JwtProvider.java:34-41 | the six account claim names and the two delivery claim names are distinct |
| JwtFilter.ResolveToken | src/main/java/com/sparta/userservice/global/security/jwt/filter/JwtAuthorizationFilter.java:78-85 | a token exactly when the header has text and starts with "Bearer ", and then the header is that prefix plus the token |
| JwtFilter.StringClaim | src/main/java/com/sparta/userservice/global/security/jwt/filter/JwtAuthorizationFilter.java:47-52 | absent claim reads as null; a non-string claim fails; a string claim reads as itself |
| JwtFilter.DoFilter | src/main/java/com/sparta/userservice/global/security/jwt/filter/JwtAuthorizationFilter.java:39-65 | the request is authenticated only as an approved stored account, and only for a bearer token whose type claim is "access" |
| JwtFilter.ResolveBearer | src/main/java/com/sparta/userservice/global/security/jwt/filter/JwtAuthorizationFilter.java:78-85 | stripping the prefix inverts adding it |
| JwtFilter.LowerCaseBearerIgnored | src/main/java/com/sparta/userservice/global/security/jwt/filter/JwtAuthorizationFilter.java:80 | the prefix is matched case-sensitively |
| JwtFilter.BlankTokenProceedsUnauthenticated | src/main/java/com/sparta/userservice/global/security/jwt/filter/JwtAuthorizationFilter.java:44 | without a token with text the chain proceeds unauthenticated |
| JwtFilter.NonAccessTokenRefused | src/main/java/com/sparta/userservice/global/security/jwt/filter/JwtAuthorizationFilter.java:47-50 | any other token type ends the request with AUTH_NOT_ACCESS_TOKEN |
| JwtFilter.RefreshTokenRefused | src/main/java/com/sparta/userservice/global/security/jwt/filter/JwtAuthorizationFilter.java:47-50 | a refresh token issued by the provider is refused |
| JwtFilter.BlankUsernameProceedsUnauthenticated | src/main/java/com/sparta/userservice/global/security/jwt/filter/JwtAuthorizationFilter.java:52-53 | an access token without a username proceeds unauthenticated |
| JwtFilter.AccessTokenAuthenticates | src/main/java/com/sparta/userservice/global/security/jwt/filter/JwtAuthorizationFilter.java:52-61 | an access token naming a loadable account authenticates as that account |
| JwtFilter.AuthzEndpointIsFiltered | src/main/java/com/sparta/userservice/global/security/jwt/filter/JwtAuthorizationFilter.java:68-74 | the internal authorization endpoint `/v1/internal/authz/check` is filtered and sign-in is not |
| JwtFilter.ShouldNotFilter | src/main/java/com/sparta/userservice/global/security/jwt/filter/JwtAuthorizationFilter.java:68-74 | the filter is skipped exactly for "/" and paths starting with "/v1/auth/", "/swagger" or "/v3/api-docs" |
| TokenStore.Key | src/main/java/com/sparta/userservice/service/TokenRedisService.java:21-22 | every key starts with its keyspace prefix |
| TokenStore.SecondsUntilExpiration | src/main/java/com/sparta/userservice/service/TokenRedisService.java:72-74 | at least one second; the whole seconds left when that is at least one; never beyond the expiry unless clamped to one |
| TokenStore.LiveIn | src/main/java/com/sparta/userservice/service/TokenRedisService.java:40-42 | a value exactly for a stored key that has not expired, and it is the stored value |
| TokenStore.TokenRedisService.SaveRefresh | src/main/java/com/sparta/userservice/service/TokenRedisService.java:29-35 | stores the token under its id for the seconds left, and it is then live |
| TokenStore.TokenRedisService.GetRefresh | src/main/java/com/sparta/userservice/service/TokenRedisService.java:40-42 | the live value under the refresh key of that id |
| TokenStore.TokenRedisService.BlackListAccess | src/main/java/com/sparta/userservice/service/TokenRedisService.java:49-55 | stores "1" under the access token's blacklist key for the seconds left, and it is then live |
| TokenStore.TokenRedisService.IsBlacklisted | src/main/java/com/sparta/userservice/service/TokenRedisService.java:60-65 | true exactly when the blacklist key is live |
| TokenStore.KeyspacesDisjoint | src/main/java/com/sparta/userservice/service/TokenRedisService.java:21-22 | no refresh key is a blacklist key |
| TokenStore.PutThenLive | src/main/java/com/sparta/userservice/service/TokenRedisService.java:29-35 | a stored value is live until its time-to-live runs out, then gone |
| TokenStore.PutOtherKey | src/main/java/com/sparta/userservice/service/TokenRedisService.java:29-35 | storing one key leaves every other key as it was |
| TokenStore.RefreshLeavesBlacklist | src/main/java/com/sparta/userservice/service/TokenRedisService.java:29-55 | saving a refresh token never changes a blacklist answer |
| TokenStore.LastWriteWins | src/main/java/com/sparta/userservice/service/TokenRedisService.java:29-35 | a second store under the same key replaces the first |
| TokenStore.BlacklistIdempotent | src/main/java/com/sparta/userservice/service/TokenRedisService.java:49-55 | blacklisting twice is blacklisting once |
| TokenStore.IssuedTokensShareOneKey | src/main/java/com/sparta/userservice/global/security/jwt/JwtProvider.java:82-93 | tokens issued without an id all map to "refresh:null" and "blacklist:null" |
| TokenStore.BlacklistingOneBlacklistsAll | src/main/java/com/sparta/userservice/service/TokenRedisService.java:49-65 | blacklisting one id-less token blacklists every id-less token |
| TokenStore.SecondRefreshReplacesFirst | src/main/java/com/sparta/userservice/service/TokenRedisService.java:29-42 | after a second user's refresh token is saved, the first user's token key answers with the second token |
| Users.User.constructor | src/main/java/com/sparta/userservice/domain/user/User.java:18-63 | the builder's fields, no hub or vendor, not a courier |
| Users.User.UpdatePassword | src/main/java/com/sparta/userservice/domain/user/User.java:30-32 | the password becomes the new one, nothing else changes |
| Users.User.AssignHubId | src/main/java/com/sparta/userservice/domain/user/User.java:53-55 | the hub becomes the given id, nothing else changes |
| Users.User.AssignVendorId | src/main/java/com/sparta/userservice/domain/user/User.java:59-61 | the vendor becomes the given id, nothing else changes |
| Users.User.AssignAsDeliveryManager | src/main/java/com/sparta/userservice/domain/user/User.java:65-67 | the courier flag is set, nothing else changes |
| Users.User.Approve | src/main/java/com/sparta/userservice/service/UserService.java:223-224 | the status becomes APPROVE, nothing else changes |
| Users.User.Reject | src/main/java/com/sparta/userservice/service/UserService.java:225-226 | the status becomes REJECT, nothing else changes |
| UserStore.FindByUsername | src/main/java/com/sparta/userservice/service/AuthService.java:102-107 | a found account is stored and has that username; none found means no stored account has it |
| UserStore.FindByEmail | src/main/java/com/sparta/userservice/service/AuthService.java:84-89 | a found account is stored and has that e-mail; none found means no stored account has it |
| UserStore.FindById | src/main/java/com/sparta/userservice/service/UserService.java:200-201 | a found account is stored and has that id; none found means no stored account has it |
| UserStore.ExistsByUsername | src/main/java/com/sparta/userservice/service/AuthService.java:124-128 | an account with the username exists exactly when the lookup by username finds one |
| UserStore.ExistsByEmail | src/main/java/com/sparta/userservice/service/AuthService.java:130-134 | an account with the e-mail exists exactly when the lookup by e-mail finds one |
| UserStore.FindByUsernameAppend | src/main/java/com/sparta/userservice/service/AuthService.java:52-61 | an account saved under a new username is the one found by that username |
| UserStore.UserRepository.Save | src/main/java/com/sparta/userservice/service/UserService.java:76-85 | appends a fresh account with the next identity and the given fields, keeping ids distinct |
| UserStore.CourierRepository.Save | src/main/java/com/sparta/userservice/service/UserService.java:111-117 | the record is stored under its owner's id |
| UserDetailsLoading.LoadUserByUsername | src/main/java/com/sparta/userservice/global/security/jwt/user/UserDetailsServiceImpl.java:24-34 | USER_NOT_FOUND exactly when no account has the username; USER_PENDING_APPROVAL exactly when it exists unapproved; an existing approved account is returned, and any success is that account |
| RequestDtos.PatternImpliesNotBlank | src/main/java/com/sparta/userservice/dto/request/SignUpReqDto.java:16-28 | a username or password matching its pattern is never blank |
| RequestDtos.NotBlank | src/main/java/com/sparta/userservice/dto/request/SignUpReqDto.java:16 | `@NotBlank`: some character is not whitespace |
| RequestDtos.ValidUsername | src/main/java/com/sparta/userservice/dto/request/SignUpReqDto.java:17-20 | the username pattern: 4 to 10 lower-case letters and digits with at least one of each |
| RequestDtos.ValidPassword | src/main/java/com/sparta/userservice/dto/request/SignUpReqDto.java:24-27 | the password pattern: 8 to 15 characters from letters, digits and "!@#$%^&*", with a lower-case letter, an upper-case letter, a digit and a special character |
| RequestDtos.ValidSignUp | src/main/java/com/sparta/userservice/dto/request/SignUpReqDto.java:16-44 | every annotated field of the sign-up body is not blank, and username and password match their patterns (`@Email` aside) |
| RequestDtos.ValidCreateUser | src/main/java/com/sparta/userservice/dto/request/CreateUserReqDto.java:16-41 | every annotated field of the account-creation body is not blank, and username and password match their patterns (`@Email` aside) |
| RequestDtos.ValidUsernameIsTrimmed | src/main/java/com/sparta/userservice/dto/request/SignUpReqDto.java:16-21 | a valid username is unchanged by the services' trim |
| RequestDtos.SameConstraints | src/main/java/com/sparta/userservice/dto/request/CreateUserReqDto.java:16-41 | a valid sign-up body's shared fields form a valid account-creation body |
| RequestDtos.UsernameLettersOnlyRejected | src/main/java/com/sparta/userservice/dto/request/SignUpReqDto.java:17-20 | a username without a digit is rejected |
| RequestDtos.UsernameDigitsOnlyRejected | src/main/java/com/sparta/userservice/dto/request/SignUpReqDto.java:17-20 | a username without a letter is rejected |
| RequestDtos.UsernameMixedAccepted | src/main/java/com/sparta/userservice/dto/request/SignUpReqDto.java:17-20 | a short mix of letters and a digit is accepted |
| RequestDtos.UsernameTooLongRejected | src/main/java/com/sparta/userservice/dto/request/SignUpReqDto.java:17-20 | eleven characters are too many |
| RequestDtos.PasswordExampleAccepted | src/main/java/com/sparta/userservice/dto/request/SignUpReqDto.java:23-28 | a password with all four character classes is accepted |
| UserServices.Distinct | src/main/java/com/sparta/userservice/service/UserService.java:197 | no duplicates, the same members as the input, never longer |
| UserServices.DistinctKeepsFirstOccurrenceOrder | src/main/java/com/sparta/userservice/service/UserService.java:197 | the distinct ids keep the order of their first occurrences |
| UserServices.IdSet | src/main/java/com/sparta/userservice/service/UserService.java:200-201 | the ids found by `findAllById` are exactly the stored ids |
| UserServices.Completed | src/main/java/com/sparta/userservice/service/UserService.java:206-229 | the completed list holds exactly the requested ids that are stored |
| UserServices.Failed | src/main/java/com/sparta/userservice/service/UserService.java:206-211 | the failed list holds exactly the requested ids that are not stored, each with AUTH_USER_NOT_FOUND |
| UserServices.CompletedKeepsOrder | src/main/java/com/sparta/userservice/service/UserService.java:206-229 | for distinct ids, the completed list keeps the order in which the ids were requested |
| UserServices.FailedKeepsOrder | src/main/java/com/sparta/userservice/service/UserService.java:206-211 | for distinct ids, the failures keep the order in which their ids were requested |
| UserServices.ReportPartitions | src/main/java/com/sparta/userservice/service/UserService.java:203-231 | each distinct id is reported exactly once, in one list or the other |
| UserServices.UpdateOne | src/main/java/com/sparta/userservice/service/UserService.java:207-228 | reports whether the id is stored and sets that account's status to the target, whether or not it already had it |
| UserServices.ApplyStatus | src/main/java/com/sparta/userservice/service/UserService.java:213-228 | the account's status becomes the target, whether it already had it or not, and no other field changes |
| UserServices.UpdateStatus | src/main/java/com/sparta/userservice/service/UserService.java:195-232 | reports completed and failed ids in first-occurrence order (the order lemmas are `CompletedKeepsOrder` and `FailedKeepsOrder`); every stored requested account gets the target status and nothing else changes |
| UserServices.CreateRoleError | src/main/java/com/sparta/userservice/service/UserService.java:88-107 | hub id required exactly for a hub manager or a HUB_TO_VENDOR courier without one; vendor id for a vendor manager without one; delivery type for a courier without one |
| UserServices.CreateUserError | src/main/java/com/sparta/userservice/service/UserService.java:70-107 | duplicate username first, then duplicate trimmed e-mail, then exactly the role check's error; no error exactly when all pass |
| UserServices.CreatedScope | src/main/java/com/sparta/userservice/service/UserService.java:88-107 | a created hub manager has a hub, a vendor manager a vendor, a courier has a hub exactly for HUB_TO_VENDOR, and MASTER neither |
| UserServices.CreatedHubId | src/main/java/com/sparta/userservice/service/UserService.java:88-107 | the hub a created account gets: the requested hub for a hub manager and for a HUB_TO_VENDOR courier, otherwise none |
| UserServices.CreatedVendorId | src/main/java/com/sparta/userservice/service/UserService.java:94-97 | the vendor a created account gets: the requested vendor for a vendor manager, otherwise none |
| UserServices.AssignScope | src/main/java/com/sparta/userservice/service/UserService.java:88-107 | assigns the hub, vendor and courier flag the role calls for |
| UserServices.SaveCourier | src/main/java/com/sparta/userservice/service/UserService.java:109-119 | a courier record with the type and the account's hub is saved exactly for a flagged account |
| UserServices.SaveCreated | src/main/java/com/sparta/userservice/service/UserService.java:76-119 | appends an approved account with the given fields and role scope, and a courier record exactly for couriers |
| UserServices.CreateUser | src/main/java/com/sparta/userservice/service/UserService.java:68-122 | fails exactly with the first error and changes nothing; otherwise appends the approved, normalised, encoded account and its courier record |
| UserServices.EmailCheckMissesCaseVariants | src/main/java/com/sparta/userservice/service/UserService.java:71-74 | an e-mail differing from a stored one only in case passes the check, although it is stored lower-cased |
| AuthServices.SignUpRoleError | src/main/java/com/sparta/userservice/service/AuthService.java:66-80 | hub id required exactly for a hub manager or courier without one; vendor id for a vendor manager without one |
| AuthServices.SignUpError | src/main/java/com/sparta/userservice/service/AuthService.java:36-80 | duplicate username, then duplicate lower-cased e-mail, then password mismatch, then exactly the role check's error; no error exactly when all pass |
| AuthServices.AssignSignUpScope | src/main/java/com/sparta/userservice/service/AuthService.java:66-80 | assigns the hub field and courier flag the role calls for |
| AuthServices.SaveSignedUp | src/main/java/com/sparta/userservice/service/AuthService.java:52-80 | appends a pending account with the given fields, its hub field, and no vendor |
| AuthServices.SignUp | src/main/java/com/sparta/userservice/service/AuthService.java:36-81 | fails exactly with the first error and stores nothing; otherwise appends a pending account with the trimmed username, lower-cased e-mail and encoded password |
| AuthServices.SignUpScope | src/main/java/com/sparta/userservice/service/AuthService.java:66-80 | hub managers and couriers get their hub id; a vendor manager gets its vendor id in the hub field; MASTER gets none |
| AuthServices.SignUpHubId | src/main/java/com/sparta/userservice/service/AuthService.java:66-80 | the hub field a signed-up account gets: the hub id for hub managers and couriers, the vendor id for vendor managers (as written), none for MASTER |
| AuthServices.SignedUpAwaitsApproval | src/main/java/com/sparta/userservice/global/security/jwt/user/UserDetailsServiceImpl.java:28-31 | a freshly signed-up account cannot load until approved |
| AuthServices.ApprovedAccountLogsIn | src/main/java/com/sparta/userservice/global/security/jwt/user/UserDetailsServiceImpl.java:24-34 | an approved account under a new username loads as itself |
| AuthServices.SignedUpVendorManagerManagesNoVendor | src/main/java/com/sparta/userservice/service/AuthService.java:71-74 | a self-registered vendor manager, left without a vendor, passes no vendor check |
| AuthServices.SignUpEmailIgnoresCase | src/main/java/com/sparta/userservice/service/AuthService.java:42-43 | an e-mail matching a stored one after lower-casing is a duplicate |
| AuthServices.FindId | src/main/java/com/sparta/userservice/service/AuthService.java:83-98 | USER_NOT_FOUND exactly when no account has the trimmed e-mail; USER_DATA_MISMATCH exactly when its name differs; a matching name yields that account's username, and any success is that |
| AuthServices.AlphabetIsPatternClass | src/main/java/com/sparta/userservice/service/AuthService.java:151 | the 70-character alphabet is exactly the password pattern's character class |
| AuthServices.GenerateTempPassword | src/main/java/com/sparta/userservice/service/AuthService.java:150-162 | 8 plus the length draw characters, the i-th being the alphabet character at the i-th draw |
| AuthServices.TempPasswordShape | src/main/java/com/sparta/userservice/service/AuthService.java:150-162 | a temporary password has 8 to 15 characters, all from the pattern's class |
| AuthServices.TempPasswordMayMissPattern | src/main/java/com/sparta/userservice/service/AuthService.java:150-162 | a possible temporary password fails the sign-up password pattern |
| AuthServices.FindPwError | src/main/java/com/sparta/userservice/service/AuthService.java:101-114 | USER_NOT_FOUND exactly when no account has the username; USER_DATA_MISMATCH exactly when its name or e-mail differs; no error exactly when the account exists and both match |
| AuthServices.FindPw | src/main/java/com/sparta/userservice/service/AuthService.java:101-120 | fails exactly with that error and changes no password; otherwise returns a drawn temporary password whose encoding becomes that account's password only |

## Left out

- JWT signing, parsing and signature validation: token parsing is a function parameter (`parseToken`, `validate`), and claims are values. `TokenRedisService` calls `jwtProvider.parseToken`, which `JwtProvider` does not declare (it has `validateAndParse`); the store's `parseToken` is total, so a parse that throws there is not expressed.
- Redis itself: the store is a map with expiry times and an explicit clock; concurrent access, Redis failures and `deleteRefresh` are not modelled.
- Spring Security plumbing: the filter chain, `SecurityContextHolder`, `JwtAuthenticationFilter` and the sign-in flow.
- The controllers, response DTOs, `getUser`, `GlobalExceptionHandler` and `SeedMasterRunner`.
- Users.User: the entity modelled is `domain/user/User.java`, the class with the mutators and the courier flag; the services import the other `domain/User.java`, which has neither.
- Users.User.Approve, Users.User.Reject: neither `User` class defines `approve()` or `reject()`; their effect (the status becomes APPROVE or REJECT) is inferred from how `updateStatus` uses them at `UserService.java:213-228`.
- JPA: database unique constraints, lazy loading, and identity values consumed by a rolled-back transaction. A rollback is modelled as checking errors before saving.
- `@Email`: that constraint is left out; `@NotBlank` and `@Pattern` are modelled.
- Character case mapping and `trim` cover ASCII only; Unicode case mapping is not modelled.
- Null strings: request fields and headers are either absent (`Option`) or present strings; this includes every field of the unvalidated authorization request body, whose null `resource` is the `NullPointer` failure of `AuthzPolicy.Decide`. Null `Long`/`UUID` ids are `Option`s.
- `PasswordEncoder` and `SecureRandom` are parameters: an encode function, and the draws of `nextInt(8)` and `nextInt(70)`.
- ClassCastException and NullPointerException paths (a principal that is not `UserDetailsImpl`, a courier record without a type) are preconditions, not error results.
- UserServices.UpdateStatus: reports each failure's reason as an error code rather than its detail message.
- AuthServices.SignUp: returns the saved account, where the Java method returns nothing.
