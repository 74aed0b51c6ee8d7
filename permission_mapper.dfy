/**
 * `global/PermissionMapper.java`: the permission strings written into an
 * access token for each role, in the format `USER:<ACTION>:<SCOPE>`.
 */
module Permissions {
  import opened Common

  /** `resource + ":" + action + ":" + scope`. */
  function Perm(resource: string, action: string, scope: string): string
  {
    resource + ":" + action + ":" + scope
  }

  /** The action words of the format: the four actions, or MANAGE for all of them. */
  const PermActions: set<string> := {"CREATE", "READ", "UPDATE", "DELETE", "MANAGE"}

  /** The scope words of the format. */
  const PermScopes: set<string> := {"GLOBAL", "HUB", "VENDOR"}

  /** A permission in the documented format, over the USER resource. */
  predicate WellFormed(p: string)
  {
    exists a, s | a in PermActions && s in PermScopes :: p == Perm("USER", a, s)
  }

  /** `permsFor(role)`. */
  function PermsFor(role: Role): (perms: seq<string>)
    ensures forall i :: 0 <= i < |perms| ==> WellFormed(perms[i])
    ensures forall i, j :: 0 <= i < j < |perms| ==> perms[i] != perms[j]
    ensures role == Master <==> perms == ["USER:MANAGE:GLOBAL"]
    ensures role != Master ==> "USER:READ:HUB" in perms && "USER:READ:VENDOR" in perms
    ensures "USER:CREATE:VENDOR" in perms <==> role == HubManager
    ensures "USER:DELETE:VENDOR" in perms <==> role == HubManager
    ensures "USER:UPDATE:VENDOR" in perms <==> role == HubManager || role == VendorManager
  {
    assert "USER:MANAGE:GLOBAL" == Perm("USER", "MANAGE", "GLOBAL");
    assert "USER:READ:HUB" == Perm("USER", "READ", "HUB");
    assert "USER:READ:VENDOR" == Perm("USER", "READ", "VENDOR");
    assert "USER:CREATE:VENDOR" == Perm("USER", "CREATE", "VENDOR");
    assert "USER:UPDATE:VENDOR" == Perm("USER", "UPDATE", "VENDOR");
    assert "USER:DELETE:VENDOR" == Perm("USER", "DELETE", "VENDOR");
    match role
    case Master => ["USER:MANAGE:GLOBAL"]
    case HubManager => ["USER:READ:HUB", "USER:READ:VENDOR", "USER:CREATE:VENDOR", "USER:UPDATE:VENDOR", "USER:DELETE:VENDOR"]
    case VendorManager => ["USER:READ:HUB", "USER:READ:VENDOR", "USER:UPDATE:VENDOR"]
    case DeliveryManager => ["USER:READ:HUB", "USER:READ:VENDOR"]
  }

  /** Each role's permissions include the next role's: DELIVERY within VENDOR within HUB. */
  lemma PermsNest(p: string)
    ensures p in PermsFor(DeliveryManager) ==> p in PermsFor(VendorManager)
    ensures p in PermsFor(VendorManager) ==> p in PermsFor(HubManager)
  {
  }
}
