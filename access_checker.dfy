/**
 * `global/AccessChecker.java`: the role-and-affiliation checks used by
 * method-security expressions. Roles are read from the authority strings
 * (`ROLE_<NAME>`), affiliations from the `UserDetailsImpl` principal,
 * which the source casts to unconditionally: callers whose principal is
 * anything else get a ClassCastException, so the checks that reach the
 * cast require one.
 */
module AccessChecking {
  import opened Common
  import opened Users
  import opened Security

  /** The authority string Spring Security gives a role. */
  function RoleAuthority(role: Role): (s: string)
    ensures |s| > 5 && s[..5] == "ROLE_"
  {
    "ROLE_" + RoleName(role)
  }

  /** `has(auth, role)`: some authority equals `ROLE_<role>`. */
  function HasRole(auth: Authentication, role: Role): (r: bool)
    ensures r <==> RoleAuthority(role) in auth.authorities
  {
    AnyMatch(auth.authorities, {RoleAuthority(role)})
  }

  /** Whether the cast in `resolveUser` is reached on a check that starts with `has(auth, MASTER)`. */
  predicate ReachesCast(auth: Authentication)
  {
    !HasRole(auth, Master)
  }

  /**
   * `canManageHub(auth, hubId)`: MASTER authority, or HUB_MANAGER
   * authority plus a present affiliated hub equal to the target.
   */
  function CanManageHub(auth: Authentication, hubId: Option<Uuid>): (r: bool)
    requires ReachesCast(auth) ==> HoldsUserDetails(auth)
    ensures r <==>
      (HasRole(auth, Master)
       || (HasRole(auth, HubManager)
           && auth.principal.value.user.hubId.Some?
           && auth.principal.value.user.hubId == hubId))
  {
    if HasRole(auth, Master) then true
    else
      var affiliated := auth.principal.value.user.hubId;
      HasRole(auth, HubManager) && affiliated.Some? && affiliated == hubId
  }

  /** `canManageVendor(auth, vendorId)`: the same shape over the vendor. */
  function CanManageVendor(auth: Authentication, vendorId: Option<Uuid>): (r: bool)
    requires ReachesCast(auth) ==> HoldsUserDetails(auth)
    ensures r <==>
      (HasRole(auth, Master)
       || (HasRole(auth, VendorManager)
           && auth.principal.value.user.vendorId.Some?
           && auth.principal.value.user.vendorId == vendorId))
  {
    if HasRole(auth, Master) then true
    else
      var affiliated := auth.principal.value.user.vendorId;
      HasRole(auth, VendorManager) && affiliated.Some? && affiliated == vendorId
  }

  /**
   * `canManageVendorUnderHub(auth, hubId)`: returns false before the cast
   * for a caller holding neither MASTER nor HUB_MANAGER.
   */
  function CanManageVendorUnderHub(auth: Authentication, hubId: Option<Uuid>): (r: bool)
    requires ReachesCast(auth) && HasRole(auth, HubManager) ==> HoldsUserDetails(auth)
    ensures r ==> HasRole(auth, Master) || HasRole(auth, HubManager)
  {
    if HasRole(auth, Master) then true
    else if !HasRole(auth, HubManager) then false
    else CanManageHub(auth, hubId)
  }

  /**
   * `canManageDelivery(auth, deliveryManagerId)`: MASTER, or the courier
   * itself, flagged as one, whose record is HUB_TO_HUB, or HUB_TO_VENDOR
   * with a hub. A record without a type is refused.
   */
  function CanManageDelivery(auth: Authentication, deliveryManagerId: Option<UserId>): (r: bool)
    requires ReachesCast(auth) ==> HoldsUserDetails(auth)
    ensures HasRole(auth, Master) ==> r
    ensures !HasRole(auth, Master) ==>
      var d := auth.principal.value;
      (r <==>
        && deliveryManagerId == Some(d.user.userId)
        && d.user.isDeliveryManager
        && d.courier.Some?
        && (d.courier.value.kind == Some(HubToHub)
            || (d.courier.value.kind == Some(HubToVendor) && d.courier.value.hubId.Some?)))
  {
    if HasRole(auth, Master) then true
    else
      var d := auth.principal.value;
      if Some(d.user.userId) != deliveryManagerId then false
      else if !d.user.isDeliveryManager then false
      else match d.courier
        case None => false
        case Some(c) =>
          if c.kind == Some(HubToHub) then true
          else if c.kind == Some(HubToVendor) then c.hubId.Some?
          else false
  }

  /**
   * The extra guard of `canManageVendorUnderHub` changes nothing: it
   * decides exactly as `canManageHub` on every caller both accept.
   */
  lemma VendorUnderHubIsManageHub(auth: Authentication, hubId: Option<Uuid>)
    requires ReachesCast(auth) ==> HoldsUserDetails(auth)
    ensures CanManageVendorUnderHub(auth, hubId) == CanManageHub(auth, hubId)
  {
  }

  /** A MASTER authority passes every check, whatever the principal. */
  lemma MasterAuthorityPassesAll(auth: Authentication, hubId: Option<Uuid>, vendorId: Option<Uuid>, id: Option<UserId>)
    requires HasRole(auth, Master)
    ensures CanManageHub(auth, hubId) && CanManageVendor(auth, vendorId)
    ensures CanManageVendorUnderHub(auth, hubId) && CanManageDelivery(auth, id)
  {
  }

  /**
   * The checks trust authorities, not the account's role: a caller whose
   * authorities carry HUB_MANAGER manages its hub even if the account says
   * another role.
   */
  lemma AuthoritiesNotAccountRole(auth: Authentication, hubId: Uuid)
    requires HoldsUserDetails(auth) && !HasRole(auth, Master)
    requires RoleAuthority(HubManager) in auth.authorities
    requires auth.principal.value.user.hubId == Some(hubId)
    ensures CanManageHub(auth, Some(hubId))
  {
  }

  /** Adding authorities never revokes a hub check. */
  lemma {:induction false} ManageHubMonotonic(auth: Authentication, more: seq<string>, hubId: Option<Uuid>)
    requires HoldsUserDetails(auth)
    requires forall i :: 0 <= i < |auth.authorities| ==> auth.authorities[i] in more
    ensures CanManageHub(auth, hubId) ==> CanManageHub(Authentication(auth.principal, more), hubId)
  {
    var bigger := Authentication(auth.principal, more);
    AnyMatchMonotonic(auth.authorities, more, {RoleAuthority(Master)});
    AnyMatchMonotonic(auth.authorities, more, {RoleAuthority(HubManager)});
    assert HasRole(auth, Master) ==> HasRole(bigger, Master);
    assert HasRole(auth, HubManager) ==> HasRole(bigger, HubManager);
  }
}
