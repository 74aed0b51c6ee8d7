/**
 * `security/authz/AuthzPrincipal.java`: the immutable snapshot of the
 * caller that the `/authz/check` engine decides on.
 */
module AuthzPrincipals {
  import opened Common
  import opened Users
  import opened Security

  /** Every field is a nullable Java reference in the source. */
  datatype AuthzPrincipal = AuthzPrincipal(
    userId: Option<UserId>,
    role: Role,
    hubId: Option<Uuid>,
    vendorId: Option<Uuid>,
    deliveryType: Option<DeliveryType>)

  /**
   * `AuthzPrincipal.from(auth)`: the cast to `UserDetailsImpl` throws for any
   * other principal, so callers must hold one.
   */
  function From(auth: Authentication): (p: AuthzPrincipal)
    requires HoldsUserDetails(auth)
    ensures var d := auth.principal.value;
      && p.userId == Some(d.user.userId)
      && p.role == d.user.role
      && p.hubId == d.user.hubId
      && p.vendorId == d.user.vendorId
      && (p.deliveryType.Some? ==> d.courier.Some?)
      && (d.courier.Some? ==> p.deliveryType == d.courier.value.kind)
  {
    var d := auth.principal.value;
    AuthzPrincipal(
      Some(d.user.userId),
      d.user.role,
      d.user.hubId,
      d.user.vendorId,
      if d.courier.Some? then d.courier.value.kind else None)
  }
}
