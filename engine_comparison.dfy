/**
 * The two authorization engines side by side: `AuthzPolicyService.decide`
 * on the `AuthzPrincipal` snapshot of a caller, and the `UserRoleScope`
 * switch on the same caller's account. They agree on some resources and
 * differ on others, and the differences are stated exactly here.
 */
module EngineComparison {
  import opened Common
  import opened Users
  import opened Security
  import opened AuthzPrincipals
  import opened AuthzPolicy
  import opened UserRoleScope

  /** The request `decide` receives for resource `r`, action `a` and the given targets. */
  function Request(r: string, a: Action, hub: Option<Uuid>, vendor: Option<Uuid>, user: Option<UserId>): (req: AuthzRequest)
    ensures req.resource == Some(r) && req.action == Some(a)
    ensures req.targetHubId == hub && req.targetVendorId == vendor && req.targetUserId == user
  {
    AuthzRequest(Some(r), Some(a), hub, vendor, user)
  }

  /** The account behind an authentication that holds a `UserDetailsImpl`. */
  function Me(auth: Authentication): (me: UserView)
    requires HoldsUserDetails(auth)
    ensures Principal(Some(auth)) == Some(me)
  {
    auth.principal.value.user
  }

  /** HUB and HUB_PATH: the engines agree on every input. */
  lemma HubEnginesAgree(auth: Authentication, a: Action, hub: Option<Uuid>, vendor: Option<Uuid>, user: Option<UserId>)
    requires HoldsUserDetails(auth)
    ensures Permits(From(auth), Request("HUB", a, hub, vendor, user)) <==> HubRule(a, Me(auth))
    ensures Permits(From(auth), Request("HUB_PATH", a, hub, vendor, user)) <==> HubRule(a, Me(auth))
  {
  }

  /** SLACK: the engines agree on every input. */
  lemma SlackEnginesAgree(auth: Authentication, a: Action, hub: Option<Uuid>, vendor: Option<Uuid>, user: Option<UserId>)
    requires HoldsUserDetails(auth)
    ensures Permits(From(auth), Request("SLACK", a, hub, vendor, user)) <==> SlackRule(a, Me(auth))
  {
  }

  /**
   * DELIVERY_MANAGER: the engines agree on every input, absent targets
   * included, because `deliveryManagerPolicy` rejects a null target hub
   * itself and a principal's user id is always present.
   */
  lemma DeliveryManagerEnginesAgree(auth: Authentication, a: Action, hub: Option<Uuid>, vendor: Option<Uuid>, user: Option<UserId>)
    requires HoldsUserDetails(auth)
    ensures Permits(From(auth), Request("DELIVERY_MANAGER", a, hub, vendor, user))
            <==> DeliveryManagerRule(a, Me(auth), hub, user)
  {
    AllActionsComplete(a);
  }

  /**
   * VENDOR with present targets: the engines differ exactly on a hub
   * manager reading another hub's vendor (only `canVendor` permits) and a
   * vendor manager updating another vendor (only `canVendor` permits).
   */
  lemma VendorEnginesDiffer(auth: Authentication, a: Action, hub: Uuid, vendor: Uuid, user: Option<UserId>)
    requires HoldsUserDetails(auth)
    ensures var me := Me(auth);
      var decide := Permits(From(auth), Request("VENDOR", a, Some(hub), Some(vendor), user));
      var scope := VendorRule(a, me, Some(hub));
      (decide ==> scope)
      && (scope && !decide <==>
            (me.role == HubManager && a == Read && me.hubId != Some(hub))
            || (me.role == VendorManager && a == Update && me.vendorId != Some(vendor)))
  {
    AllActionsComplete(a);
  }

  /**
   * PRODUCT with present targets: `decide` permits only what `canProduct`
   * permits, and misses only a hub manager reading another hub's product.
   */
  lemma ProductEnginesDiffer(auth: Authentication, a: Action, hub: Uuid, vendor: Uuid, user: Option<UserId>)
    requires HoldsUserDetails(auth)
    ensures var me := Me(auth);
      var decide := Permits(From(auth), Request("PRODUCT", a, Some(hub), Some(vendor), user));
      var scope := ProductRule(a, me, Some(hub), Some(vendor));
      (decide ==> scope)
      && (scope && !decide <==> me.role == HubManager && a == Read && me.hubId != Some(hub))
  {
    AllActionsComplete(a);
  }

  /**
   * ORDER with present targets: `decide` permits only what `canOrder`
   * permits, and misses only a vendor or delivery manager updating or
   * deleting its own order.
   */
  lemma OrderEnginesDiffer(auth: Authentication, a: Action, hub: Uuid, vendor: Uuid, owner: UserId)
    requires HoldsUserDetails(auth)
    ensures var me := Me(auth);
      var decide := Permits(From(auth), Request("ORDER", a, Some(hub), Some(vendor), Some(owner)));
      var scope := OrderRule(a, me, Some(hub), Some(owner));
      (decide ==> scope)
      && (scope && !decide <==>
            (me.role == VendorManager || me.role == DeliveryManager)
            && (a == Update || a == Delete) && owner == me.userId)
  {
  }

  /**
   * DELIVERY with present targets: the engines differ in both directions,
   * both times for a courier: `decide` lets it read any delivery, and
   * `canDelivery` lets it delete its own.
   */
  lemma DeliveryEnginesDiffer(auth: Authentication, a: Action, hub: Uuid, vendor: Uuid, assignee: UserId)
    requires HoldsUserDetails(auth)
    ensures var me := Me(auth);
      var decide := Permits(From(auth), Request("DELIVERY", a, Some(hub), Some(vendor), Some(assignee)));
      var scope := DeliveryRule(a, me, Some(hub), Some(assignee));
      (decide && !scope <==> me.role == DeliveryManager && a == Read && assignee != me.userId)
      && (scope && !decide <==> me.role == DeliveryManager && a == Delete && assignee == me.userId)
  {
  }

  /**
   * With absent ids the engines part ways further: a hub manager without a
   * hub may, by `decide`, update a vendor whose hub is absent, which
   * `canVendor` refuses because `same` needs a present own hub.
   */
  lemma AbsentHubsDiverge(auth: Authentication, vendor: Option<Uuid>, user: Option<UserId>)
    requires HoldsUserDetails(auth)
    requires Me(auth).role == HubManager && Me(auth).hubId == None
    ensures Permits(From(auth), Request("VENDOR", Update, None, vendor, user))
    ensures !VendorRule(Update, Me(auth), None)
  {
    AllActionsComplete(Update);
  }
}
