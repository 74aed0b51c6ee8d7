/**
 * `global/security/role/UserRoleScope.java`: the `@policy` bean that the
 * method-security expressions call. Each `canX` parses the action string
 * first (a bad name throws before anything else is looked at), then
 * denies a caller without a `UserDetailsImpl` principal, then switches on
 * the action and the caller's role.
 */
module UserRoleScope {
  import opened Common
  import opened JavaStrings
  import opened ActionParse
  import opened Users
  import opened Security

  /** `principal(auth)`: the account behind a `UserDetailsImpl`, otherwise null. */
  function Principal(auth: Option<Authentication>): (me: Option<UserView>)
    ensures me.Some? <==> auth.Some? && HoldsUserDetails(auth.value)
    ensures me.Some? ==> me.value == auth.value.principal.value.user
  {
    if auth.None? || auth.value.principal.None? then None
    else match auth.value.principal.value
      case UserDetails(user, _) => Some(user)
      case OtherPrincipal => None
  }

  /** `same(a, b)`: unlike `Objects.equals`, an absent own id matches nothing. */
  predicate Same(mine: Option<Uuid>, target: Option<Uuid>)
  {
    mine.Some? && mine == target
  }

  /** `isSelf(me, owner)`: an absent owner matches nobody. */
  predicate IsSelf(me: UserView, owner: Option<UserId>)
  {
    owner == Some(me.userId)
  }

  // ---------------------------------------------------------------------
  // The switch of each `canX`, once the action parsed and a principal exists.
  // ---------------------------------------------------------------------

  /** The `canHub` and `canHubRoute` switch: anyone reads, only MASTER writes. */
  predicate HubRule(a: Action, me: UserView)
  {
    match a
    case Create | Update | Delete => me.role == Master
    case Read => true
  }

  /** The `canDeliveryManager` switch. */
  predicate DeliveryManagerRule(a: Action, me: UserView, targetHubId: Option<Uuid>, targetUserId: Option<UserId>)
  {
    match a
    case Create | Update | Delete =>
      me.role == Master || (me.role == HubManager && Same(me.hubId, targetHubId))
    case Read =>
      me.role == Master
      || (me.role == HubManager && Same(me.hubId, targetHubId))
      || (me.role == DeliveryManager && IsSelf(me, targetUserId))
  }

  /** The `canVendor` switch: a vendor manager may UPDATE any vendor. */
  predicate VendorRule(a: Action, me: UserView, hubId: Option<Uuid>)
  {
    match a
    case Create | Update | Delete =>
      if me.role == Master then true
      else if me.role == HubManager then Same(me.hubId, hubId)
      else if me.role == VendorManager then a == Update
      else false
    case Read => true
  }

  /** The `canProduct` switch. */
  predicate ProductRule(a: Action, me: UserView, hubId: Option<Uuid>, vendorId: Option<Uuid>)
  {
    match a
    case Create | Update =>
      if me.role == Master then true
      else if me.role == HubManager then Same(me.hubId, hubId)
      else if me.role == VendorManager then Same(me.vendorId, vendorId)
      else false
    case Delete =>
      if me.role == Master then true
      else if me.role == HubManager then Same(me.hubId, hubId)
      else false
    case Read => true
  }

  /** The `canOrder` switch. */
  predicate OrderRule(a: Action, me: UserView, hubId: Option<Uuid>, ownerUserId: Option<UserId>)
  {
    match a
    case Create => true
    case Update | Delete | Read =>
      if me.role == Master then true
      else if me.role == HubManager then Same(me.hubId, hubId)
      else if me.role == DeliveryManager || me.role == VendorManager then IsSelf(me, ownerUserId)
      else false
  }

  /** The `canDelivery` switch. */
  predicate DeliveryRule(a: Action, me: UserView, hubId: Option<Uuid>, assigneeUserId: Option<UserId>)
  {
    match a
    case Create => me.role == Master
    case Update | Delete | Read =>
      if me.role == Master then true
      else if me.role == HubManager then Same(me.hubId, hubId)
      else if me.role == DeliveryManager then IsSelf(me, assigneeUserId)
      else if me.role == VendorManager then a == Read
      else false
  }

  /** The `canSlack` switch: anyone sends, only MASTER does anything else. */
  predicate SlackRule(a: Action, me: UserView)
  {
    match a
    case Create => true
    case Update | Delete | Read => me.role == Master
  }

  /**
   * The common frame of every `canX`: a name `Action.of` rejects is the
   * IllegalArgumentException, raised before the principal is looked at;
   * no principal is a denial; otherwise `rule` decides.
   */
  function Guarded(action: string, auth: Option<Authentication>, rule: (Action, UserView) -> bool): (r: Result<bool, ErrorCode>)
    ensures r.Failure? <==> Of(action).None?
    ensures r.Failure? ==> r.error == IllegalArgument
    ensures r.Success? && r.value ==> Principal(auth).Some?
    ensures r.Success? && Principal(auth).Some? ==> r.value == rule(Of(action).value, Principal(auth).value)
  {
    match Of(action)
    case None => Failure(IllegalArgument)
    case Some(a) =>
      match Principal(auth)
      case None => Success(false)
      case Some(me) => Success(rule(a, me))
  }

  /** `canHub(action, hubId, auth)`: the hub id is not consulted. */
  function CanHub(action: string, hubId: Option<Uuid>, auth: Option<Authentication>): (r: Result<bool, ErrorCode>)
    ensures r.Failure? <==> Of(action).None?
    ensures r == Success(true) <==>
      (Of(action).Some? && Principal(auth).Some? &&
      var a, me := Of(action).value, Principal(auth).value;
      (a == Read || me.role == Master))
  {
    Guarded(action, auth, (a, me) => HubRule(a, me))
  }

  /** `canHubRoute(action, hubId, auth)`: the same table as `canHub`. */
  function CanHubRoute(action: string, hubId: Option<Uuid>, auth: Option<Authentication>): (r: Result<bool, ErrorCode>)
    ensures r.Failure? <==> Of(action).None?
    ensures r == Success(true) <==>
      (Of(action).Some? && Principal(auth).Some? &&
      var a, me := Of(action).value, Principal(auth).value;
      (a == Read || me.role == Master))
  {
    Guarded(action, auth, (a, me) => HubRule(a, me))
  }

  /** `canDeliveryManager(action, targetHubId, targetUserId, auth)`. */
  function CanDeliveryManager(action: string, targetHubId: Option<Uuid>, targetUserId: Option<UserId>,
                              auth: Option<Authentication>): (r: Result<bool, ErrorCode>)
    ensures r.Failure? <==> Of(action).None?
    ensures r == Success(true) <==>
      (Of(action).Some? && Principal(auth).Some? &&
      var a, me := Of(action).value, Principal(auth).value;
      (
      || me.role == Master
      || (me.role == HubManager && me.hubId.Some? && me.hubId == targetHubId)
      || (a == Read && me.role == DeliveryManager && targetUserId == Some(me.userId))
      ))
  {
    Guarded(action, auth, (a, me) => DeliveryManagerRule(a, me, targetHubId, targetUserId))
  }

  /** `canVendor(action, hubId, auth)`. */
  function CanVendor(action: string, hubId: Option<Uuid>, auth: Option<Authentication>): (r: Result<bool, ErrorCode>)
    ensures r.Failure? <==> Of(action).None?
    ensures r == Success(true) <==>
      (Of(action).Some? && Principal(auth).Some? &&
      var a, me := Of(action).value, Principal(auth).value;
      (
      || a == Read || me.role == Master
      || (me.role == HubManager && me.hubId.Some? && me.hubId == hubId)
      || (me.role == VendorManager && a == Update)
      ))
  {
    Guarded(action, auth, (a, me) => VendorRule(a, me, hubId))
  }

  /** `canProduct(action, hubId, vendorId, auth)`. */
  function CanProduct(action: string, hubId: Option<Uuid>, vendorId: Option<Uuid>,
                      auth: Option<Authentication>): (r: Result<bool, ErrorCode>)
    ensures r.Failure? <==> Of(action).None?
    ensures r == Success(true) <==>
      (Of(action).Some? && Principal(auth).Some? &&
      var a, me := Of(action).value, Principal(auth).value;
      (
      || a == Read || me.role == Master
      || (me.role == HubManager && me.hubId.Some? && me.hubId == hubId)
      || (a != Delete && me.role == VendorManager && me.vendorId.Some? && me.vendorId == vendorId)
      ))
  {
    Guarded(action, auth, (a, me) => ProductRule(a, me, hubId, vendorId))
  }

  /** `canOrder(action, hubId, vendorId, ownerUserId, auth)`: the vendor id is not consulted. */
  function CanOrder(action: string, hubId: Option<Uuid>, vendorId: Option<Uuid>, ownerUserId: Option<UserId>,
                    auth: Option<Authentication>): (r: Result<bool, ErrorCode>)
    ensures r.Failure? <==> Of(action).None?
    ensures r == Success(true) <==>
      (Of(action).Some? && Principal(auth).Some? &&
      var a, me := Of(action).value, Principal(auth).value;
      (
      || a == Create || me.role == Master
      || (me.role == HubManager && me.hubId.Some? && me.hubId == hubId)
      || ((me.role == VendorManager || me.role == DeliveryManager) && ownerUserId == Some(me.userId))
      ))
  {
    Guarded(action, auth, (a, me) => OrderRule(a, me, hubId, ownerUserId))
  }

  /** `canDelivery(action, hubId, vendorId, assigneeUserId, auth)`: the vendor id is not consulted. */
  function CanDelivery(action: string, hubId: Option<Uuid>, vendorId: Option<Uuid>, assigneeUserId: Option<UserId>,
                       auth: Option<Authentication>): (r: Result<bool, ErrorCode>)
    ensures r.Failure? <==> Of(action).None?
    ensures r == Success(true) <==>
      (Of(action).Some? && Principal(auth).Some? &&
      var a, me := Of(action).value, Principal(auth).value;
      (
      || me.role == Master
      || (a != Create && me.role == HubManager && me.hubId.Some? && me.hubId == hubId)
      || (a != Create && me.role == DeliveryManager && assigneeUserId == Some(me.userId))
      || (a == Read && me.role == VendorManager)
      ))
  {
    Guarded(action, auth, (a, me) => DeliveryRule(a, me, hubId, assigneeUserId))
  }

  /** `canSlack(action, auth)`. */
  function CanSlack(action: string, auth: Option<Authentication>): (r: Result<bool, ErrorCode>)
    ensures r.Failure? <==> Of(action).None?
    ensures r == Success(true) <==>
      (Of(action).Some? && Principal(auth).Some? &&
      var a, me := Of(action).value, Principal(auth).value;
      (a == Create || me.role == Master))
  {
    Guarded(action, auth, (a, me) => SlackRule(a, me))
  }

  /** `canReadUser(targetUserId, auth)`: only the account itself; no action is parsed. */
  function CanReadUser(targetUserId: Option<UserId>, auth: Option<Authentication>): (r: bool)
    ensures r <==> Principal(auth).Some? && targetUserId == Some(Principal(auth).value.userId)
  {
    match Principal(auth)
    case None => false
    case Some(me) => Some(me.userId) == targetUserId
  }

  // ---------------------------------------------------------------------
  // Properties of the table.
  // ---------------------------------------------------------------------

  /** MASTER is permitted every valid action on every resource, whatever the targets. */
  lemma MasterAllowedEverything(a: Action, me: UserView, hubId: Option<Uuid>, vendorId: Option<Uuid>, userId: Option<UserId>)
    requires me.role == Master
    ensures HubRule(a, me) && DeliveryManagerRule(a, me, hubId, userId) && VendorRule(a, me, hubId)
    ensures ProductRule(a, me, hubId, vendorId) && OrderRule(a, me, hubId, userId)
    ensures DeliveryRule(a, me, hubId, userId) && SlackRule(a, me)
  {
  }

  /**
   * A hub manager without an assigned hub is denied every hub-scoped
   * decision, since `same` needs its first argument present.
   */
  lemma HubManagerWithoutHubIsDenied(a: Action, me: UserView, hubId: Option<Uuid>, vendorId: Option<Uuid>, userId: Option<UserId>)
    requires me.role == HubManager && me.hubId == None
    ensures !DeliveryManagerRule(a, me, hubId, userId)
    ensures a != Read ==> !VendorRule(a, me, hubId) && !ProductRule(a, me, hubId, vendorId)
    ensures a != Create ==> !OrderRule(a, me, hubId, userId) && !DeliveryRule(a, me, hubId, userId)
  {
  }

  /** No `canX` permits anything to a caller without a `UserDetailsImpl` principal. */
  lemma NoPrincipalNoAccess(action: string, auth: Option<Authentication>, rule: (Action, UserView) -> bool)
    requires auth.None? || !HoldsUserDetails(auth.value)
    ensures Guarded(action, auth, rule) != Success(true)
  {
  }

  /** An unparseable action is an error whoever asks, even with no principal. */
  lemma BadActionFailsBeforePrincipal(hubId: Option<Uuid>, auth: Option<Authentication>)
    ensures CanHub("remove", hubId, auth) == Failure(IllegalArgument)
  {
    OfRejectsUnknownName();
  }

  /**
   * Any spelling that parses to READ (such as "read", see `OfReadSpellings`)
   * lets every account read hubs.
   */
  lemma AnyoneReadsHubs(action: string, hubId: Option<Uuid>, auth: Authentication)
    requires Of(action) == Some(Read) && HoldsUserDetails(auth)
    ensures CanHub(action, hubId, Some(auth)) == Success(true)
  {
  }

  /** Only MASTER writes hubs; every other role is denied, not failed. */
  lemma OnlyMasterWritesHubs(action: string, hubId: Option<Uuid>, auth: Authentication)
    requires Of(action).Some? && Of(action) != Some(Read) && HoldsUserDetails(auth)
    ensures CanHub(action, hubId, Some(auth)) == Success(auth.principal.value.user.role == Master)
  {
  }

  /** A delivery manager reads its own courier record and only it. */
  lemma DeliveryManagerReadsSelf(me: UserView, targetHubId: Option<Uuid>, targetUserId: Option<UserId>)
    requires me.role == DeliveryManager
    ensures DeliveryManagerRule(Read, me, targetHubId, targetUserId) <==> targetUserId == Some(me.userId)
    ensures !DeliveryManagerRule(Update, me, targetHubId, targetUserId)
  {
  }

  /** A vendor manager may UPDATE a vendor whatever its hub, and never CREATE or DELETE one. */
  lemma VendorManagerUpdatesAnyVendor(me: UserView, hubId: Option<Uuid>)
    requires me.role == VendorManager
    ensures VendorRule(Update, me, hubId)
    ensures !VendorRule(Create, me, hubId) && !VendorRule(Delete, me, hubId)
  {
  }

  /** Writing a product needs one's own present hub (hub manager) or vendor (vendor manager). */
  lemma ProductWriteNeedsOwnScope(a: Action, me: UserView, hubId: Option<Uuid>, vendorId: Option<Uuid>)
    requires a != Read && me.role != Master
    ensures ProductRule(a, me, hubId, vendorId) <==>
      (me.role == HubManager && Same(me.hubId, hubId))
      || (a != Delete && me.role == VendorManager && Same(me.vendorId, vendorId))
  {
  }

  /** A non-MASTER, non-hub caller touches an order only when it owns it, except to create one. */
  lemma OrderOwnership(a: Action, me: UserView, hubId: Option<Uuid>, owner: Option<UserId>)
    requires a != Create && (me.role == VendorManager || me.role == DeliveryManager)
    ensures OrderRule(a, me, hubId, owner) <==> owner == Some(me.userId)
  {
  }

  /** Deliveries: a vendor manager only reads; a courier acts only on its own assignments. */
  lemma DeliveryByRole(a: Action, me: UserView, hubId: Option<Uuid>, assignee: Option<UserId>)
    ensures me.role == VendorManager ==> (DeliveryRule(a, me, hubId, assignee) <==> a == Read)
    ensures me.role == DeliveryManager ==>
      (DeliveryRule(a, me, hubId, assignee) <==> a != Create && assignee == Some(me.userId))
  {
  }
}
