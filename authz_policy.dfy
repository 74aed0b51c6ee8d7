/**
 * `security/authz/AuthzPolicyService.java`: the engine behind the internal
 * `/authz/check` endpoint. MASTER is permitted outright; every other
 * request is dispatched on its resource name to a table keyed by role and
 * action, guarded by `Objects.equals` on scope ids, under which an absent
 * id equals an absent id.
 */
module AuthzPolicy {
  import opened Common
  import opened AuthzPrincipals

  /**
   * `AuthzReqDto`: the resource name and the target scope ids. Every field
   * is a nullable field of a JSON body that nothing validates, hence the
   * Options.
   */
  datatype AuthzRequest = AuthzRequest(
    resource: Option<string>,
    action: Option<Action>,
    targetHubId: Option<Uuid>,
    targetVendorId: Option<Uuid>,
    targetUserId: Option<UserId>)

  /** The resource names `decide` dispatches on. */
  const Resources: set<string> :=
    {"HUB", "VENDOR", "HUB_PATH", "DELIVERY_MANAGER", "PRODUCT", "ORDER", "DELIVERY", "SLACK"}

  /** `actionEquals(a, b)`: `a == b` on enum references, false for a null `a`. */
  predicate ActionEquals(a: Option<Action>, b: Action)
  {
    a == Some(b)
  }

  /** `actionIn(a, ones...)`: the loop that looks for `a` among `ones`. */
  function ActionIn(a: Option<Action>, ones: seq<Action>): (r: bool)
    ensures r <==> a.Some? && a.value in ones
  {
    if ones == [] then false
    else if Some(ones[0]) == a then true
    else ActionIn(a, ones[1..])
  }

  const AllActions: seq<Action> := [Create, Read, Update, Delete]

  /** The list the hub-manager branches test against holds every action. */
  lemma AllActionsComplete(a: Action)
    ensures a in AllActions
  {
    match a
    case Create => assert AllActions[0] == Create;
    case Read => assert AllActions[1] == Read;
    case Update => assert AllActions[2] == Update;
    case Delete => assert AllActions[3] == Delete;
  }

  /** `hubPolicy`. */
  predicate HubPolicy(role: Role, action: Option<Action>)
  {
    match role
    case HubManager | VendorManager | DeliveryManager => ActionEquals(action, Read)
    case Master => false
  }

  /** `hubPathPolicy`: the same table as `hubPolicy`. */
  predicate HubPathPolicy(role: Role, action: Option<Action>)
  {
    match role
    case HubManager | VendorManager | DeliveryManager => ActionEquals(action, Read)
    case Master => false
  }

  /** `deliveryManagerPolicy`: the only table that rejects a null target hub outright. */
  predicate DeliveryManagerPolicy(p: AuthzPrincipal, role: Role, action: Option<Action>,
                                  targetHubId: Option<Uuid>, targetUserId: Option<UserId>)
  {
    match role
    case HubManager =>
      if !ActionIn(action, AllActions) then false
      else if targetHubId == None then false
      else p.hubId == targetHubId
    case DeliveryManager => ActionEquals(action, Read) && p.userId == targetUserId
    case _ => false
  }

  /** `vendorPolicy`. */
  predicate VendorPolicy(p: AuthzPrincipal, role: Role, action: Option<Action>,
                         targetHubId: Option<Uuid>, targetVendorId: Option<Uuid>)
  {
    match role
    case HubManager =>
      if !ActionIn(action, AllActions) then false else p.hubId == targetHubId
    case VendorManager =>
      if ActionEquals(action, Update) then p.vendorId == targetVendorId
      else ActionEquals(action, Read)
    case DeliveryManager => ActionEquals(action, Read)
    case Master => false
  }

  /** `productPolicy`. */
  predicate ProductPolicy(p: AuthzPrincipal, role: Role, action: Option<Action>,
                          targetHubId: Option<Uuid>, targetVendorId: Option<Uuid>)
  {
    match role
    case HubManager =>
      if !ActionIn(action, AllActions) then false else p.hubId == targetHubId
    case VendorManager =>
      if ActionEquals(action, Create) || ActionEquals(action, Update) then p.vendorId == targetVendorId
      else ActionEquals(action, Read)
    case DeliveryManager => ActionEquals(action, Read)
    case Master => false
  }

  /** `orderPolicy`. */
  predicate OrderPolicy(p: AuthzPrincipal, role: Role, action: Option<Action>,
                        targetHubId: Option<Uuid>, targetUserId: Option<UserId>)
  {
    match role
    case HubManager =>
      if ActionEquals(action, Create) then true
      else if ActionIn(action, [Read, Update, Delete]) then p.hubId == targetHubId
      else false
    case VendorManager | DeliveryManager =>
      if ActionEquals(action, Create) then true
      else if ActionEquals(action, Read) then p.userId == targetUserId
      else false
    case Master => false
  }

  /** `deliveryPolicy`. */
  predicate DeliveryPolicy(p: AuthzPrincipal, role: Role, action: Option<Action>,
                           targetHubId: Option<Uuid>, targetUserId: Option<UserId>)
  {
    match role
    case HubManager =>
      if ActionIn(action, [Read, Update, Delete]) then p.hubId == targetHubId else false
    case VendorManager => ActionEquals(action, Read)
    case DeliveryManager =>
      if ActionIn(action, [Update]) then p.userId == targetUserId
      else ActionEquals(action, Read)
    case Master => false
  }

  /** `slackPolicy`: `role != null` always holds, a role being a non-null column. */
  predicate SlackPolicy(role: Role, action: Option<Action>)
  {
    action == Some(Create)
  }

  /**
   * `decide(principal, request)`. MASTER is permitted before the resource
   * is looked at; for anyone else a null resource makes the `switch` throw
   * a NullPointerException, and an unknown resource name is denied.
   */
  function Decide(p: AuthzPrincipal, req: AuthzRequest): (r: Result<bool, ErrorCode>)
    ensures p.role == Master ==> r == Success(true)
    ensures r.Failure? <==> p.role != Master && req.resource.None?
    ensures r.Failure? ==> r.error == NullPointer
    ensures r == Success(true) && p.role != Master ==> req.resource.value in Resources && req.action.Some?
  {
    if p.role == Master then Success(true)
    else
      match req.resource
      case None => Failure(NullPointer)
      case Some(resource) =>
        Success(
          match resource
          case "HUB" => HubPolicy(p.role, req.action)
          case "VENDOR" => VendorPolicy(p, p.role, req.action, req.targetHubId, req.targetVendorId)
          case "HUB_PATH" => HubPathPolicy(p.role, req.action)
          case "DELIVERY_MANAGER" => DeliveryManagerPolicy(p, p.role, req.action, req.targetHubId, req.targetUserId)
          case "PRODUCT" => ProductPolicy(p, p.role, req.action, req.targetHubId, req.targetVendorId)
          case "ORDER" => OrderPolicy(p, p.role, req.action, req.targetHubId, req.targetUserId)
          case "DELIVERY" => DeliveryPolicy(p, p.role, req.action, req.targetHubId, req.targetUserId)
          case "SLACK" => SlackPolicy(p.role, req.action)
          case _ => false)
  }

  /** The answer is a permit: `decide` returned true rather than false or an exception. */
  predicate Permits(p: AuthzPrincipal, req: AuthzRequest)
  {
    Decide(p, req) == Success(true)
  }

  // ---------------------------------------------------------------------
  // The table, row by row, over every principal, action and target.
  // ---------------------------------------------------------------------

  /** HUB and HUB_PATH: the three managers may READ and nothing else. */
  lemma HubIsReadOnly(p: AuthzPrincipal, req: AuthzRequest)
    requires p.role != Master && (req.resource == Some("HUB") || req.resource == Some("HUB_PATH"))
    ensures Permits(p, req) <==> req.action == Some(Read)
  {
  }

  /** SLACK: every non-MASTER role may CREATE and nothing else. */
  lemma SlackIsCreateOnly(p: AuthzPrincipal, req: AuthzRequest)
    requires p.role != Master && req.resource == Some("SLACK")
    ensures Permits(p, req) <==> req.action == Some(Create)
  {
  }

  /** A request without an action is denied to every role but MASTER. */
  lemma MissingActionDenied(p: AuthzPrincipal, req: AuthzRequest)
    requires p.role != Master && req.action == None
    ensures !Permits(p, req)
  {
  }

  /** VENDOR, per role. Two absent hub ids count as equal. */
  lemma VendorRules(p: AuthzPrincipal, req: AuthzRequest)
    requires req.resource == Some("VENDOR") && req.action.Some?
    ensures p.role == HubManager ==> (Permits(p, req) <==> p.hubId == req.targetHubId)
    ensures p.role == VendorManager ==>
      (Permits(p, req) <==> req.action == Some(Read) || (req.action == Some(Update) && p.vendorId == req.targetVendorId))
    ensures p.role == DeliveryManager ==> (Permits(p, req) <==> req.action == Some(Read))
  {
    AllActionsComplete(req.action.value);
  }

  /** PRODUCT, per role. */
  lemma ProductRules(p: AuthzPrincipal, req: AuthzRequest)
    requires req.resource == Some("PRODUCT") && req.action.Some?
    ensures p.role == HubManager ==> (Permits(p, req) <==> p.hubId == req.targetHubId)
    ensures p.role == VendorManager ==>
      (Permits(p, req) <==>
        (req.action == Some(Read)
         || ((req.action == Some(Create) || req.action == Some(Update)) && p.vendorId == req.targetVendorId)))
    ensures p.role == DeliveryManager ==> (Permits(p, req) <==> req.action == Some(Read))
  {
    AllActionsComplete(req.action.value);
  }

  /** DELIVERY_MANAGER: a hub manager needs a present target hub equal to its own. */
  lemma DeliveryManagerRules(p: AuthzPrincipal, req: AuthzRequest)
    requires req.resource == Some("DELIVERY_MANAGER") && req.action.Some?
    ensures p.role == HubManager ==> (Permits(p, req) <==> req.targetHubId.Some? && p.hubId == req.targetHubId)
    ensures p.role == DeliveryManager ==>
      (Permits(p, req) <==> req.action == Some(Read) && p.userId == req.targetUserId)
    ensures p.role == VendorManager ==> !Permits(p, req)
  {
    AllActionsComplete(req.action.value);
  }

  /** ORDER, per role. */
  lemma OrderRules(p: AuthzPrincipal, req: AuthzRequest)
    requires req.resource == Some("ORDER") && req.action.Some?
    ensures p.role != Master && req.action == Some(Create) ==> Permits(p, req)
    ensures p.role == HubManager && req.action != Some(Create) ==>
      (Permits(p, req) <==> p.hubId == req.targetHubId)
    ensures (p.role == VendorManager || p.role == DeliveryManager) && req.action != Some(Create) ==>
      (Permits(p, req) <==> req.action == Some(Read) && p.userId == req.targetUserId)
  {
    AllActionsComplete(req.action.value);
  }

  /** DELIVERY, per role. */
  lemma DeliveryRules(p: AuthzPrincipal, req: AuthzRequest)
    requires req.resource == Some("DELIVERY") && req.action.Some?
    ensures p.role != Master && req.action == Some(Create) ==> !Permits(p, req)
    ensures p.role == HubManager && req.action != Some(Create) ==>
      (Permits(p, req) <==> p.hubId == req.targetHubId)
    ensures p.role == VendorManager ==> (Permits(p, req) <==> req.action == Some(Read))
    ensures p.role == DeliveryManager ==>
      (Permits(p, req) <==> req.action == Some(Read) || (req.action == Some(Update) && p.userId == req.targetUserId))
  {
    AllActionsComplete(req.action.value);
  }

  /**
   * Because the guards use `Objects.equals`, a hub manager without a hub
   * passes every VENDOR check whose target hub is absent as well.
   */
  lemma AbsentHubMatchesAbsentTarget(p: AuthzPrincipal, req: AuthzRequest)
    requires p.role == HubManager && p.hubId == None
    requires req.resource == Some("VENDOR") && req.action.Some? && req.targetHubId == None
    ensures Permits(p, req)
  {
    AllActionsComplete(req.action.value);
  }
}
