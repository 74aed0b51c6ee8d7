/**
 * Shared vocabulary of the user service: the enumerations of the domain
 * (roles, actions, courier types, account states), the error codes the
 * services raise, and the Option/Result wrappers that stand for Java's
 * nullable values and thrown exceptions.
 */
module Common {

  /** A nullable Java reference: `None` is `null`. */
  datatype Option<+T> = None | Some(value: T)

  /** The outcome of an operation that may throw: `Failure` carries the error code. */
  datatype Result<+T, +E> = Success(value: T) | Failure(error: E)

  /** `java.util.UUID` values are compared for equality only. */
  type Uuid = int

  /** A user's primary key (`Long userId`). */
  type UserId = int

  /** `UserRole`: exactly one per account. */
  datatype Role = Master | HubManager | VendorManager | DeliveryManager

  /** `Action`: the four operations a policy can be asked about. */
  datatype Action = Create | Read | Update | Delete

  /** `DeliveryType` of a courier record. */
  datatype DeliveryType = HubToHub | HubToVendor

  /** `UserStatus` of an account. */
  datatype UserStatus = Pending | Approve | Reject

  /**
   * The error codes the services throw. They are opaque tags: only which
   * one is raised matters, not its message or HTTP status.
   */
  datatype ErrorCode =
    | AuthUserNotFound
    | AuthDuplicatedUsername
    | AuthDuplicatedEmail
    | AuthHubIdRequired
    | AuthVendorIdRequired
    | AuthDeliveryTypeRequired
    | AuthNotAccessToken
    | UserNotFound
    | UserDuplicatedUsername
    | UserDuplicatedEmail
    | UserPasswordMismatch
    | UserHubIdRequired
    | UserVendorIdRequired
    | UserDataMismatch
    | UserPendingApproval
    | IllegalArgument      // Enum.valueOf on an unknown name
    | InvalidToken         // any exception of signature, format or expiry checking
    | ClaimTypeMismatch    // Claims.get(name, String.class) on a non-string claim
    | NullPointer          // a switch on a null string

  /** `Role.name()`. */
  function RoleName(r: Role): string
  {
    match r
    case Master => "MASTER"
    case HubManager => "HUB_MANAGER"
    case VendorManager => "VENDOR_MANAGER"
    case DeliveryManager => "DELIVERY_MANAGER"
  }

  /** `Action.name()`. */
  function ActionName(a: Action): string
  {
    match a
    case Create => "CREATE"
    case Read => "READ"
    case Update => "UPDATE"
    case Delete => "DELETE"
  }

  /** `DeliveryType.name()`. */
  function DeliveryTypeName(t: DeliveryType): string
  {
    match t
    case HubToHub => "HUB_TO_HUB"
    case HubToVendor => "HUB_TO_VENDOR"
  }

  /** Distinct constants have distinct names, so `name()` can be inverted. */
  lemma RoleNameInjective(r1: Role, r2: Role)
    ensures RoleName(r1) == RoleName(r2) ==> r1 == r2
  {
  }

  lemma ActionNameInjective(a1: Action, a2: Action)
    ensures ActionName(a1) == ActionName(a2) ==> a1 == a2
  {
  }
}
