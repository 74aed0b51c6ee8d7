/**
 * `domain/user/User.java`: the user entity, whose four public methods each
 * assign one field in place, and the courier record
 * (`DeliveryManager`) that a delivery-manager account may own.
 */
module Users {
  import opened Common

  /**
   * A courier record. Its `type` column is nullable in
   * `domain/deliverymanager/DeliveryManager.java`, hence the Option.
   */
  datatype Courier = Courier(kind: Option<DeliveryType>, hubId: Option<Uuid>)

  /**
   * A read-only snapshot of a user's identity and scope attributes, as the
   * security checks read them through `UserDetailsImpl.getUser()`.
   */
  datatype UserView = UserView(
    userId: UserId,
    username: string,
    role: Role,
    status: UserStatus,
    hubId: Option<Uuid>,
    vendorId: Option<Uuid>,
    isDeliveryManager: bool)

  /**
   * The persisted account. Fields the source never reassigns after
   * construction are `const`; the rest are the fields its mutators (and
   * the not-shown `approve`/`reject`) write.
   */
  class User {
    const userId: UserId
    const username: string
    var password: string
    const name: string
    const email: string
    const role: Role
    var status: UserStatus
    const slackAccountId: string
    var hubId: Option<Uuid>
    var vendorId: Option<Uuid>
    var isDeliveryManager: bool

    /** `User.builder()...build()`: scope ids absent and the courier flag false. */
    constructor (userId: UserId, username: string, password: string, name: string,
                 email: string, role: Role, status: UserStatus, slackAccountId: string)
      ensures this.userId == userId && this.username == username && this.password == password
      ensures this.name == name && this.email == email && this.role == role
      ensures this.status == status && this.slackAccountId == slackAccountId
      ensures hubId == None && vendorId == None
      ensures !isDeliveryManager
    {
      this.userId := userId;
      this.username := username;
      this.password := password;
      this.name := name;
      this.email := email;
      this.role := role;
      this.status := status;
      this.slackAccountId := slackAccountId;
      hubId := None;
      vendorId := None;
      isDeliveryManager := false;
    }

    /** The snapshot the security layer reads. */
    function View(): (v: UserView)
      reads this
      ensures v.userId == userId && v.username == username && v.role == role
      ensures v.status == status && v.hubId == hubId && v.vendorId == vendorId
      ensures v.isDeliveryManager == isDeliveryManager
    {
      UserView(userId, username, role, status, hubId, vendorId, isDeliveryManager)
    }

    /** `updatePassword`: replaces the stored (encoded) password and nothing else. */
    method UpdatePassword(newPassword: string)
      modifies this`password
      ensures password == newPassword
    {
      password := newPassword;
    }

    /** `assignHubId`: replaces the hub id (possibly with null) and nothing else. */
    method AssignHubId(id: Option<Uuid>)
      modifies this`hubId
      ensures hubId == id
    {
      hubId := id;
    }

    /** `assignVendorId`: replaces the vendor id and nothing else. */
    method AssignVendorId(id: Option<Uuid>)
      modifies this`vendorId
      ensures vendorId == id
    {
      vendorId := id;
    }

    /** `assignAsDeliveryManager`: raises the courier flag; calling it again changes nothing. */
    method AssignAsDeliveryManager()
      modifies this`isDeliveryManager
      ensures isDeliveryManager
    {
      isDeliveryManager := true;
    }

    /** `approve()` is not shown; its callers fix it as "status becomes APPROVE". */
    method Approve()
      modifies this`status
      ensures status == UserStatus.Approve
    {
      status := UserStatus.Approve;
    }

    /** `reject()` is not shown; its callers fix it as "status becomes REJECT". */
    method Reject()
      modifies this`status
      ensures status == UserStatus.Reject
    {
      status := UserStatus.Reject;
    }
  }
}
