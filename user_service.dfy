/**
 * `service/UserService.java`: the MASTER-only account administration,
 * i.e. bulk approval or rejection of accounts and direct account creation.
 * The transaction that rolls back a failed creation is modelled by
 * checking every error condition before anything is saved.
 */
module UserServices {
  import opened Common
  import opened JavaStrings
  import opened Users
  import opened UserStore
  import opened RequestDtos

  // ---------------------------------------------------------------------
  // Bulk status update (`approveUsers`, `rejectUsers`, `updateStatus`).
  // ---------------------------------------------------------------------

  /** No value occurs twice. */
  predicate NoDuplicates<T(==)>(s: seq<T>)
  {
    forall i, j :: 0 <= i < j < |s| ==> s[i] != s[j]
  }

  /**
   * `stream().distinct()`: the ids with every repeat after the first
   * occurrence dropped.
   */
  function Distinct(s: seq<UserId>): (r: seq<UserId>)
    ensures NoDuplicates(r)
    ensures forall x :: x in r <==> x in s
    ensures |r| <= |s|
  {
    if s == [] then []
    else
      var d := Distinct(s[..|s| - 1]);
      assert forall x :: x in s <==> x in s[..|s| - 1] || x == s[|s| - 1];
      if s[|s| - 1] in d then d else d + [s[|s| - 1]]
  }

  /** The position of the first occurrence of `x` in `s`. */
  function FirstIndex(s: seq<UserId>, x: UserId): (i: nat)
    requires x in s
    ensures i < |s| && s[i] == x && x !in s[..i]
  {
    if s[0] == x then 0
    else
      var j := FirstIndex(s[1..], x);
      assert s[..j + 1] == [s[0]] + s[1..][..j];
      j + 1
  }

  /** Removing duplicates keeps the order of first occurrences. */
  lemma {:induction false} DistinctKeepsFirstOccurrenceOrder(s: seq<UserId>, i: int, j: int)
    requires 0 <= i < j < |Distinct(s)|
    ensures FirstIndex(s, Distinct(s)[i]) < FirstIndex(s, Distinct(s)[j])
  {
    var n := |s| - 1;
    var p := s[..n];
    var d := Distinct(p);
    forall x | x in p
      ensures FirstIndex(s, x) == FirstIndex(p, x)
    {
      FirstIndexOfPrefix(s, n, x);
    }
    if j < |d| {
      DistinctKeepsFirstOccurrenceOrder(p, i, j);
    } else {
      assert Distinct(s) == d + [s[n]] && s[n] !in p;
      assert FirstIndex(s, s[n]) == n;
      assert FirstIndex(s, d[i]) < n;
    }
  }

  /** On values present in a prefix, the first occurrence is found in that prefix. */
  lemma FirstIndexOfPrefix(s: seq<UserId>, n: int, x: UserId)
    requires 0 <= n <= |s| && x in s[..n]
    ensures FirstIndex(s, x) == FirstIndex(s[..n], x)
  {
    var k := FirstIndex(s[..n], x);
    assert s[k] == x;
  }

  /** Target status of the update: APPROVE for approval, REJECT for rejection. */
  function Target(approve: bool): UserStatus
  {
    if approve then UserStatus.Approve else UserStatus.Reject
  }

  /** `UpdateStatusResDto.Failure`: the id and the reason it was not updated. */
  datatype StatusFailure = StatusFailure(userId: UserId, reason: ErrorCode)

  /** The ids of the stored accounts. */
  function IdSet(users: seq<User>): (ids: set<UserId>)
    ensures forall id :: id in ids <==> FindById(users, id).Some?
  {
    set u | u in users :: u.userId
  }

  /** The ids reported as completed: those naming a stored account, in order. */
  function Completed(ids: seq<UserId>, known: set<UserId>): (done: seq<UserId>)
    ensures forall x :: x in done <==> x in ids && x in known
  {
    if ids == [] then []
    else
      var last := ids[|ids| - 1];
      assert forall x :: x in ids <==> x in ids[..|ids| - 1] || x == last;
      Completed(ids[..|ids| - 1], known) + (if last in known then [last] else [])
  }

  /** The failures reported: one USER_NOT_FOUND per id naming no account, in order. */
  function Failed(ids: seq<UserId>, known: set<UserId>): (failed: seq<StatusFailure>)
    ensures forall f :: f in failed ==> f.reason == AuthUserNotFound
    ensures forall x :: StatusFailure(x, AuthUserNotFound) in failed <==> x in ids && x !in known
  {
    if ids == [] then []
    else
      var last := ids[|ids| - 1];
      assert forall x :: x in ids <==> x in ids[..|ids| - 1] || x == last;
      Failed(ids[..|ids| - 1], known) + (if last in known then [] else [StatusFailure(last, AuthUserNotFound)])
  }

  /** The completed ids keep the order in which they were requested. */
  lemma {:induction false} CompletedKeepsOrder(ids: seq<UserId>, known: set<UserId>, i: int, j: int)
    requires NoDuplicates(ids)
    requires 0 <= i < j < |Completed(ids, known)|
    ensures FirstIndex(ids, Completed(ids, known)[i]) < FirstIndex(ids, Completed(ids, known)[j])
  {
    var n := |ids| - 1;
    var p := ids[..n];
    var done, dp := Completed(ids, known), Completed(p, known);
    assert done == dp + (if ids[n] in known then [ids[n]] else []);
    assert dp[i] in dp && dp[i] in p;
    FirstIndexOfPrefix(ids, n, dp[i]);
    if j < |dp| {
      assert NoDuplicates(p);
      CompletedKeepsOrder(p, known, i, j);
      assert dp[j] in dp;
      FirstIndexOfPrefix(ids, n, dp[j]);
    } else {
      assert done[j] == ids[n] && ids[n] !in p;
    }
  }

  /** The failures keep the order in which their ids were requested. */
  lemma {:induction false} FailedKeepsOrder(ids: seq<UserId>, known: set<UserId>, i: int, j: int)
    requires NoDuplicates(ids)
    requires 0 <= i < j < |Failed(ids, known)|
    ensures Failed(ids, known)[i].userId in ids && Failed(ids, known)[j].userId in ids
    ensures FirstIndex(ids, Failed(ids, known)[i].userId) < FirstIndex(ids, Failed(ids, known)[j].userId)
  {
    var n := |ids| - 1;
    var p := ids[..n];
    var failed, fp := Failed(ids, known), Failed(p, known);
    assert failed == fp + (if ids[n] in known then [] else [StatusFailure(ids[n], AuthUserNotFound)]);
    assert fp[i] in fp && fp[i] == StatusFailure(fp[i].userId, AuthUserNotFound);
    assert fp[i].userId in p;
    FirstIndexOfPrefix(ids, n, fp[i].userId);
    if j < |fp| {
      assert NoDuplicates(p);
      FailedKeepsOrder(p, known, i, j);
      assert fp[j] in fp && fp[j] == StatusFailure(fp[j].userId, AuthUserNotFound);
      FirstIndexOfPrefix(ids, n, fp[j].userId);
    } else {
      assert failed[j].userId == ids[n] && ids[n] !in p;
    }
  }

  /**
   * Every requested id is reported exactly once, either completed or
   * failed, and never twice within either list.
   */
  lemma {:induction false} ReportPartitions(ids: seq<UserId>, known: set<UserId>)
    requires NoDuplicates(ids)
    ensures |Completed(ids, known)| + |Failed(ids, known)| == |ids|
    ensures NoDuplicates(Completed(ids, known))
    ensures NoDuplicates(Failed(ids, known))
  {
    if ids != [] {
      var p := ids[..|ids| - 1];
      assert NoDuplicates(p);
      ReportPartitions(p, known);
      assert ids[|ids| - 1] !in p;
      var f := Failed(p, known);
      assert forall k :: 0 <= k < |f| ==> f[k] in f && f[k].userId in p by {
        forall k | 0 <= k < |f|
          ensures f[k].userId in p
        {
          assert f[k] in f && f[k].reason == AuthUserNotFound;
          assert f[k] == StatusFailure(f[k].userId, AuthUserNotFound);
        }
      }
    }
  }

  /** Extending the processed prefix by one id extends the report by that id alone. */
  lemma ReportStep(ids: seq<UserId>, i: int, known: set<UserId>)
    requires 0 <= i < |ids|
    ensures forall x :: x in ids[..i + 1] <==> x in ids[..i] || x == ids[i]
    ensures Completed(ids[..i + 1], known) == Completed(ids[..i], known) + (if ids[i] in known then [ids[i]] else [])
    ensures Failed(ids[..i + 1], known) ==
      Failed(ids[..i], known) + (if ids[i] in known then [] else [StatusFailure(ids[i], AuthUserNotFound)])
  {
    assert ids[..i + 1][..i] == ids[..i];
  }

  /** Two stored accounts with one id are one account. */
  lemma SameIdSameUser(users: seq<User>, u: User, v: User)
    requires IdsDistinct(users) && u in users && v in users && u.userId == v.userId
    ensures u == v
  {
    var i :| 0 <= i < |users| && users[i] == u;
    var j :| 0 <= j < |users| && users[j] == v;
    assert !(i < j) && !(j < i);
  }

  /**
   * One step of `updateStatus`: an account already in the target status is
   * left alone; otherwise `approve()` or `reject()` puts it there.
   */
  method ApplyStatus(user: User, approve: bool)
    modifies user`status
    ensures user.status == Target(approve)
  {
    if approve && user.status == UserStatus.Approve {
    } else if !approve && user.status == UserStatus.Reject {
    } else if approve {
      user.Approve();
    } else {
      user.Reject();
    }
  }

  /**
   * The body of the loop of `updateStatus` for one id: the account with
   * that id, when there is one, ends in the target status; no other
   * account and no other field changes.
   */
  method UpdateOne(users: seq<User>, id: UserId, approve: bool) returns (found: bool)
    requires IdsDistinct(users)
    modifies users
    ensures found <==> id in IdSet(users)
    ensures forall u :: u in users ==>
      u.status == (if u.userId == id then Target(approve) else old(u.status))
    ensures forall u :: u in users ==>
      u.password == old(u.password) && u.hubId == old(u.hubId) && u.vendorId == old(u.vendorId)
      && u.isDeliveryManager == old(u.isDeliveryManager)
  {
    var user := FindById(users, id);
    if user.None? {
      return false;
    }
    forall u | u in users && u.userId == id
      ensures u == user.value
    {
      SameIdSameUser(users, u, user.value);
    }
    ApplyStatus(user.value, approve);
    return true;
  }

  /**
   * `updateStatus(userIds, approve)`: each distinct id naming an account
   * leaves that account in the target status (already there or changed)
   * and is reported completed; every other distinct id is reported failed
   * with USER_NOT_FOUND. No other account and no other field changes.
   */
  method UpdateStatus(repo: UserRepository, userIds: seq<UserId>, approve: bool)
    returns (completed: seq<UserId>, failed: seq<StatusFailure>)
    requires repo.Valid()
    modifies repo.users
    ensures completed == Completed(Distinct(userIds), IdSet(repo.users))
    ensures failed == Failed(Distinct(userIds), IdSet(repo.users))
    ensures forall u :: u in repo.users ==>
      u.status == (if u.userId in userIds then Target(approve) else old(u.status))
    ensures forall u :: u in repo.users ==>
      u.password == old(u.password) && u.hubId == old(u.hubId) && u.vendorId == old(u.vendorId)
      && u.isDeliveryManager == old(u.isDeliveryManager)
  {
    var ids := Distinct(userIds);
    var known := IdSet(repo.users);
    completed := [];
    failed := [];
    var i := 0;
    ghost var processed: set<UserId> := {};
    while i < |ids|
      invariant 0 <= i <= |ids|
      invariant completed == Completed(ids[..i], known)
      invariant failed == Failed(ids[..i], known)
      invariant forall x :: x in processed <==> x in ids[..i]
      invariant forall u :: u in repo.users ==>
        u.status == (if u.userId in processed then Target(approve) else old(u.status))
      invariant forall u :: u in repo.users ==>
        u.password == old(u.password) && u.hubId == old(u.hubId) && u.vendorId == old(u.vendorId)
        && u.isDeliveryManager == old(u.isDeliveryManager)
    {
      var id := ids[i];
      ReportStep(ids, i, known);
      var found := UpdateOne(repo.users, id, approve);
      if found {
        completed := completed + [id];
      } else {
        failed := failed + [StatusFailure(id, AuthUserNotFound)];
      }
      processed := processed + {id};
      i := i + 1;
    }
    assert ids[..i] == ids;
  }

  // ---------------------------------------------------------------------
  // Account creation by MASTER (`createUser`).
  // ---------------------------------------------------------------------

  /**
   * The role checks of `createUser`: HUB_MANAGER needs a hub, VENDOR_MANAGER
   * a vendor, DELIVERY_MANAGER a courier type and, for HUB_TO_VENDOR, a hub.
   */
  function CreateRoleError(req: CreateUserRequest): (e: Option<ErrorCode>)
    ensures e == Some(AuthHubIdRequired) <==>
      req.hubId.None? && (req.role == HubManager || (req.role == DeliveryManager && req.deliveryType == Some(HubToVendor)))
    ensures e == Some(AuthVendorIdRequired) <==> req.role == VendorManager && req.vendorId.None?
    ensures e == Some(AuthDeliveryTypeRequired) <==> req.role == DeliveryManager && req.deliveryType.None?
    ensures e.Some? ==> e.value in {AuthHubIdRequired, AuthVendorIdRequired, AuthDeliveryTypeRequired}
  {
    match req.role
    case Master => None
    case HubManager => if req.hubId.None? then Some(AuthHubIdRequired) else None
    case VendorManager => if req.vendorId.None? then Some(AuthVendorIdRequired) else None
    case DeliveryManager =>
      if req.deliveryType.None? then Some(AuthDeliveryTypeRequired)
      else if req.deliveryType == Some(HubToVendor) && req.hubId.None? then Some(AuthHubIdRequired)
      else None
  }

  /**
   * The first error `createUser` raises: a taken (trimmed) username, then a
   * taken email compared trimmed but not lower-cased, then the role checks.
   */
  function CreateUserError(users: seq<User>, req: CreateUserRequest): (e: Option<ErrorCode>)
    ensures e == Some(AuthDuplicatedUsername) <==> ExistsByUsername(users, Trim(req.username))
    ensures e == Some(AuthDuplicatedEmail) <==>
      !ExistsByUsername(users, Trim(req.username)) && ExistsByEmail(users, Trim(req.email))
    ensures e.None? <==>
      !ExistsByUsername(users, Trim(req.username)) && !ExistsByEmail(users, Trim(req.email))
      && CreateRoleError(req).None?
    ensures !ExistsByUsername(users, Trim(req.username)) && !ExistsByEmail(users, Trim(req.email)) ==>
      e == CreateRoleError(req)
  {
    if ExistsByUsername(users, Trim(req.username)) then Some(AuthDuplicatedUsername)
    else if ExistsByEmail(users, Trim(req.email)) then Some(AuthDuplicatedEmail)
    else CreateRoleError(req)
  }

  /** The hub a created account is assigned. */
  function CreatedHubId(req: CreateUserRequest): Option<Uuid>
  {
    match req.role
    case HubManager => req.hubId
    case DeliveryManager => if req.deliveryType == Some(HubToVendor) then req.hubId else None
    case _ => None
  }

  /** The vendor a created account is assigned. */
  function CreatedVendorId(req: CreateUserRequest): Option<Uuid>
  {
    if req.role == VendorManager then req.vendorId else None
  }

  /**
   * An account created without error carries the scope its role needs: a
   * hub manager a hub, a vendor manager a vendor, a courier a type, and a
   * hub exactly when it delivers hub-to-vendor; MASTER carries none.
   */
  lemma CreatedScope(users: seq<User>, req: CreateUserRequest)
    requires CreateUserError(users, req).None?
    ensures req.role == HubManager ==> CreatedHubId(req).Some? && CreatedVendorId(req).None?
    ensures req.role == VendorManager ==> CreatedVendorId(req).Some? && CreatedHubId(req).None?
    ensures req.role == DeliveryManager ==>
      req.deliveryType.Some? && (CreatedHubId(req).Some? <==> req.deliveryType == Some(HubToVendor))
    ensures req.role == Master ==> CreatedHubId(req).None? && CreatedVendorId(req).None?
  {
  }

  /**
   * The role switch of `createUser` on the freshly saved account, whose
   * scope ids are absent and courier flag down.
   */
  method AssignScope(user: User, req: CreateUserRequest)
    requires user.hubId.None? && user.vendorId.None? && !user.isDeliveryManager
    modifies user`hubId, user`vendorId, user`isDeliveryManager
    ensures user.hubId == CreatedHubId(req) && user.vendorId == CreatedVendorId(req)
    ensures user.isDeliveryManager == (req.role == DeliveryManager)
  {
    match req.role {
      case Master =>
      case HubManager =>
        user.AssignHubId(req.hubId);
      case VendorManager =>
        user.AssignVendorId(req.vendorId);
      case DeliveryManager =>
        user.AssignAsDeliveryManager();
        if req.deliveryType == Some(HubToVendor) {
          user.AssignHubId(req.hubId);
        }
    }
  }

  /** What `createUser` returns: the account and, for a courier, its record. */
  datatype Created = Created(user: User, courier: Option<Courier>)

  /**
   * The courier step of `createUser`: an account flagged as a courier gets
   * a record with the requested type and the account's hub.
   */
  method SaveCourier(couriers: CourierRepository, user: User, kind: Option<DeliveryType>)
    returns (courier: Option<Courier>)
    modifies couriers
    ensures courier.Some? <==> user.isDeliveryManager
    ensures courier.Some? ==>
      courier.value == Courier(kind, user.hubId)
      && couriers.records == old(couriers.records)[user.userId := courier.value]
    ensures courier.None? ==> couriers.records == old(couriers.records)
  {
    courier := None;
    if user.isDeliveryManager {
      courier := Some(Courier(kind, user.hubId));
      couriers.Save(user.userId, courier.value);
    }
  }

  /**
   * Everything `createUser` stores once its checks have passed: an APPROVE
   * account with the given (normalised) username and email, the encoded
   * password and its role's scope, and a courier record keyed by its id
   * exactly for DELIVERY_MANAGER.
   */
  method SaveCreated(repo: UserRepository, couriers: CourierRepository, req: CreateUserRequest,
                     username: string, email: string, password: string)
    returns (c: Created)
    requires repo.Valid()
    modifies repo, couriers
    ensures repo.Valid() && fresh(c.user)
    ensures repo.users == old(repo.users) + [c.user] && c.user.userId == old(repo.nextId)
    ensures c.user.username == username && c.user.email == email && c.user.password == password
    ensures c.user.name == req.name && c.user.role == req.role && c.user.status == UserStatus.Approve
    ensures c.user.slackAccountId == req.slackAccountId
    ensures c.user.hubId == CreatedHubId(req) && c.user.vendorId == CreatedVendorId(req)
    ensures c.user.isDeliveryManager == (req.role == DeliveryManager)
    ensures c.courier.Some? <==> req.role == DeliveryManager
    ensures c.courier.Some? ==>
      c.courier.value == Courier(req.deliveryType, c.user.hubId)
      && couriers.records == old(couriers.records)[c.user.userId := c.courier.value]
    ensures c.courier.None? ==> couriers.records == old(couriers.records)
  {
    var user := repo.Save(username, password, req.name, email, req.role,
                          UserStatus.Approve, req.slackAccountId);
    AssignScope(user, req);
    var courier := SaveCourier(couriers, user, req.deliveryType);
    c := Created(user, courier);
  }

  /**
   * `c` is what a successful `createUser(req)` returns over the accounts
   * `users` with next id `nextId`.
   */
  predicate CreatedAs(c: Created, req: CreateUserRequest, encode: string -> string,
                      users: seq<User>, nextId: UserId)
    reads c.user
  {
    var u := c.user;
    && u !in users && u.userId == nextId
    && u.username == Trim(req.username) && u.email == ToLower(Trim(req.email))
    && u.password == encode(req.password) && u.name == req.name && u.role == req.role
    && u.status == UserStatus.Approve && u.slackAccountId == req.slackAccountId
    && u.hubId == CreatedHubId(req) && u.vendorId == CreatedVendorId(req)
    && u.isDeliveryManager == (req.role == DeliveryManager)
    && (c.courier.Some? <==> req.role == DeliveryManager)
    && (c.courier.Some? ==> c.courier.value == Courier(req.deliveryType, u.hubId))
  }

  /**
   * `createUser(requestDto)`: on an error nothing is stored; otherwise the
   * account (and courier record) of `SaveCreated` is.
   */
  method CreateUser(repo: UserRepository, couriers: CourierRepository, req: CreateUserRequest,
                    encode: string -> string)
    returns (r: Result<Created, ErrorCode>)
    requires repo.Valid()
    modifies repo, couriers
    ensures repo.Valid()
    ensures r.Failure? <==> CreateUserError(old(repo.users), req).Some?
    ensures r.Failure? ==>
      r.error == CreateUserError(old(repo.users), req).value
      && repo.users == old(repo.users) && couriers.records == old(couriers.records)
    ensures r.Success? ==>
      && CreatedAs(r.value, req, encode, old(repo.users), old(repo.nextId)) && fresh(r.value.user)
      && repo.users == old(repo.users) + [r.value.user]
      && (r.value.courier.Some? ==>
            couriers.records == old(couriers.records)[r.value.user.userId := r.value.courier.value])
      && (r.value.courier.None? ==> couriers.records == old(couriers.records))
  {
    var error := CreateUserError(repo.users, req);
    if error.Some? {
      return Failure(error.value);
    }
    var created := SaveCreated(repo, couriers, req, Trim(req.username), ToLower(Trim(req.email)),
                               encode(req.password));
    r := Success(created);
  }

  /**
   * The email check of `createUser` compares the trimmed address before
   * lower-casing it, while the stored address is lower-cased: a request
   * differing from a stored email only in letter case passes the check,
   * and the address it stores is already taken. The e-mail column is
   * unique (domain/user/User.java:37), so the program's insert then fails
   * in the database; the model, which has no unique constraints, shows the
   * check letting the request through, not a duplicate the program keeps.
   */
  lemma EmailCheckMissesCaseVariants(users: seq<User>, req: CreateUserRequest)
    requires !ExistsByUsername(users, Trim(req.username)) && CreateRoleError(req).None?
    requires !ExistsByEmail(users, Trim(req.email))
    requires ExistsByEmail(users, ToLower(Trim(req.email)))
    ensures CreateUserError(users, req).None?
    ensures FindByEmail(users, ToLower(Trim(req.email))).value.email == ToLower(Trim(req.email))
  {
  }
}
