/**
 * `service/AuthService.java`: self-service sign-up (which leaves the
 * account PENDING until MASTER approves it), username recovery and
 * password reset with a random temporary password. The password encoder
 * is a function parameter and the random source a sequence of draws.
 */
module AuthServices {
  import opened Common
  import opened JavaStrings
  import opened Users
  import opened UserStore
  import opened UserDetailsLoading
  import opened RequestDtos
  import opened Security
  import opened AccessChecking

  // ---------------------------------------------------------------------
  // Sign-up (`signUp`).
  // ---------------------------------------------------------------------

  /**
   * The role checks of `signUp`: HUB_MANAGER and DELIVERY_MANAGER need a
   * hub, VENDOR_MANAGER a vendor.
   */
  function SignUpRoleError(req: SignUpRequest): (e: Option<ErrorCode>)
    ensures e == Some(UserHubIdRequired) <==>
      req.hubId.None? && (req.role == HubManager || req.role == DeliveryManager)
    ensures e == Some(UserVendorIdRequired) <==> req.role == VendorManager && req.vendorId.None?
    ensures e.Some? ==> e.value in {UserHubIdRequired, UserVendorIdRequired}
  {
    match req.role
    case Master => None
    case HubManager => if req.hubId.None? then Some(UserHubIdRequired) else None
    case VendorManager => if req.vendorId.None? then Some(UserVendorIdRequired) else None
    case DeliveryManager => if req.hubId.None? then Some(UserHubIdRequired) else None
  }

  /**
   * The first error `signUp` raises: a taken trimmed username, then a
   * taken trimmed lower-cased email, then a password differing from its
   * confirmation, then the role checks.
   */
  function SignUpError(users: seq<User>, req: SignUpRequest): (e: Option<ErrorCode>)
    ensures e == Some(UserDuplicatedUsername) <==> ExistsByUsername(users, Trim(req.username))
    ensures e == Some(UserDuplicatedEmail) <==>
      !ExistsByUsername(users, Trim(req.username)) && ExistsByEmail(users, ToLower(Trim(req.email)))
    ensures e == Some(UserPasswordMismatch) <==>
      !ExistsByUsername(users, Trim(req.username)) && !ExistsByEmail(users, ToLower(Trim(req.email)))
      && req.password != req.confirmPassword
    ensures e.None? <==>
      !ExistsByUsername(users, Trim(req.username)) && !ExistsByEmail(users, ToLower(Trim(req.email)))
      && req.password == req.confirmPassword && SignUpRoleError(req).None?
    ensures (!ExistsByUsername(users, Trim(req.username)) && !ExistsByEmail(users, ToLower(Trim(req.email)))
      && req.password == req.confirmPassword) ==> e == SignUpRoleError(req)
  {
    if ExistsByUsername(users, Trim(req.username)) then Some(UserDuplicatedUsername)
    else if ExistsByEmail(users, ToLower(Trim(req.email))) then Some(UserDuplicatedEmail)
    else if req.password != req.confirmPassword then Some(UserPasswordMismatch)
    else SignUpRoleError(req)
  }

  /**
   * The hub id `signUp` assigns. For VENDOR_MANAGER the source passes the
   * requested vendor id to `assignHubId`, so it lands in the hub field.
   */
  function SignUpHubId(req: SignUpRequest): Option<Uuid>
  {
    match req.role
    case Master => None
    case HubManager => req.hubId
    case VendorManager => req.vendorId
    case DeliveryManager => req.hubId
  }

  /** The role switch of `signUp` on the freshly saved account. */
  method AssignSignUpScope(user: User, req: SignUpRequest)
    requires user.hubId.None? && !user.isDeliveryManager
    modifies user`hubId, user`isDeliveryManager
    ensures user.hubId == SignUpHubId(req)
    ensures user.isDeliveryManager == (req.role == DeliveryManager)
  {
    match req.role {
      case Master =>
      case HubManager =>
        user.AssignHubId(req.hubId);
      case VendorManager =>
        user.AssignHubId(req.vendorId);
      case DeliveryManager =>
        user.AssignHubId(req.hubId);
        user.AssignAsDeliveryManager();
    }
  }

  /**
   * Everything `signUp` stores once its checks have passed: a PENDING
   * account with the given (normalised) username and email, the encoded
   * password, no vendor id, and the hub and courier flag of its role.
   */
  method SaveSignedUp(repo: UserRepository, req: SignUpRequest, username: string, email: string,
                      password: string)
    returns (u: User)
    requires repo.Valid()
    modifies repo
    ensures repo.Valid() && fresh(u)
    ensures repo.users == old(repo.users) + [u] && u.userId == old(repo.nextId)
    ensures u.username == username && u.email == email && u.password == password
    ensures u.name == req.name && u.role == req.role && u.status == UserStatus.Pending
    ensures u.slackAccountId == req.slackAccountId
    ensures u.hubId == SignUpHubId(req) && u.vendorId.None?
    ensures u.isDeliveryManager == (req.role == DeliveryManager)
  {
    u := repo.Save(username, password, req.name, email, req.role, UserStatus.Pending, req.slackAccountId);
    AssignSignUpScope(u, req);
  }

  /**
   * `signUp(requestDto)`: on an error nothing is stored; otherwise the
   * account of `SaveSignedUp`, with the trimmed username and the trimmed
   * lower-cased email, is appended and returned.
   */
  method SignUp(repo: UserRepository, req: SignUpRequest, encode: string -> string)
    returns (r: Result<User, ErrorCode>)
    requires repo.Valid()
    modifies repo
    ensures repo.Valid()
    ensures r.Failure? <==> SignUpError(old(repo.users), req).Some?
    ensures r.Failure? ==> r.error == SignUpError(old(repo.users), req).value && repo.users == old(repo.users)
    ensures r.Success? ==>
      var u := r.value;
      && fresh(u) && repo.users == old(repo.users) + [u] && u.userId == old(repo.nextId)
      && u.username == Trim(req.username) && u.email == ToLower(Trim(req.email))
      && u.password == encode(req.password) && u.name == req.name && u.role == req.role
      && u.status == UserStatus.Pending && u.slackAccountId == req.slackAccountId
      && u.hubId == SignUpHubId(req) && u.vendorId.None?
      && u.isDeliveryManager == (req.role == DeliveryManager)
  {
    var error := SignUpError(repo.users, req);
    if error.Some? {
      return Failure(error.value);
    }
    var u := SaveSignedUp(repo, req, Trim(req.username), ToLower(Trim(req.email)), encode(req.password));
    r := Success(u);
  }

  /**
   * A signed-up account carries the scope id its role needs; for a vendor
   * manager that id is the requested vendor, stored as the hub, and the
   * vendor field stays empty.
   */
  lemma SignUpScope(users: seq<User>, req: SignUpRequest)
    requires SignUpError(users, req).None?
    ensures req.role == HubManager || req.role == DeliveryManager ==> SignUpHubId(req) == req.hubId && req.hubId.Some?
    ensures req.role == VendorManager ==> SignUpHubId(req) == req.vendorId && req.vendorId.Some?
    ensures req.role == Master ==> SignUpHubId(req).None?
  {
  }

  /**
   * A signed-up account cannot log in until it is approved: the login
   * lookup finds it and refuses it with USER_PENDING_APPROVAL.
   */
  lemma SignedUpAwaitsApproval(users: seq<User>, u: User)
    requires !ExistsByUsername(users, u.username) && u.status == UserStatus.Pending
    ensures LoadUserByUsername(users + [u], u.username) == Failure(UserPendingApproval)
  {
    FindByUsernameAppend(users, u);
  }

  /** An account once approved logs in as itself. */
  lemma ApprovedAccountLogsIn(users: seq<User>, u: User)
    requires !ExistsByUsername(users, u.username) && u.status == UserStatus.Approve
    ensures LoadUserByUsername(users + [u], u.username) == Success(u)
  {
    FindByUsernameAppend(users, u);
  }

  /**
   * A vendor manager account from sign-up holds its vendor in the hub
   * field, so once logged in it manages no vendor through the affiliation
   * check: only a MASTER authority would let it through.
   */
  lemma SignedUpVendorManagerManagesNoVendor(u: User, auth: Authentication, vendorId: Option<Uuid>)
    requires u.vendorId.None?
    requires auth.principal == Some(UserDetails(u.View(), None)) && !HasRole(auth, Master)
    ensures !CanManageVendor(auth, vendorId)
  {
  }

  /**
   * Sign-up compares the lower-cased email, so an address differing from
   * a stored lower-case one only in letter case is refused.
   */
  lemma SignUpEmailIgnoresCase(users: seq<User>, req: SignUpRequest)
    requires !ExistsByUsername(users, Trim(req.username))
    requires exists i :: 0 <= i < |users| && users[i].email == ToLower(Trim(req.email))
    ensures SignUpError(users, req) == Some(UserDuplicatedEmail)
  {
  }

  // ---------------------------------------------------------------------
  // Username recovery (`findId`).
  // ---------------------------------------------------------------------

  /**
   * `findId(email, name)`: the username of the account with the trimmed
   * email (compared as given, without lower-casing), provided its name
   * matches exactly; USER_NOT_FOUND or USER_DATA_MISMATCH otherwise.
   */
  function FindId(users: seq<User>, email: string, name: string): (r: Result<string, ErrorCode>)
    ensures r.Success? ==>
      ExistsByEmail(users, Trim(email)) &&
      var u := FindByEmail(users, Trim(email)).value;
      u in users && u.email == Trim(email) && u.name == name && r.value == u.username
    ensures r == Failure(UserNotFound) <==> !ExistsByEmail(users, Trim(email))
    ensures r == Failure(UserDataMismatch) <==>
      ExistsByEmail(users, Trim(email)) && FindByEmail(users, Trim(email)).value.name != name
    ensures ExistsByEmail(users, Trim(email)) && FindByEmail(users, Trim(email)).value.name == name ==>
      r == Success(FindByEmail(users, Trim(email)).value.username)
  {
    match FindByEmail(users, Trim(email))
    case None => Failure(UserNotFound)
    case Some(user) => if user.name != name then Failure(UserDataMismatch) else Success(user.username)
  }

  // ---------------------------------------------------------------------
  // Temporary password (`generateTempPassword`).
  // ---------------------------------------------------------------------

  const Uppers: string := "ABCDEFGHIJKLMNOPQRSTUVWXYZ"
  const Lowers: string := "abcdefghijklmnopqrstuvwxyz"
  const Digits: string := "0123456789"
  const Specials: string := "!@#$%^&*"

  /** The 70 characters a temporary password is drawn from, in the source's order. */
  const TempAlphabet: string := Uppers + Lowers + Digits + Specials

  /** `n` consecutive characters starting at `first`. */
  function Run(first: char, n: nat): (r: string)
    requires first as int + n <= 0xD800
    ensures |r| == n && forall i :: 0 <= i < n ==> r[i] == (first as int + i) as char
  {
    seq(n, i requires 0 <= i < n => (first as int + i) as char)
  }

  /** A character the password pattern admits. */
  predicate PatternChar(c: char)
  {
    IsLowerLetter(c) || IsUpperLetter(c) || IsDigit(c) || IsSpecial(c)
  }

  /**
   * The alphabet of the temporary password is exactly the character class
   * of the sign-up password pattern.
   */
  lemma AlphabetIsPatternClass()
    ensures |TempAlphabet| == 70
    ensures forall c :: c in TempAlphabet <==> PatternChar(c)
  {
    assert Uppers == Run('A', 26);
    assert Lowers == Run('a', 26);
    assert Digits == Run('0', 10);
    forall c | PatternChar(c)
      ensures c in TempAlphabet
    {
      if IsUpperLetter(c) {
        assert Uppers[c as int - 'A' as int] == c;
        assert c in Uppers;
      } else if IsLowerLetter(c) {
        assert Lowers[c as int - 'a' as int] == c;
        assert c in Lowers;
      } else if IsDigit(c) {
        assert Digits[c as int - '0' as int] == c;
        assert c in Digits;
      }
    }
    forall c | c in TempAlphabet
      ensures PatternChar(c)
    {
      assert c in Uppers || c in Lowers || c in Digits || c in Specials;
    }
  }

  /**
   * The random draws of one call: `lengthDraw` is `nextInt(8)` and
   * `draws[i]` the i-th `nextInt(70)`.
   */
  predicate ValidDraws(lengthDraw: int, draws: seq<int>)
  {
    && 0 <= lengthDraw < 8
    && |draws| >= 8 + lengthDraw
    && forall i :: 0 <= i < |draws| ==> 0 <= draws[i] < |TempAlphabet|
  }

  /** `pw` is the password those draws produce. */
  predicate DrawnFrom(pw: string, lengthDraw: int, draws: seq<int>)
    requires ValidDraws(lengthDraw, draws)
  {
    |pw| == 8 + lengthDraw && forall i :: 0 <= i < |pw| ==> pw[i] == TempAlphabet[draws[i]]
  }

  /** `generateTempPassword()`: 8 + `lengthDraw` characters, the i-th chosen by `draws[i]`. */
  method GenerateTempPassword(lengthDraw: int, draws: seq<int>) returns (pw: string)
    requires ValidDraws(lengthDraw, draws)
    ensures DrawnFrom(pw, lengthDraw, draws)
  {
    var length := 8 + lengthDraw;
    pw := [];
    var i := 0;
    while i < length
      invariant 0 <= i <= length
      invariant |pw| == i
      invariant forall k :: 0 <= k < i ==> pw[k] == TempAlphabet[draws[k]]
    {
      pw := pw + [TempAlphabet[draws[i]]];
      i := i + 1;
    }
  }

  /**
   * A temporary password is 8 to 15 characters long and every character
   * is one the password pattern admits.
   */
  lemma TempPasswordShape(pw: string, lengthDraw: int, draws: seq<int>)
    requires ValidDraws(lengthDraw, draws) && DrawnFrom(pw, lengthDraw, draws)
    ensures 8 <= |pw| <= 15
    ensures forall i :: 0 <= i < |pw| ==> PatternChar(pw[i])
  {
    AlphabetIsPatternClass();
    forall i | 0 <= i < |pw|
      ensures PatternChar(pw[i])
    {
      assert pw[i] in TempAlphabet;
    }
  }

  /**
   * The temporary password need not satisfy the sign-up pattern: eight
   * draws of the first letter give "AAAAAAAA", which has no lower-case
   * letter, digit or special character.
   */
  lemma TempPasswordMayMissPattern()
    ensures ValidDraws(0, [0, 0, 0, 0, 0, 0, 0, 0])
    ensures DrawnFrom("AAAAAAAA", 0, [0, 0, 0, 0, 0, 0, 0, 0])
    ensures !ValidPassword("AAAAAAAA")
  {
    assert TempAlphabet[0] == 'A';
    assert forall i :: 0 <= i < 8 ==> "AAAAAAAA"[i] == 'A';
    assert !Contains("AAAAAAAA", IsDigit);
  }

  // ---------------------------------------------------------------------
  // Password reset (`findPw`).
  // ---------------------------------------------------------------------

  /**
   * The error `findPw` raises: USER_NOT_FOUND for an unknown username
   * (compared as given, untrimmed), USER_DATA_MISMATCH when the name or
   * the email differs from the account's.
   */
  function FindPwError(users: seq<User>, username: string, name: string, email: string): (e: Option<ErrorCode>)
    ensures e == Some(UserNotFound) <==> !ExistsByUsername(users, username)
    ensures e == Some(UserDataMismatch) <==>
      ExistsByUsername(users, username)
      && (FindByUsername(users, username).value.name != name || FindByUsername(users, username).value.email != email)
    ensures e.None? <==>
      ExistsByUsername(users, username)
      && FindByUsername(users, username).value.name == name && FindByUsername(users, username).value.email == email
  {
    match FindByUsername(users, username)
    case None => Some(UserNotFound)
    case Some(user) => if user.name != name || user.email != email then Some(UserDataMismatch) else None
  }

  /**
   * `findPw(username, name, email)`: on an error nothing changes;
   * otherwise the account found gets the encoded temporary password, the
   * plain one is returned, and no other account or field changes.
   */
  method FindPw(repo: UserRepository, username: string, name: string, email: string,
                encode: string -> string, lengthDraw: int, draws: seq<int>)
    returns (r: Result<string, ErrorCode>)
    requires ValidDraws(lengthDraw, draws)
    modifies repo.users
    ensures r.Failure? <==> FindPwError(repo.users, username, name, email).Some?
    ensures r.Failure? ==>
      r.error == FindPwError(repo.users, username, name, email).value
      && forall u :: u in repo.users ==> u.password == old(u.password)
    ensures r.Success? ==>
      var found := FindByUsername(repo.users, username).value;
      && DrawnFrom(r.value, lengthDraw, draws)
      && found.password == encode(r.value)
      && forall u :: u in repo.users && u != found ==> u.password == old(u.password)
    ensures forall u :: u in repo.users ==>
      u.status == old(u.status) && u.hubId == old(u.hubId) && u.vendorId == old(u.vendorId)
      && u.isDeliveryManager == old(u.isDeliveryManager)
  {
    var error := FindPwError(repo.users, username, name, email);
    if error.Some? {
      return Failure(error.value);
    }
    var user := FindByUsername(repo.users, username).value;
    var temp := GenerateTempPassword(lengthDraw, draws);
    user.UpdatePassword(encode(temp));
    r := Success(temp);
  }
}
