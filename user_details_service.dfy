/**
 * `global/security/jwt/user/UserDetailsServiceImpl.java`: the login-time
 * account lookup, which admits approved accounts only.
 */
module UserDetailsLoading {
  import opened Common
  import opened Users
  import opened UserStore

  /**
   * `loadUserByUsername(username)`: USER_NOT_FOUND for an unknown name,
   * then USER_PENDING_APPROVAL for any status but APPROVE; otherwise the
   * details wrap the account found.
   */
  function LoadUserByUsername(users: seq<User>, username: string): (r: Result<User, ErrorCode>)
    reads users
    ensures r.Success? ==> r.value in users && r.value.username == username && r.value.status == UserStatus.Approve
    ensures r.Success? ==> FindByUsername(users, username) == Some(r.value)
    ensures r == Failure(UserNotFound) <==> !ExistsByUsername(users, username)
    ensures r == Failure(UserPendingApproval) <==>
      ExistsByUsername(users, username) && FindByUsername(users, username).value.status != UserStatus.Approve
    ensures ExistsByUsername(users, username) && FindByUsername(users, username).value.status == UserStatus.Approve ==>
      r == Success(FindByUsername(users, username).value)
  {
    match FindByUsername(users, username)
    case None => Failure(UserNotFound)
    case Some(user) =>
      if user.status != UserStatus.Approve then Failure(UserPendingApproval)
      else Success(user)
  }
}
