/**
 * `dto/request/SignUpReqDto.java` and `dto/request/CreateUserReqDto.java`:
 * the request bodies of sign-up and of account creation by MASTER, and
 * the bean-validation constraints on them.
 */
module RequestDtos {
  import opened Common
  import opened JavaStrings

  /** The sign-up body. `role` is `@NotNull`, so it is not optional here. */
  datatype SignUpRequest = SignUpRequest(
    username: string,
    password: string,
    confirmPassword: string,
    name: string,
    email: string,
    slackAccountId: string,
    role: Role,
    hubId: Option<Uuid>,
    vendorId: Option<Uuid>,
    deliveryType: Option<DeliveryType>)

  /** The account-creation body: the same fields without `confirmPassword`. */
  datatype CreateUserRequest = CreateUserRequest(
    username: string,
    password: string,
    name: string,
    email: string,
    role: Role,
    slackAccountId: string,
    hubId: Option<Uuid>,
    vendorId: Option<Uuid>,
    deliveryType: Option<DeliveryType>)

  /** `@NotBlank` (Hibernate Validator): something is left after `trim`. */
  predicate NotBlank(s: string)
  {
    exists i :: 0 <= i < |s| && !IsTrimmable(s[i])
  }

  predicate IsLowerLetter(c: char) { 'a' <= c <= 'z' }
  predicate IsUpperLetter(c: char) { 'A' <= c <= 'Z' }
  predicate IsDigit(c: char) { '0' <= c <= '9' }
  predicate IsSpecial(c: char) { c in "!@#$%^&*" }

  /** Some character of `s` satisfies `p`: the `(?=.*[...])` look-aheads. */
  predicate Contains(s: string, p: char -> bool)
  {
    exists i :: 0 <= i < |s| && p(s[i])
  }

  /** The username pattern: 4 to 10 lower-case letters and digits, with at least one of each. */
  predicate ValidUsername(s: string)
  {
    && 4 <= |s| <= 10
    && (forall i :: 0 <= i < |s| ==> IsLowerLetter(s[i]) || IsDigit(s[i]))
    && Contains(s, IsLowerLetter)
    && Contains(s, IsDigit)
  }

  /**
   * The password pattern: 8 to 15 letters, digits and the eight specials,
   * with at least one lower-case letter, upper-case letter, digit and special.
   */
  predicate ValidPassword(s: string)
  {
    && 8 <= |s| <= 15
    && (forall i :: 0 <= i < |s| ==> IsLowerLetter(s[i]) || IsUpperLetter(s[i]) || IsDigit(s[i]) || IsSpecial(s[i]))
    && Contains(s, IsLowerLetter)
    && Contains(s, IsUpperLetter)
    && Contains(s, IsDigit)
    && Contains(s, IsSpecial)
  }

  /** Every constraint on the sign-up body except `@Email`. */
  predicate ValidSignUp(r: SignUpRequest)
  {
    && NotBlank(r.username) && ValidUsername(r.username)
    && NotBlank(r.password) && ValidPassword(r.password)
    && NotBlank(r.confirmPassword)
    && NotBlank(r.name)
    && NotBlank(r.email)
    && NotBlank(r.slackAccountId)
  }

  /** Every constraint on the account-creation body except `@Email`. */
  predicate ValidCreateUser(r: CreateUserRequest)
  {
    && NotBlank(r.username) && ValidUsername(r.username)
    && NotBlank(r.password) && ValidPassword(r.password)
    && NotBlank(r.name)
    && NotBlank(r.email)
    && NotBlank(r.slackAccountId)
  }

  /** A valid username or password already passes `@NotBlank`, so that check adds nothing. */
  lemma PatternImpliesNotBlank(s: string)
    ensures ValidUsername(s) ==> NotBlank(s)
    ensures ValidPassword(s) ==> NotBlank(s)
  {
    if ValidUsername(s) || ValidPassword(s) {
      assert !IsTrimmable(s[0]);
    }
  }

  /** A valid username has no surrounding spaces, so the services' `trim` leaves it unchanged. */
  lemma ValidUsernameIsTrimmed(s: string)
    requires ValidUsername(s)
    ensures Trim(s) == s
  {
    assert !IsTrimmable(s[0]) && !IsTrimmable(s[|s| - 1]);
    TrimPadded([], s, []);
    assert [] + s + [] == s;
  }

  /** The two bodies carry the same constraints on the fields they share. */
  lemma SameConstraints(s: SignUpRequest)
    ensures ValidSignUp(s) ==>
      ValidCreateUser(CreateUserRequest(s.username, s.password, s.name, s.email, s.role,
                                        s.slackAccountId, s.hubId, s.vendorId, s.deliveryType))
  {
  }

  lemma UsernameLettersOnlyRejected()
    ensures !ValidUsername("abcd")
  {
    assert forall i :: 0 <= i < 4 ==> !IsDigit("abcd"[i]);
  }

  lemma UsernameDigitsOnlyRejected()
    ensures !ValidUsername("1234")
  {
    assert forall i :: 0 <= i < 4 ==> !IsLowerLetter("1234"[i]);
  }

  lemma UsernameMixedAccepted()
    ensures ValidUsername("abc1")
  {
    assert IsLowerLetter("abc1"[0]) && IsDigit("abc1"[3]);
  }

  lemma UsernameTooLongRejected(s: string)
    requires |s| == 11
    ensures !ValidUsername(s)
  {
  }

  lemma PasswordExampleAccepted()
    ensures ValidPassword("Abcdef1!")
  {
    var p := "Abcdef1!";
    assert IsUpperLetter(p[0]) && IsLowerLetter(p[1]) && IsDigit(p[6]) && IsSpecial(p[7]);
  }
}
