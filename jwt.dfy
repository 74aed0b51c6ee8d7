/**
 * `global/security/jwt/JwtProvider.java`: the claim sets of the access and
 * refresh tokens. A token is modelled by its claims; signing, the key and
 * the compact serialisation are outside the model.
 */
module Jwt {
  import opened Common
  import opened Users
  import opened Permissions

  /**
   * A custom claim value: a string, a list of strings, or a UUID. A claim
   * given a null value is not stored at all (jjwt's builder removes the
   * name), so a UUID claim always holds a UUID.
   */
  datatype ClaimValue =
    | Text(text: string)
    | TextList(items: seq<string>)
    | UuidClaim(uuid: Uuid)

  /**
   * The registered claims the builders set, the token id (`jti`, never set
   * by either builder) and the custom claims. Times are epoch milliseconds;
   * the subject is the user id that `String.valueOf` renders.
   */
  datatype Claims = Claims(
    issuer: string,
    subject: UserId,
    issuedAt: int,
    expiration: int,
    id: Option<string>,
    custom: map<string, ClaimValue>)

  const MinuteMs: int := 60 * 1000
  /** `Duration.ofMinutes(15)`. */
  const AccessValidityMs: int := 15 * MinuteMs
  /** `Duration.ofDays(14)`. */
  const RefreshValidityMs: int := 14 * 24 * 60 * MinuteMs

  const ClaimPreferredUsername: string := "preferred_username"
  const ClaimRole: string := "role"
  const ClaimPerms: string := "perms"
  const ClaimHubId: string := "hub_id"
  const ClaimVendorId: string := "vendor_id"
  const ClaimDeliveryType: string := "delivery_type"
  const ClaimDeliveryHubId: string := "delivery_hub_id"
  const ClaimTokenType: string := "token_type"

  /** The custom claims the access-token builder is given for every account. */
  const AccessClaimNames: set<string> :=
    {ClaimPreferredUsername, ClaimRole, ClaimPerms, ClaimHubId, ClaimVendorId, ClaimTokenType}

  /** The two claims added for a courier. */
  const DeliveryClaimNames: set<string> := {ClaimDeliveryType, ClaimDeliveryHubId}

  /**
   * `createAccessToken(user, deliveryManager)` at time `now`: the builder
   * receives the fixed claims, then the two delivery claims when a courier
   * record is passed. A null hub, vendor or courier hub leaves its claim
   * out of the token. `getType().name()` dereferences the type, so a passed
   * record must carry one.
   */
  method CreateAccessToken(issuer: string, user: UserView, courier: Option<Courier>, now: int) returns (c: Claims)
    requires courier.Some? ==> courier.value.kind.Some?
    ensures c.issuer == issuer && c.subject == user.userId && c.id == None
    ensures c.issuedAt == now && c.expiration == now + AccessValidityMs
    ensures c.custom.Keys <= AccessClaimNames + DeliveryClaimNames
    ensures {ClaimPreferredUsername, ClaimRole, ClaimPerms, ClaimTokenType} <= c.custom.Keys
    ensures c.custom[ClaimPreferredUsername] == Text(user.username)
    ensures c.custom[ClaimRole] == Text(RoleName(user.role))
    ensures c.custom[ClaimPerms] == TextList(PermsFor(user.role))
    ensures c.custom[ClaimTokenType] == Text("access")
    ensures ClaimHubId in c.custom <==> user.hubId.Some?
    ensures user.hubId.Some? ==> c.custom[ClaimHubId] == UuidClaim(user.hubId.value)
    ensures ClaimVendorId in c.custom <==> user.vendorId.Some?
    ensures user.vendorId.Some? ==> c.custom[ClaimVendorId] == UuidClaim(user.vendorId.value)
    ensures ClaimDeliveryType in c.custom <==> courier.Some?
    ensures courier.Some? ==> c.custom[ClaimDeliveryType] == Text(DeliveryTypeName(courier.value.kind.value))
    ensures ClaimDeliveryHubId in c.custom <==> courier.Some? && courier.value.hubId.Some?
    ensures courier.Some? && courier.value.hubId.Some? ==>
      c.custom[ClaimDeliveryHubId] == UuidClaim(courier.value.hubId.value)
  {
    var perms := PermsFor(user.role);
    var custom := map[
      ClaimPreferredUsername := Text(user.username),
      ClaimRole := Text(RoleName(user.role)),
      ClaimPerms := TextList(perms)];
    if user.hubId.Some? {
      custom := custom[ClaimHubId := UuidClaim(user.hubId.value)];
    }
    if user.vendorId.Some? {
      custom := custom[ClaimVendorId := UuidClaim(user.vendorId.value)];
    }
    custom := custom[ClaimTokenType := Text("access")];
    if courier.Some? {
      custom := custom[ClaimDeliveryType := Text(DeliveryTypeName(courier.value.kind.value))];
      if courier.value.hubId.Some? {
        custom := custom[ClaimDeliveryHubId := UuidClaim(courier.value.hubId.value)];
      }
    }
    c := Claims(issuer, user.userId, now, now + AccessValidityMs, None, custom);
  }

  /** `createRefreshToken(userId)` at time `now`: only the token type as a custom claim. */
  function CreateRefreshToken(issuer: string, userId: UserId, now: int): (c: Claims)
    ensures c.issuer == issuer && c.subject == userId && c.id == None
    ensures c.issuedAt == now && c.expiration == now + RefreshValidityMs
    ensures c.custom.Keys == {ClaimTokenType} && c.custom[ClaimTokenType] == Text("refresh")
  {
    Claims(issuer, userId, now, now + RefreshValidityMs, None, map[ClaimTokenType := Text("refresh")])
  }

  /** The claim names are pairwise distinct, so no builder call overwrites another. */
  lemma ClaimNamesDistinct()
    ensures |AccessClaimNames| == 6 && |DeliveryClaimNames| == 2
    ensures AccessClaimNames !! DeliveryClaimNames
  {
    assert ClaimPreferredUsername[0] == 'p' && ClaimPerms[1] == 'e';
    assert ClaimRole[0] == 'r' && ClaimHubId[0] == 'h' && ClaimVendorId[0] == 'v';
    assert ClaimTokenType[0] == 't' && ClaimDeliveryType[0] == 'd' && ClaimDeliveryHubId[9] == 'h';
    assert ClaimDeliveryType[9] == 't';
  }
}
