/**
 * The Spring `Authentication` the security checks receive, reduced to what
 * they read: the principal object and the authority strings.
 */
module Security {
  import opened Common
  import opened Users

  /**
   * What `auth.getPrincipal()` returns: a `UserDetailsImpl` (the account
   * and, for a courier, its record), or some other principal object.
   */
  datatype PrincipalObject =
    | UserDetails(user: UserView, courier: Option<Courier>)
    | OtherPrincipal

  /** `principal == None` is a null principal. */
  datatype Authentication = Authentication(principal: Option<PrincipalObject>, authorities: seq<string>)

  /** The principal is a `UserDetailsImpl`, so the casts in the checkers succeed. */
  predicate HoldsUserDetails(auth: Authentication)
  {
    auth.principal.Some? && auth.principal.value.UserDetails?
  }

  /**
   * `authorities.stream().anyMatch(s -> wanted.contains(s))`, scanning the
   * authorities from the first.
   */
  function AnyMatch(authorities: seq<string>, wanted: set<string>): (r: bool)
    ensures r <==> exists i :: 0 <= i < |authorities| && authorities[i] in wanted
  {
    if authorities == [] then false
    else authorities[0] in wanted || AnyMatch(authorities[1..], wanted)
  }

  /** Adding authorities, anywhere, never turns a match into a miss. */
  lemma {:induction false} AnyMatchMonotonic(authorities: seq<string>, more: seq<string>, wanted: set<string>)
    requires forall i :: 0 <= i < |authorities| ==> authorities[i] in more
    ensures AnyMatch(authorities, wanted) ==> AnyMatch(more, wanted)
  {
    if AnyMatch(authorities, wanted) {
      var i :| 0 <= i < |authorities| && authorities[i] in wanted;
      var j :| 0 <= j < |more| && more[j] == authorities[i];
    }
  }
}
