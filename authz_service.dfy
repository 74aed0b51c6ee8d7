/**
 * `global/security/AuthzService.java`: permission-string checks over the
 * caller's authorities, where a MANAGE action stands for every action
 * and a GLOBAL scope for every scope, plus the two same-affiliation
 * checks.
 */
module AuthzServices {
  import opened Common
  import opened Users
  import opened Security
  import opened Permissions

  /** The four strings `has` accepts for a request. */
  function Accepted(resource: string, action: string, scope: string): (w: set<string>)
    ensures Perm(resource, action, scope) in w
  {
    {resource + ":" + action + ":" + scope,
     resource + ":MANAGE:" + scope,
     resource + ":" + action + ":GLOBAL",
     resource + ":MANAGE:GLOBAL"}
  }

  /** `has(auth, resource, action, scope)`. */
  function Has(authorities: seq<string>, resource: string, action: string, scope: string): (r: bool)
    ensures r <==> exists i :: 0 <= i < |authorities| && authorities[i] in Accepted(resource, action, scope)
  {
    AnyMatch(authorities, Accepted(resource, action, scope))
  }

  /** `inSameHub(auth, targetHubId)`: a null target is refused before the principal is cast. */
  function InSameHub(auth: Authentication, targetHubId: Option<Uuid>): (r: bool)
    requires targetHubId.Some? ==> HoldsUserDetails(auth)
    ensures r <==> targetHubId.Some? && auth.principal.value.user.hubId == targetHubId
  {
    if targetHubId.None? then false
    else
      var myHub := auth.principal.value.user.hubId;
      myHub.Some? && myHub == targetHubId
  }

  /** `inSameVendor(auth, targetVendorId)`: the same over the vendor. */
  function InSameVendor(auth: Authentication, targetVendorId: Option<Uuid>): (r: bool)
    requires targetVendorId.Some? ==> HoldsUserDetails(auth)
    ensures r <==> targetVendorId.Some? && auth.principal.value.user.vendorId == targetVendorId
  {
    if targetVendorId.None? then false
    else
      var myVendor := auth.principal.value.user.vendorId;
      myVendor.Some? && myVendor == targetVendorId
  }

  // ---------------------------------------------------------------------
  // Reading permission strings back.
  // ---------------------------------------------------------------------

  /** Two strings joined at a colon split back uniquely when the heads hold no colon. */
  lemma SplitAtColon(x1: string, y1: string, x2: string, y2: string)
    requires ':' !in x1 && ':' !in x2
    requires x1 + ":" + y1 == x2 + ":" + y2
    ensures x1 == x2 && y1 == y2
  {
    var j1, j2 := x1 + ":" + y1, x2 + ":" + y2;
    FirstColon(x1, y1);
    FirstColon(x2, y2);
    assert |x1| == |x2|;
    assert x1 == j1[..|x1|] == j2[..|x2|] == x2;
    assert y1 == j1[|x1| + 1..] == j2[|x2| + 1..] == y2;
  }

  /** The first colon of `x + ":" + y` is the joining one when `x` holds none. */
  lemma FirstColon(x: string, y: string)
    requires ':' !in x
    ensures (x + ":" + y)[|x|] == ':'
    ensures forall k :: 0 <= k < |x| ==> (x + ":" + y)[k] != ':'
  {
    forall k | 0 <= k < |x|
      ensures (x + ":" + y)[k] != ':'
    {
      assert (x + ":" + y)[k] == x[k];
    }
  }

  /** Permissions with colon-free resource and action words are equal only component-wise. */
  lemma PermInjective(r1: string, a1: string, s1: string, r2: string, a2: string, s2: string)
    requires ':' !in r1 && ':' !in r2 && ':' !in a1 && ':' !in a2
    ensures Perm(r1, a1, s1) == Perm(r2, a2, s2) <==> r1 == r2 && a1 == a2 && s1 == s2
  {
    if Perm(r1, a1, s1) == Perm(r2, a2, s2) {
      assert Perm(r1, a1, s1) == r1 + ":" + (a1 + ":" + s1);
      assert Perm(r2, a2, s2) == r2 + ":" + (a2 + ":" + s2);
      SplitAtColon(r1, a1 + ":" + s1, r2, a2 + ":" + s2);
      SplitAtColon(a1, s1, a2, s2);
    }
  }

  /** The accepted set, with every string written as a `Perm`. */
  lemma AcceptedArePerms(resource: string, action: string, scope: string)
    ensures Accepted(resource, action, scope)
      == {Perm(resource, action, scope), Perm(resource, "MANAGE", scope),
          Perm(resource, action, "GLOBAL"), Perm(resource, "MANAGE", "GLOBAL")}
  {
    assert resource + ":MANAGE:" + scope == Perm(resource, "MANAGE", scope);
    assert resource + ":MANAGE:GLOBAL" == Perm(resource, "MANAGE", "GLOBAL");
    assert resource + ":" + action + ":GLOBAL" == Perm(resource, action, "GLOBAL");
  }

  /**
   * One granted permission answers a request exactly when the resources
   * agree, its action is the one asked or MANAGE, and its scope is the
   * one asked or GLOBAL (all words colon-free).
   */
  lemma SingleGrant(r: string, a: string, s: string, r': string, a': string, s': string)
    requires ':' !in r && ':' !in a && ':' !in r' && ':' !in a'
    ensures Has([Perm(r, a, s)], r', a', s') <==>
      r == r' && (a == a' || a == "MANAGE") && (s == s' || s == "GLOBAL")
  {
    AcceptedArePerms(r', a', s');
    PermInjective(r, a, s, r', a', s');
    PermInjective(r, a, s, r', "MANAGE", s');
    PermInjective(r, a, s, r', a', "GLOBAL");
    PermInjective(r, a, s, r', "MANAGE", "GLOBAL");
    assert [Perm(r, a, s)][0] == Perm(r, a, s);
  }

  /** `<resource>:MANAGE:GLOBAL` answers every request on that resource. */
  lemma ManageGlobalGrantsAll(authorities: seq<string>, resource: string, action: string, scope: string)
    requires Perm(resource, "MANAGE", "GLOBAL") in authorities
    ensures Has(authorities, resource, action, scope)
  {
    AcceptedArePerms(resource, action, scope);
    var i :| 0 <= i < |authorities| && authorities[i] == Perm(resource, "MANAGE", "GLOBAL");
  }

  /** More authorities never answer fewer requests. */
  lemma HasMonotonic(authorities: seq<string>, more: seq<string>, resource: string, action: string, scope: string)
    requires forall i :: 0 <= i < |authorities| ==> authorities[i] in more
    ensures Has(authorities, resource, action, scope) ==> Has(more, resource, action, scope)
  {
    AnyMatchMonotonic(authorities, more, Accepted(resource, action, scope));
  }

  /** No authorities answer nothing. */
  lemma NothingFromNothing(resource: string, action: string, scope: string)
    ensures !Has([], resource, action, scope)
  {
  }

  /** The MASTER token's single permission answers every USER request. */
  lemma MasterPermsGrantAll(action: string, scope: string)
    ensures Has(PermsFor(Master), "USER", action, scope)
  {
    assert "USER:MANAGE:GLOBAL" == Perm("USER", "MANAGE", "GLOBAL");
    ManageGlobalGrantsAll(PermsFor(Master), "USER", action, scope);
  }

  /**
   * A delivery manager's permissions answer a USER request with a
   * colon-free action exactly when it is a READ on HUB or VENDOR.
   */
  lemma DeliveryManagerPermsReadOnly(a: string, s: string)
    requires ':' !in a
    ensures Has(PermsFor(DeliveryManager), "USER", a, s) <==> a == "READ" && (s == "HUB" || s == "VENDOR")
  {
    assert "USER:READ:HUB" == Perm("USER", "READ", "HUB");
    assert "USER:READ:VENDOR" == Perm("USER", "READ", "VENDOR");
    assert PermsFor(DeliveryManager) == [Perm("USER", "READ", "HUB")] + [Perm("USER", "READ", "VENDOR")];
    HasSplit([Perm("USER", "READ", "HUB")], [Perm("USER", "READ", "VENDOR")], "USER", a, s);
    SingleGrant("USER", "READ", "HUB", "USER", a, s);
    SingleGrant("USER", "READ", "VENDOR", "USER", a, s);
  }

  /**
   * A hub manager's permissions answer a USER request with a colon-free
   * action exactly when it is a READ on HUB or VENDOR, or a CREATE, UPDATE
   * or DELETE on VENDOR.
   */
  lemma HubManagerPerms(a: string, s: string)
    requires ':' !in a
    ensures Has(PermsFor(HubManager), "USER", a, s) <==>
      (a == "READ" && (s == "HUB" || s == "VENDOR"))
      || ((a == "CREATE" || a == "UPDATE" || a == "DELETE") && s == "VENDOR")
  {
    var writes := ["USER:CREATE:VENDOR", "USER:UPDATE:VENDOR", "USER:DELETE:VENDOR"];
    assert PermsFor(HubManager) == PermsFor(DeliveryManager) + writes;
    HasSplit(PermsFor(DeliveryManager), writes, "USER", a, s);
    DeliveryManagerPermsReadOnly(a, s);
    VendorWrites(a, s);
  }

  /** The three vendor-scoped write grants answer exactly a CREATE, UPDATE or DELETE on VENDOR. */
  lemma VendorWrites(a: string, s: string)
    requires ':' !in a
    ensures Has(["USER:CREATE:VENDOR", "USER:UPDATE:VENDOR", "USER:DELETE:VENDOR"], "USER", a, s)
      <==> (a == "CREATE" || a == "UPDATE" || a == "DELETE") && s == "VENDOR"
  {
    var create, update, delete := Perm("USER", "CREATE", "VENDOR"), Perm("USER", "UPDATE", "VENDOR"), Perm("USER", "DELETE", "VENDOR");
    assert "USER:CREATE:VENDOR" == create && "USER:UPDATE:VENDOR" == update && "USER:DELETE:VENDOR" == delete;
    assert [create, update, delete] == [create] + ([update] + [delete]);
    HasSplit([create], [update] + [delete], "USER", a, s);
    HasSplit([update], [delete], "USER", a, s);
    SingleGrant("USER", "CREATE", "VENDOR", "USER", a, s);
    SingleGrant("USER", "UPDATE", "VENDOR", "USER", a, s);
    SingleGrant("USER", "DELETE", "VENDOR", "USER", a, s);
  }

  /**
   * A vendor manager's permissions answer a USER request with a colon-free
   * action exactly when it is a READ on HUB or VENDOR, or an UPDATE on
   * VENDOR.
   */
  lemma VendorManagerPerms(a: string, s: string)
    requires ':' !in a
    ensures Has(PermsFor(VendorManager), "USER", a, s) <==>
      (a == "READ" && (s == "HUB" || s == "VENDOR")) || (a == "UPDATE" && s == "VENDOR")
  {
    var readHub, readVendor, update := Perm("USER", "READ", "HUB"), Perm("USER", "READ", "VENDOR"), Perm("USER", "UPDATE", "VENDOR");
    assert "USER:READ:HUB" == readHub && "USER:READ:VENDOR" == readVendor && "USER:UPDATE:VENDOR" == update;
    assert PermsFor(VendorManager) == [readHub] + ([readVendor] + [update]);
    HasSplit([readHub], [readVendor] + [update], "USER", a, s);
    HasSplit([readVendor], [update], "USER", a, s);
    SingleGrant("USER", "READ", "HUB", "USER", a, s);
    SingleGrant("USER", "READ", "VENDOR", "USER", a, s);
    SingleGrant("USER", "UPDATE", "VENDOR", "USER", a, s);
  }

  /** Answering from a concatenation is answering from either part. */
  lemma HasSplit(xs: seq<string>, ys: seq<string>, resource: string, action: string, scope: string)
    ensures Has(xs + ys, resource, action, scope) <==> Has(xs, resource, action, scope) || Has(ys, resource, action, scope)
  {
    var w := Accepted(resource, action, scope);
    if Has(xs + ys, resource, action, scope) {
      var i :| 0 <= i < |xs + ys| && (xs + ys)[i] in w;
      if i >= |xs| { assert ys[i - |xs|] in w; }
    }
    if Has(xs, resource, action, scope) {
      var i :| 0 <= i < |xs| && xs[i] in w;
      assert (xs + ys)[i] in w;
    }
    if Has(ys, resource, action, scope) {
      var i :| 0 <= i < |ys| && ys[i] in w;
      assert (xs + ys)[|xs| + i] in w;
    }
  }
}
