/**
 * The persisted accounts and courier records, standing for the JPA
 * repositories the services query. Queries return the first match in
 * insertion order; ids are assigned in increasing order on save.
 */
module UserStore {
  import opened Common
  import opened Users

  /** The first account whose username is exactly `username`. */
  function FindByUsername(users: seq<User>, username: string): (r: Option<User>)
    ensures r.Some? ==> r.value in users && r.value.username == username
    ensures r.None? <==> forall i :: 0 <= i < |users| ==> users[i].username != username
  {
    if users == [] then None
    else if users[0].username == username then Some(users[0])
    else FindByUsername(users[1..], username)
  }

  /** The first account whose email is exactly `email`. */
  function FindByEmail(users: seq<User>, email: string): (r: Option<User>)
    ensures r.Some? ==> r.value in users && r.value.email == email
    ensures r.None? <==> forall i :: 0 <= i < |users| ==> users[i].email != email
  {
    if users == [] then None
    else if users[0].email == email then Some(users[0])
    else FindByEmail(users[1..], email)
  }

  /** The account with id `id`. */
  function FindById(users: seq<User>, id: UserId): (r: Option<User>)
    ensures r.Some? ==> r.value in users && r.value.userId == id
    ensures r.None? <==> forall i :: 0 <= i < |users| ==> users[i].userId != id
  {
    if users == [] then None
    else if users[0].userId == id then Some(users[0])
    else FindById(users[1..], id)
  }

  /** `existsByUsername`. */
  predicate ExistsByUsername(users: seq<User>, username: string)
  {
    FindByUsername(users, username).Some?
  }

  /** `existsByEmail`: exact comparison, with no case folding. */
  predicate ExistsByEmail(users: seq<User>, email: string)
  {
    FindByEmail(users, email).Some?
  }

  /**
   * Appending an account with a username no stored account has makes the
   * lookup by that username find it.
   */
  lemma {:induction false} FindByUsernameAppend(users: seq<User>, u: User)
    requires !ExistsByUsername(users, u.username)
    ensures FindByUsername(users + [u], u.username) == Some(u)
  {
    if users != [] {
      assert (users + [u])[1..] == users[1..] + [u];
      FindByUsernameAppend(users[1..], u);
    }
  }

  /** Distinct ids: the id lookup names one account. */
  predicate IdsDistinct(users: seq<User>)
  {
    forall i, j :: 0 <= i < j < |users| ==> users[i].userId != users[j].userId
  }

  class UserRepository {
    var users: seq<User>
    var nextId: UserId

    /** Ids are distinct and all below the next one to assign. */
    predicate Valid()
      reads this
    {
      IdsDistinct(users) && forall i :: 0 <= i < |users| ==> users[i].userId < nextId
    }

    constructor ()
      ensures Valid() && users == []
    {
      users := [];
      nextId := 1;
    }

    /**
     * `save(User.builder()...build())`: a new account with the next id,
     * no scope ids and the courier flag down, appended to the store.
     */
    method Save(username: string, password: string, name: string, email: string,
                role: Role, status: UserStatus, slackAccountId: string) returns (u: User)
      requires Valid()
      modifies this
      ensures Valid() && fresh(u)
      ensures users == old(users) + [u]
      ensures u.userId == old(nextId) && u.username == username && u.password == password
      ensures u.name == name && u.email == email && u.role == role && u.status == status
      ensures u.slackAccountId == slackAccountId
      ensures u.hubId == None && u.vendorId == None && !u.isDeliveryManager
    {
      u := new User(nextId, username, password, name, email, role, status, slackAccountId);
      users := users + [u];
      nextId := nextId + 1;
    }
  }

  /** The courier records, keyed by the id of the account that owns them. */
  class CourierRepository {
    var records: map<UserId, Courier>

    constructor ()
      ensures records == map[]
    {
      records := map[];
    }

    /** `deliveryManagerRepository.save(...)`. */
    method Save(owner: UserId, courier: Courier)
      modifies this
      ensures records == old(records)[owner := courier]
    {
      records := records[owner := courier];
    }
  }
}
