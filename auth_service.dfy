/**
 * Administrator accounts: the admin table, account creation with a hashed
 * password, login by username and password, token verification, and the
 * "is there any administrator" check. bcrypt and the JSON Web Token library
 * are given as functions; only what the service does with their results is
 * modelled.
 */
module AuthService {
  import opened Wrappers

  /** A row of the admin table. */
  datatype AdminUser = AdminUser(id: nat, username: string, passwordHash: string)

  /** The payload a token carries. */
  datatype Claims = Claims(userId: nat, username: string)

  /** A successful login: the account and a fresh token for it. */
  datatype Session = Session(user: AdminUser, token: string)

  /**
   * The libraries: `bcrypt.hash(password)` under a given salt,
   * `bcrypt.compare(password, hash)`, `jwt.sign(claims)` and `jwt.verify(token)`
   * with the server's secret and the 24-hour expiry; `verify` yields `None`
   * where the library throws (bad signature, expired, malformed).
   */
  datatype Crypto = Crypto(
    hash: (string, string) -> string,
    compare: (string, string) -> bool,
    sign: Claims -> string,
    verify: string -> Option<Claims>)

  /** What the service relies on: a hash is never the password itself and matches it, and a signed token verifies to its claims. */
  ghost predicate Sound(crypto: Crypto)
  {
    && (forall password, salt :: crypto.hash(password, salt) != password)
    && (forall password, salt :: crypto.compare(password, crypto.hash(password, salt)))
    && (forall claims :: crypto.verify(crypto.sign(claims)) == Some(claims))
  }

  /** The `username` column is `varchar(100)`. */
  const MaxUsernameLength: nat := 100
  const UniqueViolation: string := "duplicate key value violates unique constraint \"admin_users_username_unique\""
  const TooLong: string := "value too long for type character varying(100)"

  /** `generateToken(userId, username)`: under a sound library the token verifies to the account's id and name. */
  function GenerateToken(crypto: Crypto, user: AdminUser): (token: string)
    ensures Sound(crypto) ==> crypto.verify(token) == Some(Claims(user.id, user.username))
  {
    crypto.sign(Claims(user.id, user.username))
  }

  /** `verifyToken(token)`: the decoded claims, or `None` on any verification error. */
  function VerifyToken(crypto: Crypto, token: string): Option<Claims>
  {
    crypto.verify(token)
  }

  /** Index of the account with that username, if any. */
  function IndexOf(users: seq<AdminUser>, username: string): (r: Option<nat>)
    ensures r.None? <==> forall i :: 0 <= i < |users| ==> users[i].username != username
    ensures r.Some? ==>
      && r.value < |users| && users[r.value].username == username
      && forall i :: 0 <= i < r.value ==> users[i].username != username
  {
    if |users| == 0 then None
    else if users[0].username == username then Some(0)
    else
      match IndexOf(users[1..], username)
      case None => None
      case Some(k) => Some(k + 1)
  }

  class AdminStore {
    var users: seq<AdminUser>
    /** The next value of the `serial` id column. */
    var nextId: nat

    /** The table's constraints: unique usernames within the column width, ids issued in order. */
    ghost predicate Valid()
      reads this
    {
      && (forall i, j :: 0 <= i < j < |users| ==> users[i].username != users[j].username)
      && (forall i :: 0 <= i < |users| ==> |users[i].username| <= MaxUsernameLength && users[i].id < nextId)
    }

    constructor()
      ensures Valid() && users == [] && nextId == 1
    {
      users := [];
      nextId := 1;
    }

    /**
     * `createAdminUser(username, password)`: stores the username and the hash
     * of the password under the next id. The insert fails, leaving the
     * accounts as they were, when the username is wider than the column or
     * already taken. The `serial` default has drawn its id by then, and that
     * draw is not rolled back: the id is lost to the failed insert.
     */
    method CreateAdminUser(crypto: Crypto, username: string, password: string, salt: string) returns (result: Result<AdminUser, string>)
      requires Valid()
      modifies this
      ensures Valid()
      ensures |username| > MaxUsernameLength ==>
        result == Failure(TooLong) && users == old(users) && old(nextId) <= nextId <= old(nextId) + 1
      ensures |username| <= MaxUsernameLength && IndexOf(old(users), username).Some? ==>
        result == Failure(UniqueViolation) && users == old(users) && nextId == old(nextId) + 1
      ensures |username| <= MaxUsernameLength && IndexOf(old(users), username).None? ==>
        && result == Success(AdminUser(old(nextId), username, crypto.hash(password, salt)))
        && users == old(users) + [result.value] && nextId == old(nextId) + 1
    {
      var passwordHash := crypto.hash(password, salt);
      var id := nextId;
      nextId := nextId + 1;
      if |username| > MaxUsernameLength {
        return Failure(TooLong);
      }
      if IndexOf(users, username).Some? {
        return Failure(UniqueViolation);
      }
      var user := AdminUser(id, username, passwordHash);
      users := users + [user];
      result := Success(user);
    }

    /** The account with that username, if any. */
    function FindByUsername(username: string): (r: Option<AdminUser>)
      reads this
      ensures r.None? <==> forall i :: 0 <= i < |users| ==> users[i].username != username
      ensures r.Some? ==> r.value in users && r.value.username == username
    {
      match IndexOf(users, username)
      case None => None
      case Some(i) => Some(users[i])
    }

    /**
     * `authenticateAdmin(username, password)`: a session for the account when
     * the password matches its stored hash; `None` alike when there is no such
     * account and when the password does not match.
     */
    function AuthenticateAdmin(crypto: Crypto, username: string, password: string): (r: Option<Session>)
      reads this
      ensures r.None? <==> FindByUsername(username).None? || !crypto.compare(password, FindByUsername(username).value.passwordHash)
      ensures r.Some? ==>
        && r.value.user in users && r.value.user.username == username
        && crypto.compare(password, r.value.user.passwordHash)
        && r.value.token == crypto.sign(Claims(r.value.user.id, username))
    {
      match FindByUsername(username)
      case None => None
      case Some(user) =>
        if !crypto.compare(password, user.passwordHash) then None
        else Some(Session(user, GenerateToken(crypto, user)))
    }

    /** `checkIfAdminExists()`. */
    function CheckIfAdminExists(): (r: bool)
      reads this
      ensures r <==> exists u :: u in users
    {
      assert |users| > 0 ==> users[0] in users;
      |users| > 0
    }
  }

  /** An account created with a sound hash stores no password in the clear, and logging in with that password succeeds. */
  lemma CreatedAccountLogsIn(store: AdminStore, crypto: Crypto, user: AdminUser, password: string, salt: string)
    requires Sound(crypto) && store.Valid()
    requires user in store.users && user.passwordHash == crypto.hash(password, salt)
    ensures user.passwordHash != password
    ensures store.AuthenticateAdmin(crypto, user.username, password) == Some(Session(user, GenerateToken(crypto, user)))
  {
    var i :| 0 <= i < |store.users| && store.users[i] == user;
    var k := IndexOf(store.users, user.username).value;
    assert k == i;
  }

  /** A token issued at login verifies, under a sound library, to the logged-in account's id and name. */
  lemma SessionTokenVerifies(store: AdminStore, crypto: Crypto, username: string, password: string)
    requires Sound(crypto)
    requires store.AuthenticateAdmin(crypto, username, password).Some?
    ensures var s := store.AuthenticateAdmin(crypto, username, password).value;
      VerifyToken(crypto, s.token) == Some(Claims(s.user.id, username))
  {
  }
}
