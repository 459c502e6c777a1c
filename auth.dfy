/**
 * The user store behind `/register` and `/login`: the module-level `users`
 * array and its counter `nextUserId`, the seed account inserted when the
 * module loads, registration with unique usernames, and the plaintext
 * credential check of login.
 */
module Auth {
  import opened Wire
  import opened Seqs

  datatype User = User(id: int, username: string, password: string, createdAt: Timestamp)

  function UserId(u: User): int { u.id }

  /** Body of `POST /register` and of `POST /login`. */
  datatype Credentials = Credentials(username: Field<string>, password: Field<string>)

  /** What a successful registration answers with: the id and the username, never the password. */
  datatype Account = Account(id: int, username: string)

  /** The fallback of both seed settings. */
  const DefaultSeed: string := "test"

  /**
   * `process.env.X || 'test'`: the environment value when it is set and
   * non-empty, the fallback otherwise. So the seed username is never empty.
   */
  function SeedSetting(env: Option<string>): (r: string)
    ensures r != ""
    ensures env.Some? && env.value != "" ==> r == env.value
    ensures env == None || env == Some("") ==> r == DefaultSeed
  {
    if env.Some? && env.value != "" then env.value else DefaultSeed
  }

  /** `users.find(u => u.username === name)` finds someone. */
  predicate Registered(s: seq<User>, name: string)
  {
    exists i :: 0 <= i < |s| && s[i].username == name
  }

  /** No two users share a username. */
  predicate UsernamesUnique(s: seq<User>)
  {
    forall i, j :: 0 <= i < |s| && 0 <= j < |s| && i != j ==> s[i].username != s[j].username
  }

  /**
   * The login check: both keys were sent and some stored user has exactly
   * that username and exactly that password (no hashing, no normalisation).
   */
  predicate Authenticates(s: seq<User>, c: Credentials): (b: bool)
    ensures b ==> c.username.Given? && c.password.Given?
    ensures b <==> exists u :: u in s && c == Credentials(Given(u.username), Given(u.password))
  {
    c.username.Given? && c.password.Given? &&
    exists i :: 0 <= i < |s| && s[i].username == c.username.value && s[i].password == c.password.value
  }

  /** Appending a user under a username nobody holds keeps usernames unique. */
  lemma PushKeepsUsernamesUnique(s: seq<User>, u: User)
    requires UsernamesUnique(s) && !Registered(s, u.username)
    ensures UsernamesUnique(s + [u])
  {
  }

  /** With unique usernames, a username matches at most one user, so login can match at most one account. */
  lemma AuthenticatesSingleUser(s: seq<User>, c: Credentials, i: int, j: int)
    requires UsernamesUnique(s)
    requires 0 <= i < |s| && 0 <= j < |s|
    requires c.username.Given? && s[i].username == c.username.value && s[j].username == c.username.value
    ensures i == j
  {
  }

  class UserStore {
    var users: seq<User>
    var nextUserId: int

    /** Ids strictly increase and were issued by the counter; usernames are unique. */
    ghost predicate Valid()
      reads this
    {
      1 <= nextUserId &&
      Increasing(users, UserId) && Within(users, UserId, 1, nextUserId) &&
      UsernamesUnique(users)
    }

    /**
     * Loading the module: `let users = []`, `let nextUserId = 1`, then the
     * seed block with `SEED_USER` and `SEED_PASS` read from the environment;
     * on this empty store it always inserts the seed user, as id 1.
     */
    constructor (seedUserEnv: Option<string>, seedPassEnv: Option<string>, now: Timestamp)
      ensures Valid()
      ensures users == [User(1, SeedSetting(seedUserEnv), SeedSetting(seedPassEnv), now)]
      ensures nextUserId == 2
    {
      users := [];
      nextUserId := 1;
      new;
      Seed(SeedSetting(seedUserEnv), SeedSetting(seedPassEnv), now);
    }

    /** `_resetUsers`: empties the store without seeding it again. */
    method Reset()
      modifies this
      ensures Valid()
      ensures users == [] && nextUserId == 1
    {
      users := [];
      nextUserId := 1;
    }

    /** The `find` by username of the seed block and of `/register`. */
    method IsRegistered(name: string) returns (b: bool)
      ensures b == Registered(users, name)
    {
      var i := FindIndex(users, (u: User) => u.username == name);
      b := i != -1;
    }

    /** The seed block: inserts the seed user unless a user with that username exists. */
    method Seed(username: string, password: string, now: Timestamp)
      requires Valid()
      modifies this
      ensures Valid()
      ensures Registered(old(users), username) ==> users == old(users) && nextUserId == old(nextUserId)
      ensures !Registered(old(users), username) ==>
        users == old(users) + [User(old(nextUserId), username, password, now)] &&
        nextUserId == old(nextUserId) + 1
    {
      var found := IsRegistered(username);
      if !found {
        var u := User(nextUserId, username, password, now);
        PushKeepsIds(users, UserId, u, nextUserId);
        PushKeepsUsernamesUnique(users, u);
        nextUserId := nextUserId + 1;
        users := users + [u];
      }
    }

    /**
     * `POST /register`: 400 unless both keys are truthy, 409 when the
     * username is taken, otherwise a new user with the counter's id.
     */
    method Register(c: Credentials, now: Timestamp) returns (r: Reply<Account>)
      requires Valid()
      modifies this
      ensures Valid()
      ensures r.Ok? || r == BadRequest || r == Conflict
      ensures r == BadRequest <==> !Truthy(c.username) || !Truthy(c.password)
      ensures r == Conflict <==>
        Truthy(c.username) && Truthy(c.password) && Registered(old(users), c.username.value)
      ensures !r.Ok? ==> users == old(users) && nextUserId == old(nextUserId)
      ensures r.Ok? ==>
        r.value == Account(old(nextUserId), c.username.value) &&
        users == old(users) + [User(old(nextUserId), c.username.value, c.password.value, now)] &&
        nextUserId == old(nextUserId) + 1
    {
      if !Truthy(c.username) || !Truthy(c.password) {
        return BadRequest;
      }
      var found := IsRegistered(c.username.value);
      if found {
        return Conflict;
      }
      var u := User(nextUserId, c.username.value, c.password.value, now);
      PushKeepsIds(users, UserId, u, nextUserId);
      PushKeepsUsernamesUnique(users, u);
      nextUserId := nextUserId + 1;
      users := users + [u];
      r := Ok(Account(u.id, u.username));
    }

    /**
     * `POST /login`: succeeds exactly when a stored user has the sent
     * username and password; the answer carries the username the identity
     * cookie is set to. The store is only read.
     */
    method Login(c: Credentials) returns (r: Reply<string>)
      ensures r.Ok? || r == Unauthorized
      ensures r.Ok? <==> Authenticates(users, c)
      ensures r.Ok? ==> r.value == c.username.value
    {
      var i := FindIndex(users, (u: User) =>
        c.username.Given? && c.password.Given? &&
        u.username == c.username.value && u.password == c.password.value);
      if i == -1 {
        r := Unauthorized;
      } else {
        r := Ok(c.username.value);
      }
    }
  }
}
