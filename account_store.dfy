/** The account store (src/app/module/account/account.store.ts): the `users`
    table, kept in insertion order, and the cache of users by `user:<id>`.
    Password hashing and comparison, the fresh id and the clock are passed in. */
module AccountStore {
  import opened Common
  import Parser

  /** The role every new account gets. */
  const USER_ROLE := 2
  /** What `executeTakeFirstOrThrow` throws when no row was touched. */
  const NO_RESULT := "no result"
  /** What `bcrypt.compare` throws for a user without a password. */
  const NO_HASH := "data and hash arguments required"

  /** A row of `users`; times are milliseconds, `None` is SQL null. */
  datatype User = User(
    id: string, roleId: int, firstName: string, lastName: string, email: string,
    password: Option<string>, title: Option<string>, phone: Option<string>, picture: Option<string>,
    createdAt: int, updatedAt: Option<int>, verifiedAt: Option<int>, deletedAt: Option<int>,
    passwordLastUpdated: Option<int>)

  /** `CreateUser` */
  datatype NewAccount = NewAccount(
    firstName: string, lastName: string, email: string, password: Option<string>,
    title: Option<string>, phone: Option<string>, picture: Option<string>, verifiedAt: Option<int>)

  /** `UpdateProfile`: every field optional. */
  datatype Profile = Profile(
    firstName: Option<string>, lastName: Option<string>, email: Option<string>,
    title: Option<string>, phone: Option<string>, picture: Option<string>)

  /** The cache key of a user. */
  function Key(id: string): (k: string)
    ensures |k| == |id| + 5 && k[5..] == id
  {
    "user:" + id
  }

  lemma KeyInjective(a: string, b: string)
    ensures Key(a) == Key(b) <==> a == b
  {
    if Key(a) == Key(b) {
      assert a == Key(a)[5..] == Key(b)[5..] == b;
    }
  }

  /** The `where` clauses of the store's queries: a row not deleted, with the
      given email or id. */
  datatype Filter = ByEmail(email: string) | ById(id: string)

  predicate Selects(f: Filter, u: User) {
    u.deletedAt.None? && match f
      case ByEmail(email) => u.email == email
      case ById(id) => u.id == id
  }

  /** `executeTakeFirst()` on a select: the position of the first selected row. */
  function First(users: seq<User>, f: Filter): (r: Option<nat>)
    ensures r.Some? ==> (r.value < |users| && Selects(f, users[r.value])
      && forall k :: 0 <= k < r.value ==> !Selects(f, users[k]))
    ensures r.None? <==> forall k :: 0 <= k < |users| ==> !Selects(f, users[k])
  {
    if |users| == 0 then None
    else if Selects(f, users[0]) then Some(0)
    else match First(users[1..], f)
      case None =>
        assert forall k :: 1 <= k < |users| ==> users[k] == users[1..][k - 1];
        None
      case Some(i) => Some(i + 1)
  }

  /** The `set` clauses of the store's updates. */
  datatype Change =
    | SetProfile(profile: Profile, now: int)
    | SetPassword(hashed: string, now: int)
    | SetDeleted(now: int)
    | SetVerified(now: int)

  /** `v` when truthy, else the column's current value. */
  function Truthy(v: Option<string>, current: string): string {
    if Parser.Present(v) then v.value else current
  }

  function TruthyOr(v: Option<string>, current: Option<string>): Option<string> {
    if Parser.Present(v) then v else current
  }

  /** The profile update: each truthy field of the payload, and `updated_at`. */
  function ApplyProfile(u: User, p: Profile, now: int): (r: User)
    ensures r.firstName == Truthy(p.firstName, u.firstName) && r.lastName == Truthy(p.lastName, u.lastName)
    ensures r.email == Truthy(p.email, u.email)
    ensures r.title == TruthyOr(p.title, u.title) && r.phone == TruthyOr(p.phone, u.phone)
    ensures r.picture == TruthyOr(p.picture, u.picture)
    ensures r.updatedAt == Some(now)
    ensures r.(firstName := u.firstName, lastName := u.lastName, email := u.email, title := u.title,
               phone := u.phone, picture := u.picture, updatedAt := u.updatedAt) == u
  {
    u.(firstName := Truthy(p.firstName, u.firstName), lastName := Truthy(p.lastName, u.lastName),
       email := Truthy(p.email, u.email), title := TruthyOr(p.title, u.title),
       phone := TruthyOr(p.phone, u.phone), picture := TruthyOr(p.picture, u.picture),
       updatedAt := Some(now))
  }

  function Apply(c: Change, u: User): User {
    match c
    case SetProfile(p, now) => ApplyProfile(u, p, now)
    case SetPassword(hashed, now) => u.(password := Some(hashed), passwordLastUpdated := Some(now))
    case SetDeleted(now) => u.(deletedAt := Some(now))
    case SetVerified(now) => u.(verifiedAt := Some(now))
  }

  /** An `update ... where` on the table: every selected row changed, every
      other row as it was. */
  function UpdateRows(users: seq<User>, f: Filter, c: Change): (r: seq<User>)
    ensures |r| == |users|
    ensures forall k :: 0 <= k < |users| ==> r[k] == if Selects(f, users[k]) then Apply(c, users[k]) else users[k]
  {
    seq(|users|, k requires 0 <= k < |users| => if Selects(f, users[k]) then Apply(c, users[k]) else users[k])
  }

  /** The row `create` inserts. */
  function NewUser(a: NewAccount, id: string, now: int, hash: string -> string): (u: User)
    ensures u.id == id && u.roleId == USER_ROLE && u.createdAt == now
    ensures u.password == (if Parser.Present(a.password) then Some(hash(a.password.value)) else None)
    ensures u.firstName == a.firstName && u.lastName == a.lastName && u.email == a.email
    ensures u.title == a.title && u.phone == a.phone && u.picture == a.picture && u.verifiedAt == a.verifiedAt
    ensures u.updatedAt.None? && u.deletedAt.None? && u.passwordLastUpdated.None?
  {
    User(id, USER_ROLE, a.firstName, a.lastName, a.email,
         if Parser.Present(a.password) then Some(hash(a.password.value)) else None,
         a.title, a.phone, a.picture, now, None, a.verifiedAt, None, None)
  }

  /** What `get(id)` returns in a state: the cached user, else the first live
      row with the id. */
  function GetResult(users: seq<User>, cache: map<string, User>, id: string): (r: Option<User>)
    ensures Key(id) in cache ==> r == Some(cache[Key(id)])
    ensures Key(id) !in cache ==> (r.None? <==> forall k :: 0 <= k < |users| ==> !Selects(ById(id), users[k]))
    ensures Key(id) !in cache && r.Some? ==> r.value.id == id && r.value.deletedAt.None? && r.value in users
  {
    if Key(id) in cache then Some(cache[Key(id)])
    else match First(users, ById(id))
      case None => None
      case Some(i) => Some(users[i])
  }

  class AccountStore {
    var users: seq<User>
    var cache: map<string, User>

    constructor(users: seq<User>, cache: map<string, User>)
      ensures this.users == users && this.cache == cache
    {
      this.users := users;
      this.cache := cache;
    }

    /** `create(u)`: inserts one row, hashing the password only when one is
        given; the cache is not touched. `id` is the fresh `uuid.v4()`. */
    method Create(a: NewAccount, id: string, now: int, hash: string -> string) returns (u: User)
      modifies this
      ensures u == NewUser(a, id, now, hash)
      ensures users == old(users) + [u] && cache == old(cache)
    {
      var password: Option<string> := None;
      if Parser.Present(a.password) {
        password := Some(hash(a.password.value));
      }
      u := User(id, USER_ROLE, a.firstName, a.lastName, a.email, password,
                a.title, a.phone, a.picture, now, None, a.verifiedAt, None, None);
      users := users + [u];
    }

    /** `login(u)`: the first live user with the email, when the password
        matches its hash; that user is then cached. */
    method Login(email: string, password: string, compare: (string, string) -> bool) returns (r: Result<Option<User>>)
      modifies this
      ensures users == old(users)
      ensures First(users, ByEmail(email)).None? ==> r == Ok(None) && cache == old(cache)
      ensures First(users, ByEmail(email)).Some? ==>
        var u := users[First(users, ByEmail(email)).value];
        if u.password.None? then r == Err(NO_HASH) && cache == old(cache)
        else if compare(password, u.password.value) then r == Ok(Some(u)) && cache == old(cache)[Key(u.id) := u]
        else r == Ok(None) && cache == old(cache)
    {
      var found := First(users, ByEmail(email));
      if found.None? {
        return Ok(None);
      }
      var u := users[found.value];
      if u.password.None? {
        return Err(NO_HASH);
      }
      if compare(password, u.password.value) {
        cache := cache[Key(u.id) := u];
        return Ok(Some(u));
      }
      r := Ok(None);
    }

    /** `get(id)`: the cached user; on a miss the first live row with the id,
        which is then cached. */
    method Get(id: string) returns (r: Option<User>)
      modifies this
      ensures r == GetResult(old(users), old(cache), id)
      ensures users == old(users)
      ensures cache == if Key(id) !in old(cache) && r.Some? then old(cache)[Key(id) := r.value] else old(cache)
    {
      if Key(id) in cache {
        return Some(cache[Key(id)]);
      }
      var found := First(users, ById(id));
      if found.None? {
        return None;
      }
      r := Some(users[found.value]);
      cache := cache[Key(id) := users[found.value]];
    }

    /** `getByEmail(email)`: reads the table, never the cache, and caches the
        user it finds. */
    method GetByEmail(email: string) returns (r: Option<User>)
      modifies this
      ensures users == old(users)
      ensures First(users, ByEmail(email)).None? ==> r.None? && cache == old(cache)
      ensures First(users, ByEmail(email)).Some? ==>
        r == Some(users[First(users, ByEmail(email)).value]) && cache == old(cache)[Key(r.value.id) := r.value]
    {
      var found := First(users, ByEmail(email));
      if found.None? {
        return None;
      }
      r := Some(users[found.value]);
      cache := cache[Key(r.value.id) := r.value];
    }

    /** The update query with `returningAll().executeTakeFirstOrThrow()`: the
        changed version of the first selected row, or an error when no row is
        selected, in which case nothing changes. */
    method Update(f: Filter, c: Change) returns (r: Result<User>)
      modifies this
      ensures cache == old(cache)
      ensures users == UpdateRows(old(users), f, c)
      ensures First(old(users), f).None? ==> r == Err(NO_RESULT) && users == old(users)
      ensures First(old(users), f).Some? ==> r == Ok(Apply(c, old(users)[First(old(users), f).value]))
    {
      var found := First(users, f);
      var updated := UpdateRows(users, f, c);
      if found.None? {
        assert updated == users;
        users := updated;
        return Err(NO_RESULT);
      }
      r := Ok(Apply(c, users[found.value]));
      users := updated;
    }

    /** `updateProfile(id, payload)`: the truthy payload fields and `updated_at`
        on the live row with the id, which is then cached. */
    method UpdateProfile(id: string, p: Profile, now: int) returns (r: Result<User>)
      modifies this
      ensures users == UpdateRows(old(users), ById(id), SetProfile(p, now))
      ensures First(old(users), ById(id)).None? ==> r == Err(NO_RESULT) && users == old(users) && cache == old(cache)
      ensures First(old(users), ById(id)).Some? ==>
        r == Ok(ApplyProfile(old(users)[First(old(users), ById(id)).value], p, now))
        && cache == old(cache)[Key(id) := r.value]
    {
      r := Update(ById(id), SetProfile(p, now));
      if r.Ok? {
        cache := cache[Key(id) := r.value];
      }
    }

    /** `changePassword(email, pass)`: the hash of the new password and its date
        on every live row with the email; the first of them is cached. */
    method ChangePassword(email: string, pass: string, hash: string -> string, now: int) returns (r: Result<()>)
      modifies this
      ensures users == UpdateRows(old(users), ByEmail(email), SetPassword(hash(pass), now))
      ensures First(old(users), ByEmail(email)).None? ==> r == Err(NO_RESULT) && users == old(users) && cache == old(cache)
      ensures First(old(users), ByEmail(email)).Some? ==>
        var u := Apply(SetPassword(hash(pass), now), old(users)[First(old(users), ByEmail(email)).value]);
        r == Ok(()) && cache == old(cache)[Key(u.id) := u]
    {
      var updated := Update(ByEmail(email), SetPassword(hash(pass), now));
      if updated.Err? {
        return Err(updated.message);
      }
      cache := cache[Key(updated.value.id) := updated.value];
      r := Ok(());
    }

    /** `deactivate(id)`: marks the live row with the id deleted and drops its
        cache entry. */
    method Deactivate(id: string, now: int) returns (r: Result<string>)
      modifies this
      ensures users == UpdateRows(old(users), ById(id), SetDeleted(now))
      ensures First(old(users), ById(id)).None? ==> r == Err(NO_RESULT) && users == old(users) && cache == old(cache)
      ensures First(old(users), ById(id)).Some? ==> r == Ok(id) && cache == old(cache) - {Key(id)}
    {
      var updated := Update(ById(id), SetDeleted(now));
      if updated.Err? {
        return Err(updated.message);
      }
      cache := cache - {Key(id)};
      r := Ok(updated.value.id);
    }

    /** `verifyEmail(id)`: sets `verified_at` on the live row with the id, which is
        then cached. */
    method VerifyEmail(id: string, now: int) returns (r: Result<()>)
      modifies this
      ensures users == UpdateRows(old(users), ById(id), SetVerified(now))
      ensures First(old(users), ById(id)).None? ==> r == Err(NO_RESULT) && users == old(users) && cache == old(cache)
      ensures First(old(users), ById(id)).Some? ==>
        r == Ok(()) && cache == old(cache)[Key(id) := old(users)[First(old(users), ById(id)).value].(verifiedAt := Some(now))]
    {
      var updated := Update(ById(id), SetVerified(now));
      if updated.Err? {
        return Err(updated.message);
      }
      cache := cache[Key(updated.value.id) := updated.value];
      r := Ok(());
    }
  }

  /** After a deactivation, `get` finds nothing for that id: the cache entry is
      gone and every live row with the id is now deleted. */
  lemma GetAfterDeactivate(users: seq<User>, cache: map<string, User>, id: string, now: int)
    ensures GetResult(UpdateRows(users, ById(id), SetDeleted(now)), cache - {Key(id)}, id).None?
  {
    var after := UpdateRows(users, ById(id), SetDeleted(now));
    assert forall k :: 0 <= k < |after| ==> !Selects(ById(id), after[k]);
  }

  /** A successful login is seen by the next `get` of that user. */
  lemma GetAfterLogin(users: seq<User>, cache: map<string, User>, u: User)
    ensures GetResult(users, cache[Key(u.id) := u], u.id) == Some(u)
  {
  }

  /** Updating the profile twice with the same payload at the same time is the
      same as updating it once. */
  lemma ProfileUpdateIdempotent(u: User, p: Profile, now: int)
    ensures ApplyProfile(ApplyProfile(u, p, now), p, now) == ApplyProfile(u, p, now)
  {
  }

  /** An empty payload changes nothing but `updated_at`. */
  lemma EmptyProfileTouchesOnlyUpdatedAt(u: User, now: int)
    ensures ApplyProfile(u, Profile(None, None, None, None, None, None), now) == u.(updatedAt := Some(now))
  {
  }

  /** A new account is found by email when no live account had that email. */
  lemma NewAccountFoundByEmail(users: seq<User>, u: User)
    requires First(users, ByEmail(u.email)).None? && u.deletedAt.None?
    ensures First(users + [u], ByEmail(u.email)) == Some(|users|)
  {
    var all := users + [u];
    assert forall k :: 0 <= k < |users| ==> all[k] == users[k];
    assert all[|users|] == u;
  }
}
