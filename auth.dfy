/** The mock session of lib/auth.ts: the module-level `currentUser`, login and
    registration against the user table, and the profile, XP and reputation updates that
    keep `currentUser` in step with the stored record. */
module Auth {
  import opened Wrappers
  import opened Strings
  import opened Database

  /** `AuthUser`: the part of a `User` the session keeps. */
  datatype AuthUser = AuthUser(
    id: string, username: string, email: string, avatar: Option<string>,
    level: int, xp: int, reputation: int)

  /** The `{ user, token }` that login and registration resolve to. */
  datatype Granted = Granted(user: AuthUser, token: string)

  /** The projection every operation builds from a stored user. */
  function Project(u: User): (a: AuthUser)
    ensures a.id == u.id && a.username == u.username && a.email == u.email && a.avatar == u.avatar
    ensures a.level == u.level && a.xp == u.xp && a.reputation == u.reputation
  {
    AuthUser(u.id, u.username, u.email, u.avatar, u.level, u.xp, u.reputation)
  }

  /** `email.split("@")[0]`: the username login looks up. */
  function UsernameOf(email: string): string
  {
    Split(email, '@')[0]
  }

  /** The looked-up name is the part of the email before its first `@`, or the whole
      email when it has none. */
  lemma UsernameOfSpec(email: string)
    ensures '@' !in UsernameOf(email) && UsernameOf(email) <= email
    ensures |UsernameOf(email)| < |email| ==> email[|UsernameOf(email)|] == '@'
    ensures '@' !in email ==> UsernameOf(email) == email
  {
    SplitFirstPiece(email, '@');
  }

  /** An address `name@domain` logs in as `name`. */
  lemma UsernameOfAddress(name: string, domain: string)
    requires '@' !in name
    ensures UsernameOf(name + "@" + domain) == name
  {
    SplitPrefix(name, domain, '@');
  }

  function Digit(d: nat): char
    requires d < 10
  {
    "0123456789"[d]
  }

  /** The decimal text of a natural number, as a template literal prints it. */
  function NatToString(n: nat): (r: string)
    ensures |r| >= 1
    ensures forall i :: 0 <= i < |r| ==> '0' <= r[i] <= '9'
  {
    if n < 10 then [Digit(n)] else NatToString(n / 10) + [Digit(n % 10)]
  }

  function IntToString(n: int): string
  {
    if n < 0 then "-" + NatToString(-n) else NatToString(n)
  }

  /** `mock-jwt-token-${id}-${Date.now()}`. */
  function Token(id: string, now: int): (t: string)
    ensures StartsWith(t, "mock-jwt-token-")
  {
    "mock-jwt-token-" + id + "-" + IntToString(now)
  }

  /** The bio a new account starts with. */
  function WelcomeBio(username: string): string
  {
    "Welcome to DevHive, " + username + "! \U{1F680}"
  }

  /** The record `register` stores: level 1, no XP, no reputation, the welcome bio and
      no avatar or social links. */
  function NewUser(id: string, username: string, email: string, now: int): (u: User)
    ensures u.id == id && u.username == username && u.email == email
    ensures u.level == 1 && u.xp == 0 && u.reputation == 0
    ensures u.bio == Some(WelcomeBio(username)) && u.avatar.None?
    ensures u.createdAt == now && u.updatedAt == now
  {
    User(id, username, email, None, Some(WelcomeBio(username)), 1, 0, 0, None, None, None, now, now)
  }

  /** `Math.floor(xp / 1000) + 1`: one level per thousand XP, starting at level 1. */
  function LevelFor(xp: int): (level: int)
    ensures (level - 1) * 1000 <= xp < level * 1000
  {
    xp / 1000 + 1
  }

  /** More XP never means a lower level. */
  lemma LevelMonotone(a: int, b: int)
    requires a <= b
    ensures LevelFor(a) <= LevelFor(b)
  {
  }

  /** The patch `addXP` writes. */
  function XpPatch(xp: int): UserPatch
  {
    NoUserChanges.(xp := Some(xp), level := Some(LevelFor(xp)))
  }

  /** The patch `addReputation` writes. */
  function ReputationPatch(reputation: int): UserPatch
  {
    NoUserChanges.(reputation := Some(reputation))
  }

  /** `db.users.update(id, patch)` as the function `update` applies to the found record. */
  function ApplyPatch(p: UserPatch, now: int): User -> User
  {
    (u: User) => MergeUser(u, p, now)
  }

  /** A username that was free resolves, once registered, to the new account. */
  lemma {:induction false} RegisteredIsFound(users: seq<User>, u: User)
    requires FindByUsername(users, u.username).None?
    ensures FindByUsername(users + [u], u.username) == Some(u)
  {
    var all := users + [u];
    var r := FindByUsername(all, u.username);
    assert all[|users|].username == u.username;
    assert r.Some?;
    var i :| 0 <= i < |all| && all[i] == r.value && r.value.username == u.username;
  }

  /** The answer of every action and route that needs a session and has none. */
  const AuthenticationRequired := "Authentication required"

  /** The session state: `currentUser` and the user table it is drawn from. */
  class AuthState {
    var currentUser: Option<AuthUser>
    const users: Table<User>

    /** The table is keyed by user id, so `users.IndexOf(id)` finds the record of user `id`. */
    ghost predicate Valid()
    {
      users.idOf == UserId
    }

    constructor (users: Table<User>)
      requires users.idOf == UserId
      ensures Valid() && currentUser.None? && this.users == users
    {
      this.users := users;
      currentUser := None;
    }

    /** `getCurrentUser()`. */
    function GetCurrentUser(): Option<AuthUser>
      reads this
    {
      currentUser
    }

    /** `isAuthenticated()`: somebody is logged in. */
    function IsAuthenticated(): (r: bool)
      reads this
      ensures r <==> GetCurrentUser().Some?
    {
      currentUser != None
    }

    /** `login({ email, password })`: looks up the user named by the email's local part.
        A missing user or a password under 6 UTF-16 code units gives null and leaves the
        session alone; otherwise the user's projection becomes `currentUser`. The
        password is not compared with anything. */
    method Login(email: string, password: string, now: int) returns (r: Option<Granted>)
      modifies this`currentUser
      ensures var found := FindByUsername(users.rows, UsernameOf(email));
        && (r.None? <==> found.None? || Utf16Length(password) < 6)
        && (r.None? ==> currentUser == old(currentUser))
        && (r.Some? ==> currentUser == Some(Project(found.value))
                        && r == Some(Granted(Project(found.value), Token(found.value.id, now))))
    {
      var found := FindByUsername(users.rows, UsernameOf(email));
      if found.None? || Utf16Length(password) < 6 {
        return None;
      }
      var authUser := Project(found.value);
      currentUser := Some(authUser);
      r := Some(Granted(authUser, Token(found.value.id, now)));
    }

    /** `register({ username, email, password })`: a taken username gives null and
        creates nothing; otherwise a level-1 account is appended and logged in. The
        password is not looked at; `id` and `now` are the generated id and the clock. */
    method Register(username: string, email: string, password: string, id: string, now: int)
      returns (r: Option<Granted>)
      modifies this`currentUser, users
      ensures FindByUsername(old(users.rows), username).Some? ==>
        r.None? && users.rows == old(users.rows) && currentUser == old(currentUser)
      ensures FindByUsername(old(users.rows), username).None? ==>
        var u := NewUser(id, username, email, now);
        && users.rows == old(users.rows) + [u]
        && currentUser == Some(Project(u))
        && r == Some(Granted(Project(u), Token(id, now)))
    {
      if FindByUsername(users.rows, username).Some? {
        return None;
      }
      var u := users.Create(NewUser(id, username, email, now));
      var authUser := Project(u);
      currentUser := Some(authUser);
      r := Some(Granted(authUser, Token(u.id, now)));
    }

    /** `logout()`. */
    method Logout()
      modifies this`currentUser
      ensures !IsAuthenticated()
    {
      currentUser := None;
    }

    /** Writes `p` to the stored record of the logged-in user and makes its projection
        the new `currentUser`; null, with the session unchanged, when that record is gone.
        The common tail of `updateProfile`, `addXP` and `addReputation`. */
    method Store(p: UserPatch, now: int) returns (r: Option<AuthUser>)
      requires Valid() && currentUser.Some?
      modifies this`currentUser, users
      ensures var i := old(users.IndexOf(currentUser.value.id));
        && (i.None? ==> r.None? && users.rows == old(users.rows) && currentUser == old(currentUser))
        && (i.Some? ==>
              users.rows == old(users.rows)[i.value := MergeUser(old(users.rows)[i.value], p, now)]
              && r == Some(Project(users.rows[i.value])) && currentUser == r)
    {
      var updated := users.Update(currentUser.value.id, ApplyPatch(p, now));
      if updated.None? {
        return None;
      }
      r := Some(Project(updated.value));
      currentUser := r;
    }

    /** `updateProfile(updates)`: null and no change when nobody is logged in. */
    method UpdateProfile(p: UserPatch, now: int) returns (r: Option<AuthUser>)
      requires Valid()
      modifies this`currentUser, users
      ensures old(currentUser).None? ==> r.None? && currentUser.None? && users.rows == old(users.rows)
      ensures old(currentUser).Some? ==>
        var i := old(users.IndexOf(currentUser.value.id));
        && (i.None? ==> r.None? && users.rows == old(users.rows) && currentUser == old(currentUser))
        && (i.Some? ==>
              users.rows == old(users.rows)[i.value := MergeUser(old(users.rows)[i.value], p, now)]
              && r == Some(Project(users.rows[i.value])) && currentUser == r)
    {
      if currentUser.None? {
        return None;
      }
      r := Store(p, now);
    }

    /** `addXP(amount)`: the new XP is the session's XP plus `amount` and the new level
        follows from it; both are written to the stored record. The XP is taken from
        `currentUser`, not from the table. */
    method AddXP(amount: int, now: int) returns (r: Option<AuthUser>)
      requires Valid()
      modifies this`currentUser, users
      ensures old(currentUser).None? ==> r.None? && currentUser.None? && users.rows == old(users.rows)
      ensures old(currentUser).Some? ==>
        var i := old(users.IndexOf(currentUser.value.id));
        && (i.None? ==> r.None? && users.rows == old(users.rows) && currentUser == old(currentUser))
        && (i.Some? ==>
              users.rows == old(users.rows)[i.value := MergeUser(old(users.rows)[i.value], XpPatch(old(currentUser).value.xp + amount), now)]
              && r == Some(Project(users.rows[i.value])) && currentUser == r
              && r.value.xp == old(currentUser).value.xp + amount
              && r.value.level == LevelFor(r.value.xp)
              && r.value.reputation == old(users.rows)[i.value].reputation)
    {
      if currentUser.None? {
        return None;
      }
      var newXP := currentUser.value.xp + amount;
      r := Store(XpPatch(newXP), now);
    }

    /** `addReputation(amount)`: adds `amount` to the session's reputation and writes it;
        XP and level are those of the stored record. */
    method AddReputation(amount: int, now: int) returns (r: Option<AuthUser>)
      requires Valid()
      modifies this`currentUser, users
      ensures old(currentUser).None? ==> r.None? && currentUser.None? && users.rows == old(users.rows)
      ensures old(currentUser).Some? ==>
        var i := old(users.IndexOf(currentUser.value.id));
        && (i.None? ==> r.None? && users.rows == old(users.rows) && currentUser == old(currentUser))
        && (i.Some? ==>
              users.rows == old(users.rows)[i.value := MergeUser(old(users.rows)[i.value], ReputationPatch(old(currentUser).value.reputation + amount), now)]
              && r == Some(Project(users.rows[i.value])) && currentUser == r
              && r.value.reputation == old(currentUser).value.reputation + amount
              && r.value.xp == old(users.rows)[i.value].xp
              && r.value.level == old(users.rows)[i.value].level)
    {
      if currentUser.None? {
        return None;
      }
      var newReputation := currentUser.value.reputation + amount;
      r := Store(ReputationPatch(newReputation), now);
    }
  }
}
