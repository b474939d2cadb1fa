/** The two login users of a role, and the rotation of the credentials between them. */
module Rotation {
  import opened Options

  const SUFFIX_A := "_a"
  const SUFFIX_B := "_b"

  predicate HasSuffix(s: string, suffix: string) {
    |s| >= |suffix| && s[|s| - |suffix|..] == suffix
  }

  function TrimSuffix(s: string, suffix: string): string {
    if HasSuffix(s, suffix) then s[..|s| - |suffix|] else s
  }

  function UserA(base: string): string {
    base + SUFFIX_A
  }

  function UserB(base: string): string {
    base + SUFFIX_B
  }

  function TrimUserSuffix(user: string): string {
    TrimSuffix(TrimSuffix(user, SUFFIX_A), SUFFIX_B)
  }

  predicate IsUserChanged(base: string, current: string) {
    current != "" && TrimUserSuffix(current) != base
  }

  function NextUser(base: string, current: string): string {
    if HasSuffix(current, SUFFIX_A) then UserB(base) else UserA(base)
  }

  /** The two users follow each other. */
  lemma UsersAlternate(base: string)
    ensures NextUser(base, UserA(base)) == UserB(base) && NextUser(base, UserB(base)) == UserA(base)
    ensures NextUser(base, "") == UserA(base) && UserA(base) != UserB(base)
  {
    var a, b := UserA(base), UserB(base);
    assert a[|a| - 2..] == SUFFIX_A && b[|b| - 2..] == SUFFIX_B;
  }

  /** A rotation never touches the user that is in use, whoever that is. */
  lemma NextUserIsAnother(base: string, current: string)
    ensures NextUser(base, current) != current
  {
    var a, b := UserA(base), UserB(base);
    assert a[|a| - 2..] == SUFFIX_A && b[|b| - 2..] == SUFFIX_B;
  }

  /** The first user is taken for a foreign one exactly if the base name itself ends like a second user. */
  lemma UsersAreRecognised(base: string)
    ensures !IsUserChanged(base, UserB(base))
    ensures IsUserChanged(base, UserA(base)) <==> HasSuffix(base, SUFFIX_B)
  {
    var a, b := UserA(base), UserB(base);
    assert a[|a| - 2..] == SUFFIX_A && a[..|a| - 2] == base;
    assert b[|b| - 2..] == SUFFIX_B && b[..|b| - 2] == base;
  }

  datatype Credential = Credential(user: string, password: string)

  /** The logins of the database, the user of the active database and the published secret. */
  datatype State = State(passwords: map<string, string>, active: string, secret: Option<Credential>)

  predicate Accepted(passwords: map<string, string>, cred: Credential) {
    cred.user in passwords && passwords[cred.user] == cred.password
  }

  /** A completed rotation. */
  function Rotated(base: string, s: State, password: string): State {
    var user := NextUser(base, s.active);
    State(s.passwords[user := password], user, Some(Credential(user, password)))
  }

  /** The state after a sequence of completed rotations. */
  function After(base: string, s: State, passwords: seq<string>): State {
    if passwords == [] then s
    else Rotated(base, After(base, s, passwords[..|passwords| - 1]), passwords[|passwords| - 1])
  }

  /** The user of the n-th rotation, counted from one. */
  function UserAt(base: string, start: string, n: nat): string
    requires n > 0
  {
    if (n % 2 == 1) == (NextUser(base, start) == UserA(base)) then UserA(base) else UserB(base)
  }

  /**
   Over any sequence of completed rotations the users alternate; the published pair is the newest, it is
   accepted and belongs to the active database; and the pair published before is still accepted.
   */
  lemma {:induction false} RotationGrace(base: string, s: State, passwords: seq<string>)
    requires |passwords| > 0
    ensures var n := |passwords|;
            var t, user := After(base, s, passwords), UserAt(base, s.active, n);
            && t.active == user && t.secret == Some(Credential(user, passwords[n - 1]))
            && Accepted(t.passwords, t.secret.value)
            && (n > 1 ==>
                  && user != UserAt(base, s.active, n - 1)
                  && After(base, s, passwords[..n - 1]).secret
                     == Some(Credential(UserAt(base, s.active, n - 1), passwords[n - 2]))
                  && Accepted(t.passwords, After(base, s, passwords[..n - 1]).secret.value))
  {
    UsersAlternate(base);
    var n := |passwords|;
    if n > 1 {
      RotationGrace(base, s, passwords[..n - 1]);
    }
  }

  /** Every rotation finds its predecessor's user to be one of its own, so none is mistaken for a rename. */
  lemma RotationsAreRecognised(base: string, s: State, passwords: seq<string>)
    requires |passwords| > 0 && !HasSuffix(base, SUFFIX_B)
    ensures !IsUserChanged(base, After(base, s, passwords).active)
  {
    RotationGrace(base, s, passwords);
    UsersAreRecognised(base);
  }

  /** The credentials of one claim, while it uses its own database. */
  class Rotator {
    const base: string
    var passwords: map<string, string>
    var activeUser: string
    var newUser: string
    var newUpdated: bool
    var secret: Option<Credential>

    constructor (base: string, passwords: map<string, string>, activeUser: string, secret: Option<Credential>)
      ensures this.base == base && Settled() && Now() == State(passwords, activeUser, secret)
    {
      this.base, this.passwords, this.activeUser, this.secret := base, passwords, activeUser, secret;
      newUser, newUpdated := "", false;
    }

    ghost function Now(): State
      reads this
    {
      State(passwords, activeUser, secret)
    }

    /** No rotation is under way. */
    ghost predicate Settled()
      reads this
    {
      newUser == "" && !newUpdated
    }

    /** The published credentials can be used. */
    ghost predicate Usable()
      reads this
    {
      secret.Some? ==> Accepted(passwords, secret.value) && secret.value.user == activeUser
    }

    /** Creates the user if it is missing. */
    method CreateUser(user: string, password: string) returns (ok: bool)
      modifies this`passwords
      ensures passwords == old(passwords)
              || (user !in old(passwords) && passwords == old(passwords)[user := password])
      ensures ok ==> user in passwords
    {
      ok := *;
      if ok && user !in passwords {
        passwords := passwords[user := password];
      }
    }

    method UpdatePassword(user: string, password: string) returns (ok: bool)
      requires user in passwords
      modifies this`passwords
      ensures passwords == if ok then old(passwords)[user := password] else old(passwords)
      ensures ok ==> password != ""
    {
      ok := *;
      ok := ok && password != "";
      if ok {
        passwords := passwords[user := password];
      }
    }

    /**
     Gives the next user a new password when a rotation is due; the result is the new password, if any.
     A user that seems to belong to another base name is not handled here.
     */
    method ManageUser(password: string, due: bool) returns (ok: bool, temp: string)
      modifies this`passwords, this`newUser, this`newUpdated
      ensures var current := if old(newUser) == "" then activeUser else old(newUser);
              && (ok && (!old(newUpdated) || due) ==>
                    && temp == password && password != "" && newUser == NextUser(base, current) && newUpdated
                    && passwords == old(passwords)[newUser := password])
              && (ok && old(newUpdated) && !due ==>
                    temp == "" && newUser == old(newUser) && newUpdated && passwords == old(passwords))
              && forall u :: u in old(passwords) && u != NextUser(base, current) ==>
                               u in passwords && passwords[u] == old(passwords)[u]
    {
      temp := "";
      var current := newUser;
      if current == "" {
        current := activeUser;
      }
      if IsUserChanged(base, current) {
        return false, "";
      }
      ok := true;
      if !newUpdated || due {
        var next := NextUser(base, current);
        ok := CreateUser(next, password);
        if !ok {
          return;
        }
        ok := UpdatePassword(next, password);
        if !ok {
          return;
        }
        newUser, newUpdated, temp := next, true, password;
      }
    }

    /**
     One reconcile of a settled claim, any step of which may fail.  If it completes, it is a rotation;
     if it fails, the published credentials are the old ones and still usable.
     */
    method Reconcile(password: string, due: bool) returns (ok: bool)
      requires Settled() && Usable()
      modifies this
      ensures ok ==> Settled() && Usable() && Now() == Rotated(base, old(Now()), password)
      ensures !ok ==> Now().active == old(activeUser) && (secret == old(secret) ==> Usable())
      ensures !ok && secret != old(secret) ==>
                secret == Some(Credential(NextUser(base, activeUser), password)) && Accepted(passwords, secret.value)
    {
      NextUserIsAnother(base, activeUser);
      var temp: string;
      ok, temp := ManageUser(password, due);
      if !ok {
        return;
      }
      ok := *;
      if !ok {
        return;
      }
      secret := Some(Credential(newUser, temp));
      ok := *;
      if ok {
        activeUser := newUser;
        newUser, newUpdated := "", false;
      }
    }
  }
}
