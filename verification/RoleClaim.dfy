/**
 Role claims: a user that is rotated between two logins and whose memberships are rebuilt
 from the map of schemas and roles each time.
 */
module RoleClaim {
  import opened Options
  import opened Rotation

  const VALID := "valid"

  /** The name of the role for a schema and a kind of role. */
  function RoleName(lower: string -> string, schema: string, kind: string): string {
    lower(lower(schema) + "_" + lower(kind))
  }

  /** The roles that a map asks for. */
  function RoleNames(lower: string -> string, roles: map<string, string>): set<string> {
    set s | s in roles :: RoleName(lower, s, roles[s])
  }

  predicate KnownKind(role: string) {
    HasSuffix(role, "admin") || HasSuffix(role, "regular") || HasSuffix(role, "readonly")
  }

  /** The roles of a database: which exist, who may log in, and the direct memberships of each user. */
  class RoleTable {
    var schemas: set<string>
    var roles: set<string>
    var passwords: map<string, string>
    var members: map<string, set<string>>

    constructor (schemas: set<string>, roles: set<string>, passwords: map<string, string>, members: map<string, set<string>>)
      ensures this.schemas == schemas && this.roles == roles && this.passwords == passwords && this.members == members
    {
      this.schemas, this.roles, this.passwords, this.members := schemas, roles, passwords, members;
    }

    function Memberships(user: string): set<string>
      reads this`members
    {
      if user in members then members[user] else {}
    }

    method CreateSchema(schema: string) returns (ok: bool)
      modifies this`schemas
      ensures schemas == if ok then old(schemas) + {schema} else old(schemas)
    {
      ok := *;
      if ok {
        schemas := schemas + {schema};
      }
    }

    /** Creates a role if it is missing; a role of no known kind is silently not created. */
    method CreateRole(role: string) returns (ok: bool)
      modifies this`roles
      ensures old(roles) <= roles <= old(roles) + {role}
      ensures ok && KnownKind(role) ==> role in roles
    {
      ok := *;
      if ok && role !in roles && KnownKind(role) {
        roles := roles + {role};
      }
    }

    /** Creates a login without memberships, if it is missing. */
    method CreateUser(user: string, password: string) returns (ok: bool, created: bool)
      modifies this`passwords, this`members
      ensures ok ==> user in passwords && (created ==> passwords[user] == password)
      ensures forall u :: u != user ==> (u in passwords <==> u in old(passwords)) && Memberships(u) == old(Memberships(u))
      ensures forall u :: u != user && u in passwords ==> passwords[u] == old(passwords)[u]
      ensures Memberships(user) <= old(Memberships(user))
    {
      ok := *;
      created := ok && user !in passwords;
      if created {
        passwords := passwords[user := password];
        members := members[user := {}];
      }
    }

    method UpdatePassword(user: string, password: string) returns (ok: bool)
      modifies this`passwords
      ensures passwords == if ok then old(passwords)[user := password] else old(passwords)
    {
      ok := *;
      ok := ok && password != "";
      if ok {
        passwords := passwords[user := password];
      }
    }

    /** A chain of memberships. */
    ghost predicate Chain(p: seq<string>)
      reads this`members
    {
      |p| >= 2 && forall i :: 0 <= i < |p| - 1 ==> p[i + 1] in Memberships(p[i])
    }

    /** The user has the role directly or through other roles. */
    ghost predicate Has(user: string, role: string)
      reads this`members
    {
      exists p :: Chain(p) && p[0] == user && p[|p| - 1] == role
    }

    lemma HasDirectly(user: string, role: string)
      requires role in Memberships(user)
      ensures Has(user, role)
    {
      assert Chain([user, role]);
    }

    lemma HasThrough(user: string, role: string, next: string)
      requires Has(user, role) && next in Memberships(role)
      ensures Has(user, next)
    {
      var p :| Chain(p) && p[0] == user && p[|p| - 1] == role;
      assert Chain(p + [next]);
    }

    /** A set of roles that is closed under membership holds everything that a chain from the user leads to. */
    lemma {:induction false} ClosedHoldsChain(user: string, seen: set<string>, p: seq<string>)
      requires Chain(p) && p[0] == user
      requires Memberships(user) <= seen && forall r :: r in seen ==> Memberships(r) <= seen
      ensures p[|p| - 1] in seen
    {
      if |p| > 2 {
        var q := p[..|p| - 1];
        assert Chain(q);
        ClosedHoldsChain(user, seen, q);
        assert p[|p| - 1] in Memberships(q[|q| - 1]);
      }
    }

    lemma ClosedIsAll(user: string, seen: set<string>)
      requires Memberships(user) <= seen && forall r :: r in seen ==> Memberships(r) <= seen
      requires forall r :: r in seen ==> Has(user, r)
      ensures forall r :: r in seen <==> Has(user, r)
    {
      forall r | Has(user, r) ensures r in seen {
        var p :| Chain(p) && p[0] == user && p[|p| - 1] == r;
        ClosedHoldsChain(user, seen, p);
      }
    }

    /** Follows the memberships from role to role. */
    method Closure(user: string) returns (seen: set<string>)
      ensures forall r :: r in seen <==> Has(user, r)
    {
      ghost var all := set u, r | u in members && r in members[u] :: r;
      seen := Memberships(user);
      var todo := seen;
      forall r | r in seen ensures Has(user, r) {
        HasDirectly(user, r);
      }
      while todo != {}
        invariant todo <= seen <= all && Memberships(user) <= seen
        invariant forall r :: r in seen ==> Has(user, r)
        invariant forall r :: r in seen - todo ==> Memberships(r) <= seen
        decreases all - seen, todo
      {
        var r :| r in todo;
        var more := Memberships(r) - seen;
        forall n | n in more ensures Has(user, n) {
          HasThrough(user, r, n);
        }
        assert Memberships(r) <= seen + more;
        if more == {} {
          todo := todo - {r};
        } else {
          ghost var n :| n in more;
          assert n in all - seen && n !in all - (seen + more);
          seen, todo := seen + more, todo - {r} + more;
        }
      }
      ClosedIsAll(user, seen);
    }

    /** The roles that a user has directly or through others, in some order; the user itself is not listed. */
    method GetUserRoles(user: string) returns (found: Option<seq<string>>)
      ensures found.Some? ==> forall r :: r in found.value <==> Has(user, r) && r != user
    {
      var ok := *;
      if !ok {
        return None;
      }
      var left := Closure(user);
      left := left - {user};
      ghost var all := left;
      var roles := [];
      while left != {}
        invariant left <= all && forall r :: r in roles <==> r in all - left
        decreases left
      {
        var r :| r in left;
        roles := roles + [r];
        left := left - {r};
      }
      return Some(roles);
    }

    /** Takes a direct membership away; there being none is no error. */
    method RevokeRole(user: string, role: string) returns (ok: bool)
      modifies this`members
      ensures Memberships(user) == if ok then old(Memberships(user)) - {role} else old(Memberships(user))
      ensures forall u :: u != user ==> Memberships(u) == old(Memberships(u))
    {
      ok := *;
      if ok {
        members := members[user := Memberships(user) - {role}];
      }
    }

    method AssignRole(user: string, role: string) returns (ok: bool)
      modifies this`members
      ensures Memberships(user) == if ok then old(Memberships(user)) + {role} else old(Memberships(user))
      ensures forall u :: u != user ==> Memberships(u) == old(Memberships(u))
      ensures ok ==> role in roles && role != user
    {
      ok := *;
      ok := ok && role in roles && role != user;
      if ok {
        members := members[user := Memberships(user) + {role}];
      }
    }
  }

  class RoleReconciler {
    const lower: string -> string
    const name: string
    const roleMap: map<string, string>
    const db: RoleTable
    var username: string
    var schemaStatus: map<string, string>
    var roleStatus: map<string, string>
    var secret: Option<Credential>

    constructor (lower: string -> string, name: string, roleMap: map<string, string>, db: RoleTable, username: string,
                 schemaStatus: map<string, string>, roleStatus: map<string, string>, secret: Option<Credential>)
      ensures this.lower == lower && this.name == name && this.roleMap == roleMap && this.db == db
      ensures this.username == username && this.schemaStatus == schemaStatus
      ensures this.roleStatus == roleStatus && this.secret == secret
    {
      this.lower, this.name, this.roleMap, this.db := lower, name, roleMap, db;
      this.username, this.schemaStatus, this.roleStatus, this.secret := username, schemaStatus, roleStatus, secret;
    }

    function Base(): string {
      lower(name) + "_user"
    }

    /** The roles asked for, except those of the schemas still to be done. */
    function RolesWithout(left: set<string>): set<string> {
      set s | s in roleMap && s !in left :: RoleName(lower, s, roleMap[s])
    }

    /** Looks for an entry whose schema or role is empty. */
    method HasEmptyParam() returns (missing: bool)
      ensures missing <==> exists s :: s in roleMap && (s == "" || roleMap[s] == "")
    {
      var left := roleMap.Keys;
      while left != {}
        invariant left <= roleMap.Keys && forall s :: s in roleMap && s !in left ==> s != "" && roleMap[s] != ""
        decreases left
      {
        var s :| s in left;
        if s == "" || roleMap[s] == "" {
          return true;
        }
        left := left - {s};
      }
      return false;
    }

    /** Creates the schemas and roles in any order and marks them as valid. */
    method CreateSchemasAndRoles() returns (ok: bool)
      modifies this`schemaStatus, this`roleStatus, db`schemas, db`roles
      ensures ok ==> forall s :: s in roleMap ==>
                && lower(s) in db.schemas && lower(s) in schemaStatus && schemaStatus[lower(s)] == VALID
                && RoleName(lower, s, roleMap[s]) in roleStatus && roleStatus[RoleName(lower, s, roleMap[s])] == VALID
    {
      var left := roleMap.Keys;
      while left != {}
        invariant left <= roleMap.Keys
        invariant forall s :: s in roleMap && s !in left ==>
                    && lower(s) in db.schemas && lower(s) in schemaStatus && schemaStatus[lower(s)] == VALID
                    && RoleName(lower, s, roleMap[s]) in roleStatus && roleStatus[RoleName(lower, s, roleMap[s])] == VALID
        decreases left
      {
        var s :| s in left;
        ok := db.CreateSchema(lower(s));
        if !ok {
          return;
        }
        schemaStatus := schemaStatus[lower(s) := VALID];
        var role := RoleName(lower, s, roleMap[s]);
        ok := db.CreateRole(role);
        if !ok {
          return;
        }
        roleStatus := roleStatus[role := VALID];
        left := left - {s};
      }
      ok := true;
    }

    /** Takes all memberships of a user away; no role is ever a member of itself. */
    method RevokeAll(user: string) returns (ok: bool)
      requires user !in db.Memberships(user)
      modifies db`members
      ensures ok ==> db.Memberships(user) == {}
      ensures forall u :: u != user ==> db.Memberships(u) == old(db.Memberships(u))
      ensures db.Memberships(user) <= old(db.Memberships(user))
    {
      var found := db.GetUserRoles(user);
      if found.None? {
        return false;
      }
      forall r | r in db.Memberships(user) ensures r in found.value {
        db.HasDirectly(user, r);
      }
      var i := 0;
      while i < |found.value|
        invariant 0 <= i <= |found.value|
        invariant forall r :: r in db.Memberships(user) ==> r in found.value[i..]
        invariant db.Memberships(user) <= old(db.Memberships(user))
        invariant forall u :: u != user ==> db.Memberships(u) == old(db.Memberships(u))
      {
        ok := db.RevokeRole(user, found.value[i]);
        if !ok {
          return;
        }
        i := i + 1;
      }
      ok := true;
    }

    /** Gives a user without memberships exactly the roles of the map. */
    method AssignAll(user: string) returns (ok: bool)
      requires db.Memberships(user) == {}
      modifies db`members
      ensures ok ==> db.Memberships(user) == RoleNames(lower, roleMap) && RoleNames(lower, roleMap) <= db.roles
      ensures forall u :: u != user ==> db.Memberships(u) == old(db.Memberships(u))
      ensures user !in db.Memberships(user)
    {
      var left := roleMap.Keys;
      while left != {}
        invariant left <= roleMap.Keys && user !in db.Memberships(user)
        invariant db.Memberships(user) == RolesWithout(left) && RolesWithout(left) <= db.roles
        invariant forall u :: u != user ==> db.Memberships(u) == old(db.Memberships(u))
        decreases left
      {
        var s :| s in left;
        ok := db.AssignRole(user, RoleName(lower, s, roleMap[s]));
        if !ok {
          return;
        }
        assert RolesWithout(left - {s}) == RolesWithout(left) + {RoleName(lower, s, roleMap[s])};
        left := left - {s};
      }
      ok := true;
      assert RolesWithout({}) == RoleNames(lower, roleMap);
    }

    /** Makes sure that the login exists and has the new password. */
    method SetPassword(user: string, password: string) returns (ok: bool)
      modifies db`passwords, db`members
      ensures ok ==> user in db.passwords && db.passwords[user] == password
      ensures db.Memberships(user) <= old(db.Memberships(user))
      ensures forall u :: u != user ==> db.Memberships(u) == old(db.Memberships(u))
      ensures forall u :: u != user && u in old(db.passwords) ==> u in db.passwords && db.passwords[u] == old(db.passwords)[u]
    {
      var created;
      ok, created := db.CreateUser(user, password);
      if ok && !created {
        ok := db.UpdatePassword(user, password);
      }
    }

    /**
     A rotating reconcile.  If it succeeds, the next user can log in with the published credentials, its
     memberships are exactly the roles of the map, whatever they were before, each of these roles is marked
     valid; the other user is untouched, whether it succeeds or not.
     */
    method Rotate(password: string) returns (ok: bool)
      requires forall u :: u !in db.Memberships(u)
      modifies this, db
      ensures forall u :: u !in db.Memberships(u)
      ensures var user := NextUser(Base(), old(if username == "" then name else username));
              && (ok ==>
                    && (forall s :: s in roleMap ==> s != "" && roleMap[s] != "")
                    && username == user && secret == Some(Credential(user, password))
                    && user in db.passwords && db.passwords[user] == password
                    && db.Memberships(user) == RoleNames(lower, roleMap) && RoleNames(lower, roleMap) <= db.roles
                    && forall r :: r in RoleNames(lower, roleMap) ==> r in roleStatus && roleStatus[r] == VALID)
              && (forall u :: u != user ==> db.Memberships(u) == old(db.Memberships(u)))
              && (forall u :: u != user && u in old(db.passwords) ==>
                    u in db.passwords && db.passwords[u] == old(db.passwords)[u])
    {
      var missing := HasEmptyParam();
      if missing {
        return false;
      }
      if username == "" {
        username := name;
      }
      ok := CreateSchemasAndRoles();
      if !ok {
        return;
      }
      var user := NextUser(Base(), username);
      username := user;
      ok := SetPassword(user, password);
      if !ok {
        return;
      }
      ok := RevokeAll(user);
      if !ok {
        return;
      }
      ok := AssignAll(user);
      if !ok {
        return;
      }
      ok := *;
      if ok {
        secret := Some(Credential(user, password));
      }
    }
  }
}
