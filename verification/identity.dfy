/** src/nexabot/infrastructure/database/repositories/identity.py: a user's roles, written into
    normalised tables and read back by joins. */
module Identity {
  import opened Common

  datatype Permission = Permission(namespace: string, action: string)

  datatype Role = Role(name: string, permissions: set<Permission>)

  /** `roles`, `permissions`, `user_roles` and `role_permissions`. */
  datatype Access = Access(
    roles: map<Id, string>,
    permissions: map<Id, Permission>,
    userRoles: set<(Id, Id)>,
    rolePermissions: set<(Id, Id)>)
  {
    /** The unique constraints and foreign keys of the tables. */
    ghost predicate Valid() {
      && (forall a, b :: a in roles && b in roles && roles[a] == roles[b] ==> a == b)
      && (forall a, b :: a in permissions && b in permissions && permissions[a] == permissions[b] ==> a == b)
      && (forall x :: x in userRoles ==> x.1 in roles)
      && (forall x :: x in rolePermissions ==> x.0 in roles && x.1 in permissions)
    }

    function Names(): set<string> {
      roles.Values
    }

    /** What the role called `name` allows. */
    ghost function Allowed(name: string): set<Permission> {
      set x | x in rolePermissions && x.0 in roles && roles[x.0] == name && x.1 in permissions :: permissions[x.1]
    }

    ghost function RolesOf(user: Id): set<Role> {
      set x | x in userRoles && x.0 == user && x.1 in roles :: Role(roles[x.1], Allowed(roles[x.1]))
    }

    /** Every given role already exists with all of its permissions. */
    ghost predicate Present(given: set<Role>) {
      forall role :: role in given ==> role.name in Names() && role.permissions <= Allowed(role.name)
    }
  }

  function NamesOf(given: set<Role>): set<string> {
    set role | role in given :: role.name
  }

  ghost predicate DistinctNames(given: set<Role>) {
    forall a, b :: a in given && b in given && a.name == b.name ==> a == b
  }

  /** No row is lost or renamed, and no role loses a permission. */
  ghost predicate Extends(before: Access, after: Access) {
    && (forall id :: id in before.roles ==> id in after.roles && after.roles[id] == before.roles[id])
    && (forall id :: id in before.permissions ==>
          id in after.permissions && after.permissions[id] == before.permissions[id])
    && before.rolePermissions <= after.rolePermissions
  }

  /** Each role of `done` has its previous permissions and the given ones, every other role just
      its previous ones. */
  ghost predicate Allows(before: Access, after: Access, done: set<Role>) {
    && (forall role :: role in done ==> after.Allowed(role.name) == before.Allowed(role.name) + role.permissions)
    && (forall name :: name !in NamesOf(done) ==> after.Allowed(name) == before.Allowed(name))
  }

  /** The user has exactly the roles of `done`; other users have the rows they had. */
  ghost predicate Assigns(before: Access, after: Access, user: Id, done: set<Role>) {
    forall u, r :: (u, r) in after.userRoles <==>
      if u == user then r in after.roles && after.roles[r] in NamesOf(done) else (u, r) in before.userRoles
  }

  ghost predicate SameTables(before: Access, after: Access) {
    && after.roles == before.roles && after.permissions == before.permissions
    && after.rolePermissions == before.rolePermissions
  }

  /** The roles `done` of `user` have been written. */
  ghost predicate Synced(before: Access, after: Access, user: Id, done: set<Role>) {
    && after.Valid() && Extends(before, after)
    && after.Names() == before.Names() + NamesOf(done)
    && Allows(before, after, done)
    && Assigns(before, after, user, done)
    && (before.Present(done) ==> SameTables(before, after))
  }

  // ---- What a sync means ----

  /** Saving, then loading, gives exactly the given names, each with its previous permissions and
      the given ones. */
  lemma SyncedRolesAreRead(before: Access, after: Access, user: Id, given: set<Role>)
    requires Synced(before, after, user, given)
    ensures after.RolesOf(user)
         == set role | role in given :: Role(role.name, before.Allowed(role.name) + role.permissions)
  {
    var expected := set role | role in given :: Role(role.name, before.Allowed(role.name) + role.permissions);
    forall read | read in after.RolesOf(user)
      ensures read in expected
    {
      var x :| x in after.userRoles && x.0 == user && x.1 in after.roles
               && read == Role(after.roles[x.1], after.Allowed(after.roles[x.1]));
      assert (x.0, x.1) in after.userRoles;
    }
    forall role | role in given
      ensures Role(role.name, before.Allowed(role.name) + role.permissions) in after.RolesOf(user)
    {
      assert role.name in after.Names();
      var id :| id in after.roles && after.roles[id] == role.name;
      assert (user, id) in after.userRoles;
    }
  }

  /** Other users keep exactly the role rows they had, and every role they have keeps its name and
      at least its permissions. */
  lemma SyncedLeavesOthers(before: Access, after: Access, user: Id, given: set<Role>, other: Id)
    requires before.Valid() && Synced(before, after, user, given) && other != user
    ensures forall r :: (other, r) in after.userRoles <==> (other, r) in before.userRoles
    ensures forall name :: before.Allowed(name) <= after.Allowed(name)
    ensures forall role :: role in before.RolesOf(other) ==>
              Role(role.name, after.Allowed(role.name)) in after.RolesOf(other)
  {
    forall role | role in before.RolesOf(other)
      ensures Role(role.name, after.Allowed(role.name)) in after.RolesOf(other)
    {
      var x :| x in before.userRoles && x.0 == other && x.1 in before.roles && role.name == before.roles[x.1];
      assert (x.0, x.1) in after.userRoles;
    }
    forall name
      ensures before.Allowed(name) <= after.Allowed(name)
    {
      if name in NamesOf(given) {
        var role :| role in given && role.name == name;
      }
    }
  }

  lemma LoadedIsPresent(before: Access, user: Id)
    requires before.Valid()
    ensures before.Present(before.RolesOf(user)) && DistinctNames(before.RolesOf(user))
    ensures NamesOf(before.RolesOf(user))
         == set x | x in before.userRoles && x.0 == user && x.1 in before.roles :: before.roles[x.1]
  {
    var names := set x | x in before.userRoles && x.0 == user && x.1 in before.roles :: before.roles[x.1];
    forall name | name in names
      ensures name in NamesOf(before.RolesOf(user))
    {
      assert Role(name, before.Allowed(name)) in before.RolesOf(user);
    }
  }

  /** Saving a user that was just loaded changes nothing. */
  lemma SavingALoadedUserChangesNothing(before: Access, after: Access, user: Id)
    requires before.Valid() && Synced(before, after, user, before.RolesOf(user))
    ensures after == before
  {
    LoadedIsPresent(before, user);
    forall u, r
      ensures (u, r) in after.userRoles <==> (u, r) in before.userRoles
    {
      if u == user && (u, r) in after.userRoles {
        var x :| x in before.userRoles && x.0 == user && x.1 in before.roles && before.roles[x.1] == before.roles[r];
        assert x == (u, r);
      }
    }
    forall x
      ensures x in after.userRoles <==> x in before.userRoles
    {
      assert x == (x.0, x.1);
    }
  }

  // ---- One permission, one role ----

  /** The permissions `done` have been granted to role `id`. */
  ghost predicate Granted(before: Access, after: Access, id: Id, done: set<Permission>)
    requires id in before.roles
  {
    && after.Valid() && Extends(before, after)
    && after.roles == before.roles && after.userRoles == before.userRoles
    && (forall name :: after.Allowed(name) == before.Allowed(name) + if name == before.roles[id] then done else {})
    && (done <= before.Allowed(before.roles[id]) ==> after == before)
  }

  lemma GrantedNothing(before: Access, id: Id)
    requires before.Valid() && id in before.roles
    ensures Granted(before, before, id, {})
  {
    assert forall name :: before.Allowed(name) + (if name == before.roles[id] then {} else {}) == before.Allowed(name);
  }

  lemma GrantOne(
    before: Access, at: Access, id: Id, done: set<Permission>, permission: Permission, p: Id, after: Access)
    requires id in before.roles && Granted(before, at, id, done)
    requires p in at.permissions ==> at.permissions[p] == permission
    requires permission in at.permissions.Values ==> p in at.permissions
    requires after == at.(permissions := at.permissions[p := permission],
                          rolePermissions := at.rolePermissions + {(id, p)})
    ensures Granted(before, after, id, done + {permission})
  {
    forall name
      ensures after.Allowed(name) == before.Allowed(name) + if name == before.roles[id] then done + {permission} else {}
    {
      GrantedNames(at, id, permission, p, after, name);
    }
    GrantedIsValid(at, id, permission, p, after);
    if done + {permission} <= before.Allowed(before.roles[id]) {
      GrantedBefore(at, id, permission, p);
    }
  }

  lemma GrantedIsValid(at: Access, id: Id, permission: Permission, p: Id, after: Access)
    requires at.Valid() && id in at.roles
    requires p in at.permissions ==> at.permissions[p] == permission
    requires permission in at.permissions.Values ==> p in at.permissions
    requires after == at.(permissions := at.permissions[p := permission],
                          rolePermissions := at.rolePermissions + {(id, p)})
    ensures after.Valid() && Extends(at, after)
  {
  }

  /** A permission the role already has is granted by a row that is already there. */
  lemma GrantedBefore(at: Access, id: Id, permission: Permission, p: Id)
    requires at.Valid() && id in at.roles && permission in at.Allowed(at.roles[id])
    requires permission in at.permissions.Values ==> p in at.permissions
    requires p in at.permissions ==> at.permissions[p] == permission
    ensures (id, p) in at.rolePermissions && p in at.permissions
  {
    var x :| x in at.rolePermissions && x.0 in at.roles && at.roles[x.0] == at.roles[id]
             && x.1 in at.permissions && at.permissions[x.1] == permission;
    assert x == (id, p);
  }

  lemma GrantedNames(at: Access, id: Id, permission: Permission, p: Id, after: Access, name: string)
    requires at.Valid() && id in at.roles
    requires p in at.permissions ==> at.permissions[p] == permission
    requires after == at.(permissions := at.permissions[p := permission],
                          rolePermissions := at.rolePermissions + {(id, p)})
    ensures after.Allowed(name) == at.Allowed(name) + if name == at.roles[id] then {permission} else {}
  {
    var expected := at.Allowed(name) + if name == at.roles[id] then {permission} else {};
    forall q | q in expected
      ensures q in after.Allowed(name)
    {
      if q in at.Allowed(name) {
        var x :| x in at.rolePermissions && x.0 in at.roles && at.roles[x.0] == name && x.1 in at.permissions
                 && at.permissions[x.1] == q;
        assert x in after.rolePermissions && after.permissions[x.1] == q;
      } else {
        assert (id, p) in after.rolePermissions;
      }
    }
  }

  /** A name that is not used yet, standing for a fresh UUID. */
  method NewId(used: set<Id>) returns (id: Id)
    ensures id !in used
  {
    id := 0;
    var rest := used;
    while rest != {}
      invariant forall i :: i in used ==> i in rest || i < id
      decreases |rest|
    {
      var i :| i in rest;
      rest := rest - {i};
      id := if i < id then id else i + 1;
    }
  }

  /** `SELECT permission_id FROM role_permissions WHERE role_id = id`. */
  function PermissionIds(rolePermissions: set<(Id, Id)>, id: Id): (r: set<Id>)
    ensures forall p :: p in r <==> (id, p) in rolePermissions
  {
    var r := set x | x in rolePermissions && x.0 == id :: x.1;
    assert forall p :: (id, p) in rolePermissions ==> (id, p).1 in r;
    r
  }

  /** One element of a set that is being worked off. */
  lemma MoveOne<T>(done: set<T>, rest: set<T>, given: set<T>, x: T)
    requires done + rest == given && done !! rest && x in rest
    ensures (done + {x}) + (rest - {x}) == given && (done + {x}) !! (rest - {x})
  {
  }

  /** Role `id` has the ids it had, and besides only ids of permissions in `done`. */
  ghost predicate OnlyDoneAdded(a: Access, id: Id, granted: set<Id>, done: set<Permission>) {
    && (forall p :: p in granted ==> (id, p) in a.rolePermissions)
    && (forall p :: (id, p) in a.rolePermissions && p !in granted ==> p in a.permissions && a.permissions[p] in done)
  }

  lemma OneMoreAdded(
    at: Access, id: Id, granted: set<Id>, done: set<Permission>, permission: Permission, p: Id, after: Access)
    requires OnlyDoneAdded(at, id, granted, done)
    requires after == at.(permissions := at.permissions[p := permission],
                          rolePermissions := at.rolePermissions + {(id, p)})
    ensures OnlyDoneAdded(after, id, granted, done + {permission})
  {
  }

  // ---- All roles of a user ----

  lemma SyncedNothing(before: Access, at: Access, user: Id)
    requires before.Valid() && at == before.(userRoles := set x | x in before.userRoles && x.0 != user)
    ensures Synced(before, at, user, {})
  {
  }

  /** Role `role` was written under `id`. */
  ghost predicate Written(at: Access, after: Access, role: Role, id: Id) {
    && id in after.roles && after.roles == at.roles[id := role.name]
    && (id in at.roles <==> role.name in at.Names())
    && (id in at.roles ==> at.roles[id] == role.name)
    && Granted(at.(roles := after.roles), after, id, role.permissions)
  }

  lemma NewRoleAllowsNothing(at: Access, role: Role, id: Id, name: string)
    requires at.Valid()
    requires id in at.roles <==> role.name in at.Names()
    requires id in at.roles ==> at.roles[id] == role.name
    ensures at.(roles := at.roles[id := role.name]).Allowed(name) == at.Allowed(name)
  {
  }

  lemma ValuesOfUpdate(m: map<Id, string>, k: Id, v: string)
    requires k in m ==> m[k] == v
    ensures m[k := v].Values == m.Values + {v}
  {
    forall x | x in m.Values
      ensures x in m[k := v].Values
    {
      var i :| i in m && m[i] == x;
      assert m[k := v][i] == x;
    }
    assert m[k := v][k] == v;
  }

  lemma WrittenAllows(at: Access, after: Access, role: Role, id: Id)
    requires at.Valid() && Written(at, after, role, id)
    ensures forall name :: after.Allowed(name) == at.Allowed(name) + if name == role.name then role.permissions else {}
    ensures after.Names() == at.Names() + {role.name}
    ensures role.name in at.Names() && role.permissions <= at.Allowed(role.name) ==> after == at
  {
    ValuesOfUpdate(at.roles, id, role.name);
    forall name
      ensures after.Allowed(name) == at.Allowed(name) + if name == role.name then role.permissions else {}
    {
      NewRoleAllowsNothing(at, role, id, name);
    }
    NewRoleAllowsNothing(at, role, id, role.name);
  }

  lemma AssignedAllows(written: Access, userRoles: set<(Id, Id)>)
    ensures forall name :: written.(userRoles := userRoles).Allowed(name) == written.Allowed(name)
  {
  }

  lemma NamesOfOneMore(done: set<Role>, role: Role)
    ensures NamesOf(done + {role}) == NamesOf(done) + {role.name}
  {
  }

  lemma SyncOneAllows(before: Access, at: Access, written: Access, done: set<Role>, role: Role, id: Id)
    requires at.Valid() && Allows(before, at, done) && Written(at, written, role, id) && role.name !in NamesOf(done)
    ensures Allows(before, written, done + {role})
  {
    NamesOfOneMore(done, role);
    WrittenAllows(at, written, role, id);
  }

  lemma SyncOnePresent(before: Access, at: Access, written: Access, user: Id, done: set<Role>, role: Role, id: Id)
    requires Synced(before, at, user, done) && Written(at, written, role, id) && role.name !in NamesOf(done)
    requires before.Present(done + {role})
    ensures SameTables(before, written)
  {
    WrittenAllows(at, written, role, id);
    assert role in done + {role};
  }

  lemma SyncOneAssigns(before: Access, at: Access, written: Access, user: Id, done: set<Role>, role: Role, id: Id)
    requires at.Valid() && Assigns(before, at, user, done) && Written(at, written, role, id)
    ensures Assigns(before, written.(userRoles := written.userRoles + {(user, id)}), user, done + {role})
  {
    NamesOfOneMore(done, role);
  }

  lemma SyncOneRows(before: Access, at: Access, written: Access, user: Id, role: Role, id: Id)
    requires at.Valid() && Extends(before, at) && Written(at, written, role, id)
    ensures
      var after := written.(userRoles := written.userRoles + {(user, id)});
      && after.Valid() && Extends(before, after) && after.Names() == at.Names() + {role.name}
  {
    WrittenAllows(at, written, role, id);
  }

  lemma SyncOne(before: Access, at: Access, written: Access, user: Id, done: set<Role>, role: Role, id: Id)
    requires Synced(before, at, user, done) && Written(at, written, role, id) && role.name !in NamesOf(done)
    ensures Synced(before, written.(userRoles := written.userRoles + {(user, id)}), user, done + {role})
  {
    NamesOfOneMore(done, role);
    SyncOneRows(before, at, written, user, role, id);
    SyncOneAllows(before, at, written, done, role, id);
    AssignedAllows(written, written.userRoles + {(user, id)});
    SyncOneAssigns(before, at, written, user, done, role, id);
    if before.Present(done + {role}) {
      SyncOnePresent(before, at, written, user, done, role, id);
    }
  }

  lemma StillDistinct(done: set<Role>, role: Role)
    requires DistinctNames(done) && role.name !in NamesOf(done)
    ensures DistinctNames(done + {role})
  {
  }

  // ---- Reading back ----

  lemma AllowedByRow(a: Access, row: Id)
    requires a.Valid() && row in a.roles
    ensures (set p | p in PermissionIds(a.rolePermissions, row) && p in a.permissions :: a.permissions[p])
         == a.Allowed(a.roles[row])
  {
  }

  lemma LoadedRows(a: Access, user: Id, rows: set<Id>, loaded: set<Role>)
    requires a.Valid() && rows == set x | x in a.userRoles && x.0 == user :: x.1
    requires loaded == set r | r in rows && r in a.roles :: Role(a.roles[r], a.Allowed(a.roles[r]))
    ensures loaded == a.RolesOf(user)
  {
  }

  class UserRepository {
    var roles: map<Id, string>
    var permissions: map<Id, Permission>
    var userRoles: set<(Id, Id)>
    var rolePermissions: set<(Id, Id)>

    function Value(): Access
      reads this
    {
      Access(roles, permissions, userRoles, rolePermissions)
    }

    constructor (a: Access)
      ensures Value() == a
    {
      roles, permissions, userRoles, rolePermissions := a.roles, a.permissions, a.userRoles, a.rolePermissions;
    }

    /** `_get_or_create_permission`: the row of a permission, added only if there is none. */
    method GetOrCreatePermission(permission: Permission) returns (id: Id)
      requires Value().Valid()
      modifies this`permissions
      ensures Value().Valid() && permissions == old(permissions)[id := permission]
      ensures id in old(permissions) <==> permission in old(permissions).Values
      ensures id in old(permissions) ==> old(permissions)[id] == permission
    {
      if permission in permissions.Values {
        id :| id in permissions && permissions[id] == permission;
        return;
      }
      id := NewId(permissions.Keys);
      permissions := permissions[id := permission];
    }

    /** One iteration of the loop of `_get_or_create_role`: an id among `granted` is not inserted
        again, and no other id clashes with a row that is already there. */
    method GrantPermission(
      id: Id, permission: Permission, granted: set<Id>, ghost before: Access, ghost done: set<Permission>)
      requires id in before.roles && Granted(before, Value(), id, done)
      requires OnlyDoneAdded(Value(), id, granted, done) && permission !in done
      modifies this`permissions, this`rolePermissions
      ensures Granted(before, Value(), id, done + {permission})
      ensures OnlyDoneAdded(Value(), id, granted, done + {permission})
    {
      ghost var at := Value();
      var p := GetOrCreatePermission(permission);
      if p !in granted {
        assert (id, p) !in rolePermissions;
        rolePermissions := rolePermissions + {(id, p)};
      }
      GrantOne(before, at, id, done, permission, p, Value());
      OneMoreAdded(at, id, granted, done, permission, p, Value());
    }

    /** The loop of `_get_or_create_role`. */
    method Grant(id: Id, given: set<Permission>)
      requires Value().Valid() && id in roles
      modifies this`permissions, this`rolePermissions
      ensures Granted(old(Value()), Value(), id, given)
    {
      ghost var before := Value();
      ghost var done: set<Permission> := {};
      var granted := PermissionIds(rolePermissions, id);
      var rest := given;
      GrantedNothing(before, id);
      while rest != {}
        invariant done + rest == given && done !! rest
        invariant Granted(before, Value(), id, done) && OnlyDoneAdded(Value(), id, granted, done)
        decreases |rest|
      {
        var permission :| permission in rest;
        GrantPermission(id, permission, granted, before, done);
        MoveOne(done, rest, given, permission);
        done, rest := done + {permission}, rest - {permission};
      }
      assert done == given;
    }

    /** `_get_or_create_role`: the row of a role, added only if its name is new, with its previous
        permissions and the given ones. */
    method GetOrCreateRole(role: Role) returns (id: Id)
      requires Value().Valid()
      modifies this`roles, this`permissions, this`rolePermissions
      ensures Written(old(Value()), Value(), role, id)
    {
      if role.name in roles.Values {
        id :| id in roles && roles[id] == role.name;
      } else {
        id := NewId(roles.Keys);
        roles := roles[id := role.name];
      }
      Grant(id, role.permissions);
    }
  
    /** One iteration of the loop of `_sync_roles`: a second role of the same name clashes on the
        primary key of `user_roles`. */
    method SyncRole(user: Id, role: Role, ghost before: Access, ghost done: set<Role>) returns (r: Result<()>)
      requires Synced(before, Value(), user, done)
      modifies this
      ensures r.Ok? <==> role.name !in NamesOf(done)
      ensures r.Ok? ==> Synced(before, Value(), user, done + {role})
    {
      ghost var at := Value();
      var id := GetOrCreateRole(role);
      if (user, id) in userRoles {
        return Err(DATABASE_CONFLICT);
      }
      ghost var written := Value();
      userRoles := userRoles + {(user, id)};
      SyncOne(before, at, written, user, done, role, id);
      return Ok(());
    }

    /** `_sync_roles`: the user's rows are replaced by the given roles, unless two of them have the
        same name. */
    method SyncRoles(user: Id, given: set<Role>) returns (r: Result<()>)
      requires Value().Valid()
      modifies this
      ensures r.Ok? <==> DistinctNames(given)
      ensures r.Ok? ==> Synced(old(Value()), Value(), user, given)
    {
      ghost var before := Value();
      ghost var done: set<Role> := {};
      userRoles := set x | x in userRoles && x.0 != user;
      SyncedNothing(before, Value(), user);
      var rest := given;
      while rest != {}
        invariant done + rest == given && done !! rest && DistinctNames(done)
        invariant Synced(before, Value(), user, done)
        decreases |rest|
      {
        var role :| role in rest;
        r := SyncRole(user, role, before, done);
        if r.Err? {
          return;
        }
        StillDistinct(done, role);
        MoveOne(done, rest, given, role);
        done, rest := done + {role}, rest - {role};
      }
      assert done == given;
      return Ok(());
    }

    /** `_load_roles`: the join that reads a user's roles back. */
    method LoadRoles(user: Id) returns (loaded: set<Role>)
      requires Value().Valid()
      ensures loaded == Value().RolesOf(user)
    {
      loaded := {};
      var rows := set x | x in userRoles && x.0 == user :: x.1;
      var rest := rows;
      while rest != {}
        invariant rest <= rows
        invariant loaded == set r | r in rows - rest && r in roles :: Role(roles[r], Value().Allowed(roles[r]))
        decreases |rest|
      {
        var row :| row in rest;
        var allowed := set p | p in PermissionIds(rolePermissions, row) && p in permissions :: permissions[p];
        AllowedByRow(Value(), row);
        loaded := loaded + {Role(roles[row], allowed)};
        rest := rest - {row};
      }
      LoadedRows(Value(), user, rows, loaded);
    }
  }
}
