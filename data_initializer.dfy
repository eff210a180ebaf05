/** The start-up runner: makes sure the ADMIN role (allowed every view)
    and the USER role (allowed none) exist, refreshes ADMIN's views on every
    start, and makes sure a user "admin" exists and holds ADMIN. Fresh
    store ids are inputs; the view catalogue is the key set of the views
    map, given. */
module Bootstrap {
  import opened Common
  import opened Entities
  import opened Repositories

  const AdminRole := "ADMIN"
  const UserRole := "USER"
  const AdminEmail := "admin"
  const AdminPassword := "admin"

  /** createRoleIfNotFound on a role store. */
  function RolesAfterCreate(docs: map<string, Role>, name: string, views: set<string>, newId: string): (r: map<string, Role>)
    requires RoleValid(docs)
    requires !NameTaken(docs, name) ==> FreshObjectId(newId, docs.Keys)
    ensures RoleValid(r) && NameTaken(r, name)
    ensures docs.Keys <= r.Keys
    ensures !NameTaken(docs, name) || name == AdminRole ==> RoleByName(r, name).value.allowedViews == Some(views)
    ensures NameTaken(docs, name) ==> r.Keys == docs.Keys && RoleByName(r, name).value.id == RoleByName(docs, name).value.id
    ensures NameTaken(docs, name) && name != AdminRole ==> r == docs
    ensures forall n :: n != name ==> (NameTaken(r, n) <==> NameTaken(docs, n)) && RoleByName(r, n) == RoleByName(docs, n)
  {
    if !NameTaken(docs, name) then
      docs[newId := Role(Some(newId), Some(name), Some(views))]
    else if name == AdminRole then
      var role := RoleByName(docs, name).value;
      docs[role.id.value := role.(allowedViews := Some(views))]
    else docs
  }

  /** The admin account before the runner decides: the stored one, or a
      new one carrying the encoded default password and no roles. */
  function AdminCandidate(users: map<string, UserDoc>, encoded: string): (u: UserDoc)
    requires UserValid(users)
    ensures u.email == Some(AdminEmail)
    ensures EmailTaken(users, Some(AdminEmail)) ==> u == UserByEmail(users, Some(AdminEmail)).value
    ensures !EmailTaken(users, Some(AdminEmail)) ==> u == UserDoc(None, Some(AdminEmail), Some(encoded), None, None)
  {
    if EmailTaken(users, Some(AdminEmail)) then UserByEmail(users, Some(AdminEmail)).value
    else UserDoc(None, Some(AdminEmail), Some(encoded), None, None)
  }

  function RolesOrEmpty(roles: Option<set<string>>): set<string>
  {
    if roles.Some? then roles.value else {}
  }

  /** The user store after the admin step. */
  function UsersAfterAdmin(users: map<string, UserDoc>, encoded: string, newId: string): (r: map<string, UserDoc>)
    requires UserValid(users)
    requires !EmailTaken(users, Some(AdminEmail)) ==> FreshObjectId(newId, users.Keys)
    ensures UserValid(r) && EmailTaken(r, Some(AdminEmail))
    ensures var admin := UserByEmail(r, Some(AdminEmail)).value;
            admin.roles.Some? && AdminRole in admin.roles.value &&
            RolesOrEmpty(AdminCandidate(users, encoded).roles) <= admin.roles.value
    ensures !EmailTaken(users, Some(AdminEmail)) ==>
              r == users[newId := UserDoc(Some(newId), Some(AdminEmail), Some(encoded), Some({AdminRole}), None)]
    ensures forall k :: k in users && users[k].email != Some(AdminEmail) ==> k in r && r[k] == users[k]
  {
    var admin := AdminCandidate(users, encoded);
    var roles := RolesOrEmpty(admin.roles);
    if AdminRole !in roles then
      var id := if admin.id.Some? then admin.id.value else newId;
      var saved := admin.(id := Some(id), roles := Some(roles + {AdminRole}));
      var r := users[id := saved];
      assert !EmailTaken(users, Some(AdminEmail)) ==> roles + {AdminRole} == {AdminRole};
      assert r[id].email == Some(AdminEmail);
      r
    else users
  }

  /** The whole runner on both stores. */
  function Initialized(roles: map<string, Role>, users: map<string, UserDoc>, allViews: set<string>,
                       encoded: string, adminRoleId: string, userRoleId: string, adminId: string)
    : (r: (map<string, Role>, map<string, UserDoc>))
    requires RoleValid(roles) && UserValid(users)
    requires !NameTaken(roles, AdminRole) ==> FreshObjectId(adminRoleId, roles.Keys)
    requires !NameTaken(roles, UserRole) ==> FreshObjectId(userRoleId, roles.Keys) && userRoleId != adminRoleId
    requires !EmailTaken(users, Some(AdminEmail)) ==> FreshObjectId(adminId, users.Keys)
    ensures RoleValid(r.0) && UserValid(r.1)
    ensures NameTaken(r.0, AdminRole) && NameTaken(r.0, UserRole)
    ensures RoleByName(r.0, AdminRole).value.allowedViews == Some(allViews)
    ensures NameTaken(roles, UserRole) ==> RoleByName(r.0, UserRole) == RoleByName(roles, UserRole)
    ensures !NameTaken(roles, UserRole) ==> RoleByName(r.0, UserRole).value.allowedViews == Some({})
    ensures EmailTaken(r.1, Some(AdminEmail)) &&
            AdminRole in RolesOrEmpty(UserByEmail(r.1, Some(AdminEmail)).value.roles)
  {
    var afterAdmin := RolesAfterCreate(roles, AdminRole, allViews, adminRoleId);
    var afterUser := RolesAfterCreate(afterAdmin, UserRole, {}, userRoleId);
    (afterUser, UsersAfterAdmin(users, encoded, adminId))
  }

  /** A second run of the role step changes nothing. */
  lemma RolesAfterCreateIdempotent(docs: map<string, Role>, name: string, views: set<string>, newId: string, otherId: string)
    requires RoleValid(docs)
    requires !NameTaken(docs, name) ==> FreshObjectId(newId, docs.Keys)
    ensures var once := RolesAfterCreate(docs, name, views, newId);
            RolesAfterCreate(once, name, views, otherId) == once
  {
    var once := RolesAfterCreate(docs, name, views, newId);
    if name == AdminRole {
      var role := RoleByName(once, name).value;
      assert once[role.id.value := role.(allowedViews := Some(views))] == once;
    }
  }

  /** A second run of the admin step saves nothing. */
  lemma UsersAfterAdminIdempotent(users: map<string, UserDoc>, encoded: string, newId: string, otherId: string)
    requires UserValid(users)
    requires !EmailTaken(users, Some(AdminEmail)) ==> FreshObjectId(newId, users.Keys)
    ensures var once := UsersAfterAdmin(users, encoded, newId);
            UsersAfterAdmin(once, encoded, otherId) == once
  {
  }

  class DataInitializer {
    const userRepository: UserRepository
    const roleRepository: RoleRepository
    const passwordEncoder: string -> string
    /** The keys of ViewService.getAllViews(): every routed view class. */
    const allViews: set<string>

    constructor (userRepository: UserRepository, roleRepository: RoleRepository,
                 passwordEncoder: string -> string, allViews: set<string>)
      ensures this.userRepository == userRepository && this.roleRepository == roleRepository
      ensures this.passwordEncoder == passwordEncoder && this.allViews == allViews
    {
      this.userRepository, this.roleRepository := userRepository, roleRepository;
      this.passwordEncoder, this.allViews := passwordEncoder, allViews;
    }

    /** The runner body. */
    method InitializeData(adminRoleId: string, userRoleId: string, adminId: string)
      requires userRepository.Valid() && roleRepository.Valid()
      requires !NameTaken(roleRepository.docs, AdminRole) ==> FreshObjectId(adminRoleId, roleRepository.docs.Keys)
      requires !NameTaken(roleRepository.docs, UserRole) ==>
                 FreshObjectId(userRoleId, roleRepository.docs.Keys) && userRoleId != adminRoleId
      requires !EmailTaken(userRepository.docs, Some(AdminEmail)) ==> FreshObjectId(adminId, userRepository.docs.Keys)
      modifies userRepository, roleRepository
      ensures userRepository.Valid() && roleRepository.Valid()
      ensures (roleRepository.docs, userRepository.docs) ==
                Initialized(old(roleRepository.docs), old(userRepository.docs), allViews,
                            passwordEncoder(AdminPassword), adminRoleId, userRoleId, adminId)
    {
      CreateRoleIfNotFound(AdminRole, allViews, adminRoleId);
      CreateRoleIfNotFound(UserRole, {}, userRoleId);
      EnsureAdminUser(adminId);
    }

    /** The admin step: the stored "admin" user, or a new one with the
        encoded default password, is given ADMIN and saved unless it
        already holds it. */
    method EnsureAdminUser(adminId: string)
      requires userRepository.Valid()
      requires !EmailTaken(userRepository.docs, Some(AdminEmail)) ==> FreshObjectId(adminId, userRepository.docs.Keys)
      modifies userRepository
      ensures userRepository.Valid()
      ensures userRepository.docs == UsersAfterAdmin(old(userRepository.docs), passwordEncoder(AdminPassword), adminId)
    {
      var present := userRepository.ExistsByEmail(Some(AdminEmail));
      var admin: User;
      if present {
        var found := userRepository.FindByEmail(Some(AdminEmail));
        admin := found.value;
      } else {
        admin := new User();
        admin.SetEmail(Some(AdminEmail));
        admin.SetPassword(Some(passwordEncoder(AdminPassword)));
      }
      assert admin.Doc() == AdminCandidate(old(userRepository.docs), passwordEncoder(AdminPassword));
      var roles := if admin.roles.Some? then admin.roles.value else {};
      if AdminRole !in roles {
        roles := roles + {AdminRole};
        admin.SetRoles(Some(roles));
        var _ := userRepository.Save(admin, adminId);
      } else if !present {
        assert false;
      }
    }

    /** Creates the role with `allowedViews` when no role has that name;
        ADMIN, when present, gets `allowedViews` again. */
    method CreateRoleIfNotFound(name: string, allowedViews: set<string>, newId: string)
      requires roleRepository.Valid()
      requires !NameTaken(roleRepository.docs, name) ==> FreshObjectId(newId, roleRepository.docs.Keys)
      modifies roleRepository
      ensures roleRepository.Valid()
      ensures roleRepository.docs == RolesAfterCreate(old(roleRepository.docs), name, allowedViews, newId)
    {
      var present := roleRepository.ExistsByName(name);
      if !present {
        var role := Role(None, Some(name), Some(allowedViews));
        var _ := roleRepository.Save(role, newId);
      } else if name == AdminRole {
        var found := roleRepository.FindByName(AdminRole);
        var adminRole := found.value.(allowedViews := Some(allowedViews));
        var _ := roleRepository.Save(adminRole, newId);
      }
    }
  }
}
