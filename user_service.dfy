/** Users: creation with a default role, updates in which only an admin (or
    an internal caller) may change a role, and deletion of anyone but an
    admin. Passwords are stored as argon2 hashes. */
module Users {
  import opened Common
  import opened Entities

  datatype UserError =
    | UserNotFound(id: nat)
    | RoleNotFound(name: string)
    | AdminNotDeletable
    | ConstraintViolation
  {
    function Exception(): HttpException
    {
      match this
      case UserNotFound(_) => NotFound
      case RoleNotFound(_) => InternalServerError
      case AdminNotDeletable => Forbidden
      case ConstraintViolation => InternalServerError
    }
  }

  datatype CreateUserDto = CreateUserDto(
    nombre: string,
    apellido: string,
    email: string,
    telefono: Option<string>,
    password: string,
    role: Option<string>)

  datatype UpdateUserDto = UpdateUserDto(
    nombre: Option<string>,
    apellido: Option<string>,
    email: Option<string>,
    telefono: Option<string>,
    password: Option<string>,
    role: Option<string>)

  /** How a password given in a request is stored: a non-empty one is
      hashed; an empty one is falsy, skips the hash and is stored as given. */
  function StoredSecret(password: string): (s: Secret)
    ensures password != "" <==> s.Argon2Hash?
    ensures s.Argon2Hash? ==> s.of == password
    ensures s.Plain? ==> s.text == ""
  {
    if password != "" then Argon2Hash(password) else Plain(password)
  }

  /** The role a new user asks for: `dto.role` when truthy, CLIENT otherwise. */
  function RequestedRole(dto: CreateUserDto): (role: string)
    ensures IsTruthyString(dto.role) ==> role == dto.role.value
    ensures !IsTruthyString(dto.role) ==> role == CLIENT
    ensures role != ""
  {
    if IsTruthyString(dto.role) then dto.role.value else CLIENT
  }

  /** `create(dto)` on the table: the role must exist, and the stored user
      carries it and the hashed password. */
  function CreateSpec(roles: set<string>, dto: CreateUserDto): (r: Result<User, UserError>)
    ensures r.Ok? <==> RequestedRole(dto) in roles
    ensures r.Err? ==> r.error == RoleNotFound(RequestedRole(dto))
    ensures r.Ok? ==>
      && r.value.role == RequestedRole(dto)
      && r.value.password == StoredSecret(dto.password)
      && r.value.nombre == dto.nombre && r.value.apellido == dto.apellido
      && r.value.email == dto.email && r.value.telefono == dto.telefono
  {
    var role := RequestedRole(dto);
    if role !in roles then Err(RoleNotFound(role))
    else Ok(User(dto.nombre, dto.apellido, dto.email, dto.telefono, StoredSecret(dto.password), role))
  }

  /** The role an update may still set once the caller is known: a caller
      whose role is not admin has the role removed from the request; an
      admin, or a call without a current user, keeps it. */
  function PermittedRole(dto: UpdateUserDto, callerRole: Option<string>): (role: Option<string>)
    ensures callerRole.Some? && callerRole.value != ADMIN ==> role.None?
    ensures (callerRole.None? || callerRole.value == ADMIN) ==> role == dto.role
  {
    if callerRole.Some? && callerRole.value != ADMIN then None else dto.role
  }

  /** `Object.assign(user, dto)` after the role has been handled: every field
      the request names replaces the stored one, the password as stored. */
  function AssignFields(user: User, dto: UpdateUserDto): (u: User)
    ensures u.role == user.role
    ensures dto.password.Some? ==> u.password == StoredSecret(dto.password.value)
    ensures dto.password.None? ==> u.password == user.password
    ensures dto.email.Some? ==> u.email == dto.email.value
    ensures dto.email.None? ==> u.email == user.email
    ensures dto.nombre.Some? ==> u.nombre == dto.nombre.value
    ensures dto.nombre.None? ==> u.nombre == user.nombre
    ensures dto.apellido.Some? ==> u.apellido == dto.apellido.value
    ensures dto.apellido.None? ==> u.apellido == user.apellido
    ensures dto.telefono.Some? ==> u.telefono == dto.telefono
    ensures dto.telefono.None? ==> u.telefono == user.telefono
  {
    user.(nombre := dto.nombre.GetOr(user.nombre),
          apellido := dto.apellido.GetOr(user.apellido),
          email := dto.email.GetOr(user.email),
          telefono := if dto.telefono.Some? then dto.telefono else user.telefono,
          password := if dto.password.Some? then StoredSecret(dto.password.value) else user.password)
  }

  /** `update(id, dto, currentUser)` on the table: a missing user is not
      found; a truthy permitted role must exist and replaces the user's role;
      the other named fields are assigned. */
  function UpdateSpec(users: map<nat, User>, roles: set<string>, id: nat, dto: UpdateUserDto, callerRole: Option<string>)
    : (r: Result<User, UserError>)
    ensures id !in users <==> r == Err(UserNotFound(id))
    ensures r.Ok? ==> id in users
    ensures r.Ok? && !IsTruthyString(PermittedRole(dto, callerRole)) ==> r.value.role == users[id].role
    ensures r.Ok? && IsTruthyString(PermittedRole(dto, callerRole)) ==> r.value.role == dto.role.value
    ensures id in users ==>
      (r.Err? <==> IsTruthyString(PermittedRole(dto, callerRole)) && PermittedRole(dto, callerRole).value !in roles)
    ensures r.Ok? ==> r.value.(role := users[id].role) == AssignFields(users[id], dto)
  {
    if id !in users then Err(UserNotFound(id))
    else
      var role := PermittedRole(dto, callerRole);
      if IsTruthyString(role) && role.value !in roles then Err(RoleNotFound(role.value))
      else
        var withFields := AssignFields(users[id], dto);
        if IsTruthyString(role) then Ok(withFields.(role := role.value)) else Ok(withFields)
  }

  /** A caller that is not an admin never changes anyone's role, and cannot
      make an update fail over a role. */
  lemma NonAdminKeepsRole(users: map<nat, User>, roles: set<string>, id: nat, dto: UpdateUserDto, callerRole: Option<string>)
    requires id in users
    requires callerRole.Some? && callerRole.value != ADMIN
    ensures UpdateSpec(users, roles, id, dto, callerRole).Ok?
    ensures UpdateSpec(users, roles, id, dto, callerRole).value.role == users[id].role
  {
  }

  /** A non-empty password given to create or update is stored only as its
      hash. */
  lemma PasswordsStoredHashed(users: map<nat, User>, roles: set<string>, id: nat, dto: UpdateUserDto,
                              callerRole: Option<string>, created: CreateUserDto)
    ensures CreateSpec(roles, created).Ok? && created.password != "" ==>
      CreateSpec(roles, created).value.password == Argon2Hash(created.password)
    ensures UpdateSpec(users, roles, id, dto, callerRole).Ok? && IsTruthyString(dto.password) ==>
      UpdateSpec(users, roles, id, dto, callerRole).value.password == Argon2Hash(dto.password.value)
  {
  }

  /** Whether the database refuses to delete user `id`: an invoice refers to
      the user, or to one of the user's payments, which the delete would
      remove by cascade. Neither reference of an invoice cascades. */
  predicate DeleteBlocked(payments: map<nat, Payment>, invoices: map<nat, Invoice>, id: nat)
  {
    exists i :: i in invoices &&
      (invoices[i].userId == id
       || (invoices[i].paymentId in payments && payments[invoices[i].paymentId].userId == id))
  }

  /** `delete(id)` on the tables: a missing user is not found, an admin is
      refused, and otherwise the user goes with all of the user's payments,
      unless an invoice still refers to either. The result is the payments
      table after the delete. */
  function DeleteSpec(users: map<nat, User>, payments: map<nat, Payment>, invoices: map<nat, Invoice>, id: nat)
    : (r: Result<map<nat, Payment>, UserError>)
    ensures id !in users ==> r == Err(UserNotFound(id))
    ensures id in users && users[id].role == ADMIN ==> r == Err(AdminNotDeletable)
    ensures r.Ok? <==> id in users && users[id].role != ADMIN && !DeleteBlocked(payments, invoices, id)
    ensures r.Ok? ==> forall p :: p in r.value <==> p in payments && payments[p].userId != id
    ensures r.Ok? ==> forall p :: p in r.value ==> r.value[p] == payments[p]
    ensures r.Ok? ==> forall i :: i in invoices ==>
      && invoices[i].userId != id
      && (invoices[i].paymentId in payments ==> invoices[i].paymentId in r.value)
  {
    if id !in users then Err(UserNotFound(id))
    else if users[id].role == ADMIN then Err(AdminNotDeletable)
    else if DeleteBlocked(payments, invoices, id) then Err(ConstraintViolation)
    else Ok(map p | p in payments && payments[p].userId != id :: payments[p])
  }

  /** The user service over the shared database; `roles` stands for the
      role service's lookup by name. */
  class UserService {
    const db: Database

    constructor (db: Database)
      ensures this.db == db
    {
      this.db := db;
    }

    /** `findOne(id)`. */
    function FindOne(id: nat): (r: Result<User, UserError>)
      reads db
      ensures r.Ok? <==> id in db.users
      ensures r.Ok? ==> r.value == db.users[id]
      ensures r.Err? ==> r.error.Exception() == NotFound
    {
      if id in db.users then Ok(db.users[id]) else Err(UserNotFound(id))
    }

    /** `create(dto)`: stores the new user under a fresh id, or nothing when
        the role does not exist. */
    method Create(dto: CreateUserDto) returns (r: Result<nat, UserError>)
      requires db.Valid()
      modifies db`users, db`nextUserId
      ensures db.Valid()
      ensures CreateSpec(db.roles, dto).Err? ==>
        && r == Err(CreateSpec(db.roles, dto).error)
        && db.users == old(db.users) && db.nextUserId == old(db.nextUserId)
      ensures CreateSpec(db.roles, dto).Ok? ==>
        && r == Ok(old(db.nextUserId)) && r.value !in old(db.users)
        && db.users == old(db.users)[r.value := CreateSpec(db.roles, dto).value]
        && db.nextUserId == r.value + 1
    {
      var roleName := if IsTruthyString(dto.role) then dto.role.value else CLIENT;
      if roleName !in db.roles {
        return Err(RoleNotFound(roleName));
      }
      var user := User(dto.nombre, dto.apellido, dto.email, dto.telefono, Plain(dto.password), roleName);
      if dto.password != "" {
        user := user.(password := Argon2Hash(dto.password));
      }
      var id := db.nextUserId;
      db.users := db.users[id := user];
      db.nextUserId := id + 1;
      r := Ok(id);
    }

    /** `update(id, dto, currentUser)`, where `callerRole` is the current
        user's role name, or `None` when there is no current user. */
    method Update(id: nat, dto: UpdateUserDto, callerRole: Option<string>) returns (r: Result<User, UserError>)
      requires db.Valid()
      modifies db`users
      ensures db.Valid()
      ensures r == UpdateSpec(old(db.users), db.roles, id, dto, callerRole)
      ensures db.users == if r.Ok? then old(db.users)[id := r.value] else old(db.users)
    {
      if id !in db.users {
        return Err(UserNotFound(id));
      }
      var user := db.users[id];
      var request := dto;
      if callerRole.Some? && callerRole.value != ADMIN {
        request := request.(role := None);
      }
      var password := if request.password.Some? then Some(StoredSecret(request.password.value)) else None;
      if IsTruthyString(request.role) {
        if request.role.value !in db.roles {
          return Err(RoleNotFound(request.role.value));
        }
        user := user.(role := request.role.value);
      }
      user := user.(nombre := request.nombre.GetOr(user.nombre),
                    apellido := request.apellido.GetOr(user.apellido),
                    email := request.email.GetOr(user.email));
      if request.telefono.Some? {
        user := user.(telefono := request.telefono);
      }
      if password.Some? {
        user := user.(password := password.value);
      }
      db.users := db.users[id := user];
      r := Ok(user);
    }

    /** `delete(id)`: refuses an admin, otherwise removes that user and, by
        cascade, the user's payments, unless an invoice still refers to them. */
    method Delete(id: nat) returns (r: Result<(), UserError>)
      requires db.Valid()
      modifies db`users, db`payments
      ensures db.Valid()
      ensures var d := DeleteSpec(old(db.users), old(db.payments), db.invoices, id);
        && (d.Err? ==> r == Err(d.error) && db.users == old(db.users) && db.payments == old(db.payments))
        && (d.Ok? ==> r == Ok(()) && db.users == old(db.users) - {id} && db.payments == d.value)
    {
      if id !in db.users {
        return Err(UserNotFound(id));
      }
      if db.users[id].role == ADMIN {
        return Err(AdminNotDeletable);
      }
      if DeleteBlocked(db.payments, db.invoices, id) {
        return Err(ConstraintViolation);
      }
      db.payments := map p | p in db.payments && db.payments[p].userId != id :: db.payments[p];
      db.users := db.users - {id};
      r := Ok(());
    }
  }
}
