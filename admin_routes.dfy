/**
 * The user-management routes of server/src/routes/admin.js, reached only through
 * `requireAdmin`: create a user, update one, soft-delete one into deleted_users, and flip
 * one's active flag. `actor` is the verified payload of the admin making the request.
 * Server errors (status 500) are not modelled.
 */
module AdminRoutes {
  import opened Wrappers
  import opened Auth
  import opened Users

  const Ok: int := 200
  const Created: int := 201
  const BadRequest: int := 400
  const NotFound: int := 404

  /** The body of a create request. */
  datatype NewUser = NewUser(firstName: Option<string>, middleInitial: Option<string>, lastName: Option<string>,
                             username: Option<string>, email: Option<string>, password: Option<string>,
                             address: Address, role: Option<string>)

  /** The body of an update request. */
  datatype UserEdit = UserEdit(firstName: Option<string>, middleInitial: Option<string>, lastName: Option<string>,
                               username: Option<string>, email: Option<string>, address: Address,
                               role: Option<string>)

  /** The roles an admin may hand out. */
  predicate AllowedRole(role: string) { role == "user" || role == "admin" }

  /** A role field is refused when it is given, non-empty and not an allowed role. */
  predicate RoleRefused(role: Option<string>) { Truthy(role) && !AllowedRole(role.value) }

  /** `y` is what `x || null` stores: a present non-empty text as it is, anything else as NULL. */
  predicate StoredOrNull(x: Option<string>, y: Option<string>) {
    (Truthy(x) ==> y == x) && (!Truthy(x) ==> y.None?)
  }

  /** `x || null` on every address column. */
  function AddressOrNull(a: Address): (r: Address)
    ensures StoredOrNull(a.contactNumber, r.contactNumber) && StoredOrNull(a.countryCode, r.countryCode)
    ensures StoredOrNull(a.region, r.region) && StoredOrNull(a.country, r.country)
    ensures StoredOrNull(a.city, r.city) && StoredOrNull(a.streetAddress, r.streetAddress)
    ensures StoredOrNull(a.postalCode, r.postalCode)
  {
    Address(OrNull(a.contactNumber), OrNull(a.countryCode), OrNull(a.region), OrNull(a.country), OrNull(a.city),
            OrNull(a.streetAddress), OrNull(a.postalCode))
  }

  /** The row `INSERT INTO users` writes: active, with the given role or "user" by default. */
  function CreatedRow(body: NewUser, passwordHash: string): (r: UserRow)
    requires !RoleRefused(body.role)
    ensures r.isActive && r.deactivatedUntil.None?
    ensures r.role.Some? && AllowedRole(r.role.value)
    ensures !Truthy(body.role) ==> r.role == Some("user")
    ensures r.username == body.username && r.email == body.email && r.passwordHash == passwordHash
  {
    UserRow(body.firstName, OrNull(body.middleInitial), body.lastName, body.username, body.email, passwordHash,
            AddressOrNull(body.address), Some(OrElse(body.role, "user")), true, None)
  }

  /** First name, last name, username, email and password must all be given and non-empty. */
  predicate MissingRequired(body: NewUser)
    ensures !MissingRequired(body) ==> body.username.Some? && body.email.Some? && body.password.Some?
  {
    !Truthy(body.firstName) || !Truthy(body.lastName) || !Truthy(body.username) || !Truthy(body.email)
    || !Truthy(body.password)
  }

  /** Why a create request is refused, if it is. */
  predicate CreateRefused(users: map<nat, UserRow>, body: NewUser) {
    MissingRequired(body) || RoleRefused(body.role)
    || UsernameTaken(users, body.username.value, None) || EmailTaken(users, body.email.value, None)
  }

  /**
   * `POST /users`: 400 without first name, last name, username, email and password, with a
   * role other than user or admin, or with a username or email some user already has;
   * otherwise the new row is inserted under the next id and 201 returned with that id.
   */
  method CreateUser(db: UserTable, body: NewUser, passwordHash: string) returns (status: int, userId: Option<nat>)
    requires db.Valid()
    modifies db
    ensures db.Valid()
    ensures status == Created <==> !CreateRefused(old(db.users), body)
    ensures status != Created ==>
      status == BadRequest && userId.None? && db.users == old(db.users) && db.nextUserId == old(db.nextUserId)
    ensures status == Created ==>
      userId == Some(old(db.nextUserId)) && old(db.nextUserId) !in old(db.users)
      && db.users == old(db.users)[old(db.nextUserId) := CreatedRow(body, passwordHash)]
      && db.nextUserId == old(db.nextUserId) + 1
    ensures db.deleted == old(db.deleted)
  {
    if MissingRequired(body) {
      return BadRequest, None;
    }
    if RoleRefused(body.role) {
      return BadRequest, None;
    }
    if UsernameTaken(db.users, body.username.value, None) {
      return BadRequest, None;
    }
    if EmailTaken(db.users, body.email.value, None) {
      return BadRequest, None;
    }
    var id := db.nextUserId;
    var row := CreatedRow(body, passwordHash);
    db.users := db.users[id := row];
    db.nextUserId := id + 1;
    status, userId := Created, Some(id);
  }

  /**
   * The row `UPDATE users SET ...` leaves: names, username, email, contact number and role
   * exactly as sent (an absent one becomes NULL), the other address columns and the middle
   * initial `|| null`; the password, active flag and deactivation date are kept.
   */
  function EditedRow(old_: UserRow, edit: UserEdit): (r: UserRow)
    ensures r.username == edit.username && r.email == edit.email && r.role == edit.role
    ensures r.passwordHash == old_.passwordHash && r.isActive == old_.isActive
    ensures r.deactivatedUntil == old_.deactivatedUntil
    ensures r.address.contactNumber == edit.address.contactNumber
    ensures StoredOrNull(edit.address.countryCode, r.address.countryCode) && StoredOrNull(edit.address.region, r.address.region)
    ensures StoredOrNull(edit.address.country, r.address.country) && StoredOrNull(edit.address.city, r.address.city)
    ensures StoredOrNull(edit.address.streetAddress, r.address.streetAddress)
    ensures StoredOrNull(edit.address.postalCode, r.address.postalCode)
    ensures StoredOrNull(edit.middleInitial, r.middleInitial)
  {
    var a := AddressOrNull(edit.address);
    UserRow(edit.firstName, OrNull(edit.middleInitial), edit.lastName, edit.username, edit.email, old_.passwordHash,
            a.(contactNumber := edit.address.contactNumber), edit.role, old_.isActive, old_.deactivatedUntil)
  }

  /**
   * `PUT /users/:id`: 400 for a refused role, 404 for an unknown id, 400 for a non-empty
   * username or email another user holds; otherwise the row is rewritten and returned.
   */
  method UpdateUser(db: UserTable, id: nat, edit: UserEdit) returns (status: int, user: Option<UserRow>)
    requires db.Valid()
    modifies db
    ensures db.Valid()
    ensures status == Ok <==>
      !RoleRefused(edit.role) && id in old(db.users)
      && !(Truthy(edit.username) && UsernameTaken(old(db.users), edit.username.value, Some(id)))
      && !(Truthy(edit.email) && EmailTaken(old(db.users), edit.email.value, Some(id)))
    ensures status == NotFound <==> !RoleRefused(edit.role) && id !in old(db.users)
    ensures status != Ok ==> (status == BadRequest || status == NotFound) && user.None? && db.users == old(db.users)
    ensures status == Ok ==>
      user == Some(EditedRow(old(db.users)[id], edit)) && db.users == old(db.users)[id := user.value]
    ensures db.deleted == old(db.deleted) && db.nextUserId == old(db.nextUserId)
  {
    if RoleRefused(edit.role) {
      return BadRequest, None;
    }
    if id !in db.users {
      return NotFound, None;
    }
    if Truthy(edit.username) && UsernameTaken(db.users, edit.username.value, Some(id)) {
      return BadRequest, None;
    }
    if Truthy(edit.email) && EmailTaken(db.users, edit.email.value, Some(id)) {
      return BadRequest, None;
    }
    var row := EditedRow(db.users[id], edit);
    db.users := db.users[id := row];
    status, user := Ok, Some(row);
  }

  /** `adminId`: the super admin acts as "super-admin", anyone else as the id in their token. */
  function ActorId(actor: Payload): (r: Option<Id>)
    ensures actor.isSuperAdmin ==> r == Some(SuperAdminId)
    ensures !actor.isSuperAdmin ==> r == actor.id
  {
    if actor.isSuperAdmin then Some(SuperAdminId) else actor.id
  }

  /** The self-protection guard of delete and status toggle: an admin other than the super admin acting on their own row. */
  predicate ActsOnSelf(actor: Payload, id: nat) {
    ActorId(actor) == Some(Num(id)) && !actor.isSuperAdmin
  }

  /** Only a plain admin is ever stopped by the self guard, and exactly when the row is their own. */
  lemma SelfGuardCases(actor: Payload, id: nat)
    ensures actor.isSuperAdmin ==> !ActsOnSelf(actor, id)
    ensures !actor.isSuperAdmin ==> (ActsOnSelf(actor, id) <==> actor.id == Some(Num(id)))
  {
  }

  /**
   * `DELETE /users/:id`: 404 for an unknown id, 400 when an admin targets their own row;
   * otherwise the row is copied to deleted_users with who deleted it, then removed from users.
   */
  method DeleteUser(db: UserTable, actor: Payload, id: nat) returns (status: int)
    requires db.Valid()
    modifies db
    ensures db.Valid()
    ensures status == Ok <==> id in old(db.users) && !ActsOnSelf(actor, id)
    ensures status != Ok ==>
      (status == NotFound <==> id !in old(db.users)) && (status == NotFound || status == BadRequest)
      && db.users == old(db.users) && db.deleted == old(db.deleted)
    ensures status == Ok ==>
      db.deleted == old(db.deleted) + [DeletedRow(id, old(db.users)[id], ActorId(actor))]
      && db.users == old(db.users) - {id}
    ensures db.nextUserId == old(db.nextUserId)
  {
    if id !in db.users {
      return NotFound;
    }
    if ActsOnSelf(actor, id) {
      return BadRequest;
    }
    db.deleted := db.deleted + [DeletedRow(id, db.users[id], ActorId(actor))];
    db.users := db.users - {id};
    status := Ok;
  }

  /** The row `UPDATE users SET is_active = ?` leaves: the active flag negated, every other column kept. */
  function Toggled(row: UserRow): (r: UserRow)
    ensures r.isActive != row.isActive
    ensures r.(isActive := row.isActive) == row
  {
    row.(isActive := !row.isActive)
  }

  /**
   * `PUT /users/:id/status`: 404 for an unknown id, 400 when an admin targets their own row;
   * otherwise the row's active flag is negated and the new value returned.
   */
  method ToggleStatus(db: UserTable, actor: Payload, id: nat) returns (status: int, isActive: Option<bool>)
    requires db.Valid()
    modifies db
    ensures db.Valid()
    ensures status == Ok <==> id in old(db.users) && !ActsOnSelf(actor, id)
    ensures status != Ok ==>
      (status == NotFound <==> id !in old(db.users)) && (status == NotFound || status == BadRequest)
      && isActive.None? && db.users == old(db.users)
    ensures status == Ok ==>
      isActive == Some(!old(db.users)[id].isActive)
      && db.users == old(db.users)[id := Toggled(old(db.users)[id])]
    ensures db.deleted == old(db.deleted) && db.nextUserId == old(db.nextUserId)
  {
    if id !in db.users {
      return NotFound, None;
    }
    if ActsOnSelf(actor, id) {
      return BadRequest, None;
    }
    var newStatus := !db.users[id].isActive;
    db.users := db.users[id := Toggled(db.users[id])];
    status, isActive := Ok, Some(newStatus);
  }
}
