/**
 * The self-service account routes of server/src/routes/account.js, reached through
 * `requireAuth`: change one's password and deactivate one's account for a number of days.
 * `user` is the verified token payload. Checking a password against a stored hash and
 * hashing the new one are bcrypt's work and arrive as the parameters `matches` and
 * `newHash`; `today` is the current date as a day number.
 */
module AccountRoutes {
  import opened Wrappers
  import opened Auth
  import opened Users

  const Ok: int := 200
  const BadRequest: int := 400
  const Unauthorized: int := 401
  const Forbidden: int := 403
  const NotFound: int := 404

  const MinPasswordLength: nat := 6
  const MinDeactivationDays: int := 1
  const MaxDeactivationDays: int := 14

  /** The users row a token's id names, if any: only a numeric id can name one. */
  function RowId(users: map<nat, UserRow>, id: Option<Id>): (r: Option<nat>)
    ensures r.Some? <==> id.Some? && id.value.Num? && id.value.n in users
    ensures r.Some? ==> id == Some(Num(r.value))
  {
    if id.Some? && id.value.Num? && id.value.n in users then Some(id.value.n) else None
  }

  /** The first guard a password change fails, or `None` when it passes them all. */
  function PasswordChangeError(users: map<nat, UserRow>, user: Payload, oldPassword: Option<string>,
                               newPassword: Option<string>, matches: (string, string) -> bool): (r: Option<int>)
    ensures r.None? <==>
      IdTruthy(user.id) && !IsSuperAdmin(user) && Truthy(oldPassword) && Truthy(newPassword)
      && |newPassword.value| >= MinPasswordLength && RowId(users, user.id).Some?
      && matches(oldPassword.value, users[RowId(users, user.id).value].passwordHash)
    ensures !IdTruthy(user.id) ==> r == Some(Unauthorized)
    ensures IdTruthy(user.id) && IsSuperAdmin(user) ==> r == Some(Forbidden)
    ensures IdTruthy(user.id) && !IsSuperAdmin(user) && !(Truthy(oldPassword) && Truthy(newPassword)) ==> r == Some(BadRequest)
    ensures IdTruthy(user.id) && !IsSuperAdmin(user) && Truthy(newPassword) && |newPassword.value| < MinPasswordLength ==>
      r == Some(BadRequest)
    ensures r.Some? ==> r.value in {Unauthorized, Forbidden, BadRequest, NotFound}
  {
    if !IdTruthy(user.id) then Some(Unauthorized)
    else if IsSuperAdmin(user) then Some(Forbidden)
    else if !Truthy(oldPassword) || !Truthy(newPassword) then Some(BadRequest)
    else if |newPassword.value| < MinPasswordLength then Some(BadRequest)
    else if RowId(users, user.id).None? then Some(NotFound)
    else if !matches(oldPassword.value, users[RowId(users, user.id).value].passwordHash) then Some(Unauthorized)
    else None
  }

  /** A wrong current password is refused with 401 once the other guards pass. */
  lemma WrongPasswordRefused(users: map<nat, UserRow>, user: Payload, oldPassword: Option<string>,
                             newPassword: Option<string>, matches: (string, string) -> bool)
    requires IdTruthy(user.id) && !IsSuperAdmin(user) && Truthy(oldPassword) && Truthy(newPassword)
    requires |newPassword.value| >= MinPasswordLength && RowId(users, user.id).Some?
    requires !matches(oldPassword.value, users[RowId(users, user.id).value].passwordHash)
    ensures PasswordChangeError(users, user, oldPassword, newPassword, matches) == Some(Unauthorized)
  {
  }

  /**
   * `PUT /change-password`: on any failed guard the tables are untouched and the guard's
   * status returned; otherwise the user's stored hash becomes `newHash`.
   */
  method ChangePassword(db: UserTable, user: Payload, oldPassword: Option<string>, newPassword: Option<string>,
                        matches: (string, string) -> bool, newHash: string) returns (status: int)
    requires db.Valid()
    modifies db
    ensures db.Valid()
    ensures var e := PasswordChangeError(old(db.users), user, oldPassword, newPassword, matches);
      e.Some? ==> status == e.value && db.users == old(db.users)
    ensures var e := PasswordChangeError(old(db.users), user, oldPassword, newPassword, matches);
      e.None? ==> status == Ok && RowId(old(db.users), user.id).Some?
    ensures var id := RowId(old(db.users), user.id);
      status == Ok ==> db.users == old(db.users)[id.value := old(db.users)[id.value].(passwordHash := newHash)]
    ensures db.deleted == old(db.deleted) && db.nextUserId == old(db.nextUserId)
  {
    if !IdTruthy(user.id) {
      return Unauthorized;
    }
    if IsSuperAdmin(user) {
      return Forbidden;
    }
    if !Truthy(oldPassword) || !Truthy(newPassword) {
      return BadRequest;
    }
    if |newPassword.value| < MinPasswordLength {
      return BadRequest;
    }
    var row := RowId(db.users, user.id);
    if row.None? {
      return NotFound;
    }
    if !matches(oldPassword.value, db.users[row.value].passwordHash) {
      return Unauthorized;
    }
    var id := row.value;
    db.users := db.users[id := db.users[id].(passwordHash := newHash)];
    status := Ok;
  }

  /** `!days || days < 1 || days > 14`: a missing period, or one outside 1 to 14 days. */
  predicate PeriodRefused(days: Option<int>)
    ensures !PeriodRefused(days) ==> days.Some? && days.value > 0
  {
    days.None? || days.value < MinDeactivationDays || days.value > MaxDeactivationDays
  }

  /**
   * `POST /deactivate`: 401 without an id, 403 for the super admin, 400 for a period
   * outside 1 to 14 days; otherwise the user's row (if the id names one) becomes inactive
   * until `today + days`, and that date is returned.
   */
  method Deactivate(db: UserTable, user: Payload, days: Option<int>, today: int)
    returns (status: int, deactivatedUntil: Option<int>)
    requires db.Valid()
    modifies db
    ensures db.Valid()
    ensures status == Ok <==> IdTruthy(user.id) && !IsSuperAdmin(user) && !PeriodRefused(days)
    ensures !IdTruthy(user.id) ==> status == Unauthorized
    ensures IdTruthy(user.id) && IsSuperAdmin(user) ==> status == Forbidden
    ensures IdTruthy(user.id) && !IsSuperAdmin(user) && PeriodRefused(days) ==> status == BadRequest
    ensures status != Ok ==> deactivatedUntil.None? && db.users == old(db.users)
    ensures status == Ok ==>
      deactivatedUntil == Some(today + days.value)
      && today + MinDeactivationDays <= deactivatedUntil.value <= today + MaxDeactivationDays
      && var id := RowId(old(db.users), user.id);
      (id.None? ==> db.users == old(db.users))
      && (id.Some? ==> db.users == old(db.users)[id.value := old(db.users)[id.value].(
            isActive := false, deactivatedUntil := deactivatedUntil)])
    ensures db.deleted == old(db.deleted) && db.nextUserId == old(db.nextUserId)
  {
    if !IdTruthy(user.id) {
      return Unauthorized, None;
    }
    if IsSuperAdmin(user) {
      return Forbidden, None;
    }
    if PeriodRefused(days) {
      return BadRequest, None;
    }
    var until := today + days.value;
    var row := RowId(db.users, user.id);
    if row.Some? {
      var id := row.value;
      db.users := db.users[id := db.users[id].(isActive := false, deactivatedUntil := Some(until))];
    }
    status, deactivatedUntil := Ok, Some(until);
  }
}
