/**
 * The users and deleted_users tables that server/src/routes/admin.js and
 * server/src/routes/account.js change. Users are keyed by their auto-increment id; a
 * nullable column is an `Option`. Password hashes are opaque strings: hashing and comparing
 * with bcrypt happen outside the model and reach it as parameters.
 */
module Users {
  import opened Wrappers
  import opened Auth

  /** The contact and address columns of a users row. */
  datatype Address = Address(contactNumber: Option<string>, countryCode: Option<string>, region: Option<string>,
                             country: Option<string>, city: Option<string>, streetAddress: Option<string>,
                             postalCode: Option<string>)

  /** `deactivatedUntil` is a day number, the date the account may be used again. */
  datatype UserRow = UserRow(firstName: Option<string>, middleInitial: Option<string>, lastName: Option<string>,
                             username: Option<string>, email: Option<string>, passwordHash: string,
                             address: Address, role: Option<string>, isActive: bool,
                             deactivatedUntil: Option<int>)

  /** A deleted_users row: a copy of the removed users row, its old id and who removed it. */
  datatype DeletedRow = DeletedRow(originalId: nat, user: UserRow, deletedBy: Option<Id>)

  /** Some user other than `except` holds this username (`SELECT id FROM users WHERE username = ? AND id != ?`). */
  predicate UsernameTaken(users: map<nat, UserRow>, username: string, except: Option<nat>) {
    exists id :: id in users && users[id].username == Some(username) && Some(id) != except
  }

  /** Some user other than `except` holds this email. */
  predicate EmailTaken(users: map<nat, UserRow>, email: string, except: Option<nat>) {
    exists id :: id in users && users[id].email == Some(email) && Some(id) != except
  }

  /** No two users share a non-empty username or a non-empty email. */
  predicate Unique(users: map<nat, UserRow>) {
    (forall a, b :: a in users && b in users && a != b && Truthy(users[a].username) ==>
       users[a].username != users[b].username)
    && (forall a, b :: a in users && b in users && a != b && Truthy(users[a].email) ==>
       users[a].email != users[b].email)
  }

  class UserTable {
    var users: map<nat, UserRow>
    var deleted: seq<DeletedRow>
    var nextUserId: nat

    /** Ids are positive and below the counter, and usernames and emails are unique. */
    ghost predicate Valid()
      reads this
    {
      (forall id :: id in users ==> 0 < id < nextUserId)
      && Unique(users)
      && nextUserId > 0
    }

    /** Empty tables. */
    constructor ()
      ensures Valid()
      ensures users == map[] && deleted == []
    {
      users, deleted, nextUserId := map[], [], 1;
    }
  }
}
