/**
 * The user-store insert (src/services/UserService.ts). As written, `create`
 * saves the four credential fields and returns nothing; the corrected `Create`
 * returns the saved record, which both controllers go on to read.
 */
module UserService {
  import opened Wrappers
  import opened HttpErrors
  import opened Entities

  /** The service's argument; `role` is None when the caller passes none. */
  datatype UserData = UserData(firstName: string, lastName: string, email: string, password: string, role: Option<string>)

  /**
   * The row an insert of `data` stores under `id`: the four fields verbatim (the
   * password is not hashed here) and no role, whatever `data.role` is.
   */
  function StoredRecord(id: nat, data: UserData): (u: User)
    ensures u.id == id && u.role == None
    ensures u.firstName == data.firstName && u.lastName == data.lastName
    ensures u.email == data.email && u.password == data.password
  {
    User(id, data.firstName, data.lastName, data.email, data.password, None)
  }

  /** Two arguments that differ only in their role store the same row. */
  lemma RoleIsNotPersisted(id: nat, a: UserData, b: UserData)
    requires a.firstName == b.firstName && a.lastName == b.lastName
    requires a.email == b.email && a.password == b.password
    ensures StoredRecord(id, a) == StoredRecord(id, b)
  {
  }

  /** `create(data)` as written: one insert, and a promise of nothing. */
  method CreateAsWritten(users: UserRepository, data: UserData) returns (r: Outcome<Error>)
    requires users.Valid()
    modifies users
    ensures users.Valid()
    ensures EmailTaken(old(users.rows), data.email) ==>
      r == Fail(UniqueViolation) && users.rows == old(users.rows) && users.nextId == old(users.nextId)
    ensures !EmailTaken(old(users.rows), data.email) ==>
      && r == Pass
      && old(users.nextId) !in old(users.rows)
      && users.rows == old(users.rows)[old(users.nextId) := StoredRecord(old(users.nextId), data)]
      && users.nextId == old(users.nextId) + 1
  {
    var saved := users.Save(data.firstName, data.lastName, data.email, data.password, None);
    r := if saved.Failure? then Fail(saved.error) else Pass;
  }

  /** `create(data)` returning the saved record, as both controllers expect. */
  method Create(users: UserRepository, data: UserData) returns (r: Result<User, Error>)
    requires users.Valid()
    modifies users
    ensures users.Valid()
    ensures EmailTaken(old(users.rows), data.email) ==>
      r == Failure(UniqueViolation) && users.rows == old(users.rows) && users.nextId == old(users.nextId)
    ensures !EmailTaken(old(users.rows), data.email) ==>
      && r == Success(StoredRecord(old(users.nextId), data))
      && old(users.nextId) !in old(users.rows)
      && users.rows == old(users.rows)[old(users.nextId) := r.value]
      && users.nextId == old(users.nextId) + 1
  {
    r := users.Save(data.firstName, data.lastName, data.email, data.password, None);
  }
}
