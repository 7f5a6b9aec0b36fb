/**
 * Admin-side user creation (src/controllers/UserController.ts): the body's four
 * credential fields and the fixed role MANAGER go to the user store, then 201.
 */
module UserController {
  import opened Wrappers
  import opened HttpErrors
  import opened Express
  import opened Entities
  import opened UserService
  import Middlewares

  /** The argument the handler passes to the store, whatever role the body names. */
  function CreateArgs(body: UserData): (data: UserData)
    ensures data.role == Some(Middlewares.MANAGER)
    ensures data.firstName == body.firstName && data.lastName == body.lastName
    ensures data.email == body.email && data.password == body.password
  {
    UserData(body.firstName, body.lastName, body.email, body.password, Some(Middlewares.MANAGER))
  }

  /** Only the four credential fields of the body reach the store. */
  lemma BodyRoleIsIgnored(a: UserData, b: UserData)
    requires a.firstName == b.firstName && a.lastName == b.lastName
    requires a.email == b.email && a.password == b.password
    ensures CreateArgs(a) == CreateArgs(b)
  {
  }

  /**
   * The handler as written: the store returns nothing, so after `res.status(201)`
   * reading `user.id` for the body throws, and the TypeError goes to `next`.
   * No request gets a body from it.
   */
  method CreateAsWritten(body: UserData, users: UserRepository, res: Response, next: Next)
    requires users.Valid()
    modifies users, res, next
    ensures users.Valid()
    ensures res.body == old(res.body) && res.cookies == old(res.cookies)
    ensures EmailTaken(old(users.rows), body.email) ==>
      && users.rows == old(users.rows) && users.nextId == old(users.nextId)
      && next.calls == old(next.calls) + [Forward(UniqueViolation)]
      && res.statusCode == old(res.statusCode)
    ensures !EmailTaken(old(users.rows), body.email) ==>
      && users.rows == old(users.rows)[old(users.nextId) := StoredRecord(old(users.nextId), CreateArgs(body))]
      && users.nextId == old(users.nextId) + 1
      && next.calls == old(next.calls) + [Forward(UndefinedIdError)]
      && res.statusCode == 201
  {
    var created := UserService.CreateAsWritten(users, CreateArgs(body));
    if created.Fail? {
      next.Call(Forward(created.error));
      return;
    }
    res.Status(201);
    // `user` is undefined here, so evaluating `{ id: user.id }` throws.
    next.Call(Forward(UndefinedIdError));
  }

  /**
   * The handler with a store that returns the saved record: one insert, then
   * 201 with the new id; a store error goes to `next` and nothing is sent.
   */
  method Create(body: UserData, users: UserRepository, res: Response, next: Next)
    requires users.Valid()
    modifies users, res, next
    ensures users.Valid()
    ensures res.cookies == old(res.cookies)
    ensures EmailTaken(old(users.rows), body.email) ==>
      && users.rows == old(users.rows) && users.nextId == old(users.nextId)
      && next.calls == old(next.calls) + [Forward(UniqueViolation)]
      && res.statusCode == old(res.statusCode) && res.body == old(res.body)
    ensures !EmailTaken(old(users.rows), body.email) ==>
      && users.rows == old(users.rows)[old(users.nextId) := StoredRecord(old(users.nextId), CreateArgs(body))]
      && users.nextId == old(users.nextId) + 1
      && |users.rows| == |old(users.rows)| + 1
      && next.calls == old(next.calls)
      && res.statusCode == 201 && res.body == Some(Created(old(users.nextId)))
  {
    var created := UserService.Create(users, CreateArgs(body));
    if created.Failure? {
      next.Call(Forward(created.error));
      return;
    }
    res.Status(201);
    res.Json(Created(created.value.id));
  }
}
