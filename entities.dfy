/**
 * The two persisted entities and the TypeORM repositories that store them:
 * each table is a map from its generated integer id to its row, and the next
 * value of the id sequence.
 */
module Entities {
  import opened Wrappers
  import opened HttpErrors

  /** A row of `users`; `role` is None when nothing was written to that column. */
  datatype User = User(id: nat, firstName: string, lastName: string, email: string, password: string, role: Option<string>)

  /** A row of `refreshTokens`: its id, the id of the owning user and the expiry in ms since the epoch. */
  datatype RefreshToken = RefreshToken(id: nat, userId: nat, expiresAt: int)

  ghost predicate EmailTaken(rows: map<nat, User>, email: string) {
    exists id :: id in rows && rows[id].email == email
  }

  class UserRepository {
    var rows: map<nat, User>
    var nextId: nat

    /** Ids come from a sequence starting at 1, and the `email` column is unique. */
    ghost predicate Valid()
      reads this
    {
      && nextId >= 1
      && (forall id :: id in rows ==> 1 <= id < nextId && rows[id].id == id)
      && (forall a, b :: a in rows && b in rows && a != b ==> rows[a].email != rows[b].email)
    }

    constructor ()
      ensures Valid() && rows == map[] && nextId == 1
    {
      rows := map[];
      nextId := 1;
    }

    /** `save(entity)` of a new user: rejected when the email is already stored. */
    method Save(firstName: string, lastName: string, email: string, password: string, role: Option<string>)
      returns (r: Result<User, Error>)
      requires Valid()
      modifies this
      ensures Valid()
      ensures EmailTaken(old(rows), email) ==>
        r == Failure(UniqueViolation) && rows == old(rows) && nextId == old(nextId)
      ensures !EmailTaken(old(rows), email) ==>
        && r == Success(User(old(nextId), firstName, lastName, email, password, role))
        && old(nextId) !in old(rows)
        && rows == old(rows)[old(nextId) := r.value]
        && nextId == old(nextId) + 1
    {
      if exists id :: id in rows && rows[id].email == email {
        return Failure(UniqueViolation);
      }
      var u := User(nextId, firstName, lastName, email, password, role);
      rows := rows[nextId := u];
      nextId := nextId + 1;
      r := Success(u);
    }
  }

  /** The refresh-token ledger after inserting `entry` under its id. */
  function LedgerWith(rows: map<nat, RefreshToken>, entry: RefreshToken): map<nat, RefreshToken> {
    rows[entry.id := entry]
  }

  /** The refresh-token ledger after inserting each of `entries`, in order. */
  function LedgerWithAll(rows: map<nat, RefreshToken>, entries: seq<RefreshToken>): map<nat, RefreshToken>
    decreases |entries|
  {
    if |entries| == 0 then rows else LedgerWithAll(LedgerWith(rows, entries[0]), entries[1..])
  }

  /** The refresh-token ledger after deleting the row with id `id`, if there is one. */
  function LedgerWithout(rows: map<nat, RefreshToken>, id: nat): map<nat, RefreshToken> {
    rows - {id}
  }

  /** TypeORM's `DeleteResult`: how many rows the delete affected. */
  datatype DeleteResult = DeleteResult(affected: nat)

  class RefreshTokenRepository {
    var rows: map<nat, RefreshToken>
    var nextId: nat

    ghost predicate Valid()
      reads this
    {
      && nextId >= 1
      && (forall id :: id in rows ==> 1 <= id < nextId && rows[id].id == id)
    }

    constructor ()
      ensures Valid() && rows == map[] && nextId == 1
    {
      rows := map[];
      nextId := 1;
    }

    /** `save({ user, expiresAt })`: a new row under the next id of the sequence. */
    method Save(userId: nat, expiresAt: int) returns (entry: RefreshToken)
      requires Valid()
      modifies this
      ensures Valid()
      ensures entry == RefreshToken(old(nextId), userId, expiresAt)
      ensures entry.id !in old(rows)
      ensures rows == LedgerWith(old(rows), entry)
      ensures nextId == old(nextId) + 1
    {
      entry := RefreshToken(nextId, userId, expiresAt);
      rows := LedgerWith(rows, entry);
      nextId := nextId + 1;
    }

    /** `delete({ id })`: removes the row if present; an absent id affects nothing and is no error. */
    method Delete(id: nat) returns (result: DeleteResult)
      requires Valid()
      modifies this
      ensures Valid()
      ensures rows == LedgerWithout(old(rows), id)
      ensures result.affected == if id in old(rows) then 1 else 0
      ensures nextId == old(nextId)
    {
      result := DeleteResult(if id in rows then 1 else 0);
      rows := LedgerWithout(rows, id);
    }
  }
}
