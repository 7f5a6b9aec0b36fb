/**
 * Token issuance and the refresh-token ledger (src/services/TokenService.ts).
 * The access token is signed with the RSA private key from the configuration;
 * the refresh token with the shared secret, and it names its ledger row in `jti`.
 */
module TokenService {
  import opened Wrappers
  import opened Decimal
  import opened HttpErrors
  import opened Jwt
  import opened Entities

  const Issuer := "auth-service"
  const AccessExpiresIn := "1h"
  const RefreshExpiresIn := "1y"
  /** 1000 * 60 * 60 * 24 * 365 ms: how long after `now` a ledger row expires. */
  const RefreshLifetimeMs: int := 31536000000
  const MissingKeyMessage := "Could not find private key in config"

  /**
   * The two settings token issuance reads. An unset PRIVATE_KEY is None; the
   * refresh secret is a plain string because the source asserts it is set.
   */
  datatype Config = Config(privateKey: Option<string>, refreshTokenSecret: string)

  const AccessTokenOptions := SignOptions(RS256, AccessExpiresIn, Issuer, None)

  function RefreshTokenOptions(tokenId: nat): SignOptions {
    SignOptions(HS256, RefreshExpiresIn, Issuer, Some(NatToString(tokenId)))
  }

  /** The access-token `sign` call, shared by `generateAccessToken` and registration. */
  function SignAccessToken(payload: Payload, privateKey: string): (t: Token)
    ensures t.payload == payload && t.key == privateKey
    ensures t.options.algorithm == RS256 && t.options.expiresIn == "1h" && t.options.issuer == "auth-service"
    ensures t.options.jwtid == None
  {
    Sign(payload, privateKey, AccessTokenOptions)
  }

  /**
   * `generateAccessToken(payload)`. A missing or empty key is refused before
   * anything is signed. (The source's second guard, a try around copying the
   * key into a local, cannot fail and is not modelled.)
   */
  function GenerateAccessToken(config: Config, payload: Payload): (r: Result<Token, Error>)
    ensures r.Failure? <==> (config.privateKey == None || config.privateKey == Some(""))
    ensures r.Failure? ==> r.error == CreateHttpError(500, MissingKeyMessage)
    ensures r.Success? ==>
      && r.value.payload == payload
      && r.value.key == config.privateKey.value
      && r.value.options.algorithm == RS256
      && r.value.options.expiresIn == "1h"
      && r.value.options.issuer == "auth-service"
      && r.value.options.jwtid == None
  {
    if config.privateKey.None? || config.privateKey.value == "" then
      Failure(CreateHttpError(500, MissingKeyMessage))
    else
      Success(SignAccessToken(payload, config.privateKey.value))
  }

  /**
   * `generateRefreshToken(payload, { id })`: signed with the shared secret, and
   * its `jti` is the decimal numeral of the ledger row's id, which reads back as that id.
   */
  function GenerateRefreshToken(config: Config, payload: Payload, tokenId: nat): (t: Token)
    ensures t.payload == payload && t.key == config.refreshTokenSecret
    ensures t.options.algorithm == HS256 && t.options.expiresIn == "1y" && t.options.issuer == "auth-service"
    ensures t.options.jwtid == Some(NatToString(tokenId)) && AllDigits(t.options.jwtid.value)
    ensures DigitsValue(t.options.jwtid.value) == tokenId
  {
    ValueOfNatToString(tokenId);
    Sign(payload, config.refreshTokenSecret, RefreshTokenOptions(tokenId))
  }

  /** `persistRefreshToken(user)`: one new ledger row owned by `user`, expiring a year after `now`. */
  method PersistRefreshToken(ledger: RefreshTokenRepository, user: User, now: int) returns (entry: RefreshToken)
    requires ledger.Valid()
    modifies ledger
    ensures ledger.Valid()
    ensures entry.id == old(ledger.nextId) && entry.id !in old(ledger.rows)
    ensures entry.userId == user.id && entry.expiresAt == now + RefreshLifetimeMs
    ensures ledger.rows == LedgerWith(old(ledger.rows), entry)
    ensures ledger.nextId == old(ledger.nextId) + 1
  {
    entry := ledger.Save(user.id, now + 1000 * 60 * 60 * 24 * 365);
  }

  /**
   * `deleteRefreshToken(tokenId)`: the row goes if it is there; an absent id is no error.
   * The id sequence is left alone, so a deleted id is never handed out again.
   */
  method DeleteRefreshToken(ledger: RefreshTokenRepository, tokenId: nat) returns (result: DeleteResult)
    requires ledger.Valid()
    modifies ledger
    ensures ledger.Valid()
    ensures ledger.rows == LedgerWithout(old(ledger.rows), tokenId)
    ensures result.affected == if tokenId in old(ledger.rows) then 1 else 0
    ensures ledger.nextId == old(ledger.nextId)
  {
    result := ledger.Delete(tokenId);
  }

  /** A refresh token is honoured only while some ledger row's id is what its `jti` names. */
  ghost predicate LedgerBacks(rows: map<nat, RefreshToken>, t: Token) {
    t.options.jwtid.Some? && exists id :: id in rows && NatToString(id) == t.options.jwtid.value
  }

  /** For one payload, the access and refresh tokens differ only in key, algorithm, lifetime and `jti`. */
  lemma TokensShareIssuerAndPayload(config: Config, payload: Payload, tokenId: nat)
    requires GenerateAccessToken(config, payload).Success?
    ensures var access := GenerateAccessToken(config, payload).value;
            var refresh := GenerateRefreshToken(config, payload, tokenId);
            && access.options.issuer == refresh.options.issuer
            && access.payload == refresh.payload
            && access.options.algorithm != refresh.options.algorithm
            && access.options.jwtid.None? && refresh.options.jwtid.Some?
  {
  }

  /** Deleting twice is deleting once, and deleting an absent id changes nothing. */
  lemma DeleteIsIdempotent(rows: map<nat, RefreshToken>, id: nat)
    ensures LedgerWithout(LedgerWithout(rows, id), id) == LedgerWithout(rows, id)
    ensures id !in rows ==> LedgerWithout(rows, id) == rows
  {
  }

  /** A deletion removes exactly the named row. */
  lemma DeleteKeepsOtherRows(rows: map<nat, RefreshToken>, id: nat)
    ensures id !in LedgerWithout(rows, id)
    ensures forall k :: k in rows && k != id ==> k in LedgerWithout(rows, id) && LedgerWithout(rows, id)[k] == rows[k]
    ensures forall k :: k in LedgerWithout(rows, id) ==> k in rows
  {
  }

  /** A refresh token bound to a row the ledger has just stored is honoured. */
  lemma PersistedTokenIsBacked(rows: map<nat, RefreshToken>, entry: RefreshToken, config: Config, payload: Payload)
    ensures LedgerBacks(LedgerWith(rows, entry), GenerateRefreshToken(config, payload, entry.id))
  {
    assert entry.id in LedgerWith(rows, entry);
  }

  /** A refresh token bound to an id the ledger does not hold is not honoured. */
  lemma AbsentRowIsNotBacked(rows: map<nat, RefreshToken>, id: nat, config: Config, payload: Payload)
    requires id !in rows
    ensures !LedgerBacks(rows, GenerateRefreshToken(config, payload, id))
  {
    forall k | k in rows
      ensures NatToString(k) != NatToString(id)
    {
      NatToStringInjective(k, id);
    }
  }

  /** Once its row is deleted a refresh token is no longer honoured, whatever its signature says. */
  lemma DeletedTokenIsRevoked(rows: map<nat, RefreshToken>, id: nat, config: Config, payload: Payload)
    ensures !LedgerBacks(LedgerWithout(rows, id), GenerateRefreshToken(config, payload, id))
  {
    AbsentRowIsNotBacked(LedgerWithout(rows, id), id, config, payload);
  }

  /** Inserting rows whose ids all differ from `id` does not bring `id` back. */
  lemma {:induction false} InsertsKeepIdAbsent(rows: map<nat, RefreshToken>, entries: seq<RefreshToken>, id: nat)
    requires id !in rows
    requires forall i :: 0 <= i < |entries| ==> entries[i].id != id
    ensures id !in LedgerWithAll(rows, entries)
    decreases |entries|
  {
    if |entries| > 0 {
      InsertsKeepIdAbsent(LedgerWith(rows, entries[0]), entries[1..], id);
    }
  }

  /**
   * Revocation lasts. Every stored id is below the sequence's next value `next`
   * (`RefreshTokenRepository.Valid`), a delete leaves the sequence alone, and
   * each later persist takes an id at or above `next`. So after the row `id`
   * is deleted, no later persists make its refresh token honoured again.
   */
  lemma RevokedTokenStaysRevoked(rows: map<nat, RefreshToken>, id: nat, next: nat, later: seq<RefreshToken>,
                                 config: Config, payload: Payload)
    requires id < next
    requires forall i :: 0 <= i < |later| ==> later[i].id >= next
    ensures !LedgerBacks(LedgerWithAll(LedgerWithout(rows, id), later), GenerateRefreshToken(config, payload, id))
  {
    InsertsKeepIdAbsent(LedgerWithout(rows, id), later, id);
    AbsentRowIsNotBacked(LedgerWithAll(LedgerWithout(rows, id), later), id, config, payload);
  }

  /** Deleting one row does not revoke a token bound to another row. */
  lemma DeleteSparesOtherTokens(rows: map<nat, RefreshToken>, id: nat, other: nat, config: Config, payload: Payload)
    requires other in rows && other != id
    ensures LedgerBacks(LedgerWithout(rows, id), GenerateRefreshToken(config, payload, other))
  {
    assert other in LedgerWithout(rows, id);
  }

  /**
   * Rotation by the two primitives: persist a new row, then delete the old one.
   * The new row is stored, the old row is gone, the ledger keeps its size, and
   * of the two refresh tokens only the new one is honoured.
   */
  lemma RotationReplacesOldToken(rows: map<nat, RefreshToken>, oldId: nat, entry: RefreshToken, config: Config, payload: Payload)
    requires oldId in rows && entry.id !in rows
    ensures var rotated := LedgerWithout(LedgerWith(rows, entry), oldId);
            && entry.id in rotated && rotated[entry.id] == entry
            && oldId !in rotated
            && |rotated| == |rows|
            && LedgerBacks(rotated, GenerateRefreshToken(config, payload, entry.id))
            && !LedgerBacks(rotated, GenerateRefreshToken(config, payload, oldId))
  {
    var grown := LedgerWith(rows, entry);
    var rotated := LedgerWithout(grown, oldId);
    assert |grown| == |rows| + 1;
    assert grown.Keys == rotated.Keys + {oldId};
    DeleteSparesOtherTokens(grown, oldId, entry.id, config, payload);
    DeletedTokenIsRevoked(grown, oldId, config, payload);
  }
}
