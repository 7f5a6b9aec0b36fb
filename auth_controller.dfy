/**
 * The register workflow (src/controllers/AuthController.ts): validate, store the
 * user, read the private key, sign the access token, insert a ledger row, sign
 * the refresh token bound to it, set both cookies and answer 201. The two
 * inputs the source takes from the outside world are parameters: the contents
 * of the key file (None when it cannot be read) and the clock reading `now`.
 */
module AuthController {
  import opened Wrappers
  import opened Decimal
  import opened HttpErrors
  import opened Jwt
  import opened Express
  import opened Logging
  import opened Entities
  import opened UserService
  import opened TokenService
  import Middlewares

  /** The request: its body and what the validator chain found wrong with it. */
  datatype RegisterRequest = RegisterRequest(body: UserData, validationErrors: seq<FieldError>)

  const MaskedPassword := "*******"
  const KeyReadMessage := "Error reading private key"

  /** The attributes of both cookies: script-inaccessible, same-site only, domain localhost. */
  const AccessCookieOptions := CookieOptions("localhost", "strict", 1000 * 60 * 60, true)
  const RefreshCookieOptions := CookieOptions("localhost", "strict", 1000 * 60 * 60 * 24 * 365, true)

  /** The debug record of a registration request, with the password masked. */
  function RegistrationLog(body: UserData): (e: LogEntry)
    ensures e.level == DebugLevel && e.meta.Registration?
    ensures e.meta.firstName == body.firstName && e.meta.lastName == body.lastName && e.meta.email == body.email
    ensures e.meta.password == "*******"
  {
    LogEntry(DebugLevel, "New user registration request",
             Registration(body.firstName, body.lastName, body.email, MaskedPassword))
  }

  /** The info record written once the user is stored. */
  function CreatedLog(id: nat): (e: LogEntry)
    ensures e.level == InfoLevel && e.message == "User has been created"
    ensures e.meta == CreatedUser(id)
  {
    LogEntry(InfoLevel, "User has been created", CreatedUser(id))
  }

  /** The store argument: the body's four credential fields and no role. */
  function RegisterArgs(body: UserData): (data: UserData)
    ensures data.role == None
    ensures data.firstName == body.firstName && data.lastName == body.lastName
    ensures data.email == body.email && data.password == body.password
  {
    UserData(body.firstName, body.lastName, body.email, body.password, None)
  }

  /** The payload of both tokens: the user's id as a decimal `sub`, and the user's role. */
  function RegistrationPayload(user: User): (p: Payload)
    ensures p.role == user.role
    ensures p.sub == NatToString(user.id)
    ensures AllDigits(p.sub) && DigitsValue(p.sub) == user.id
  {
    ValueOfNatToString(user.id);
    Payload(NatToString(user.id), user.role)
  }

  /**
   * `register` as written: `create` returns nothing, so the first read of
   * `user.id` (the info log's argument) throws after the user is stored, and
   * the TypeError goes to `next`: no token, no ledger row, no cookie, no 201.
   */
  method RegisterAsWritten(req: RegisterRequest, users: UserRepository, logger: Logger, res: Response, next: Next)
    requires users.Valid()
    modifies users, logger, res, next
    ensures users.Valid()
    ensures res.cookies == old(res.cookies)
    ensures |req.validationErrors| > 0 ==>
      && res.statusCode == 400 && res.body == Some(ValidationFailed(req.validationErrors))
      && next.calls == old(next.calls)
      && users.rows == old(users.rows) && users.nextId == old(users.nextId) && logger.entries == old(logger.entries)
    ensures |req.validationErrors| == 0 ==>
      && res.statusCode == old(res.statusCode) && res.body == old(res.body)
      && logger.entries == old(logger.entries) + [RegistrationLog(req.body)]
    ensures |req.validationErrors| == 0 && EmailTaken(old(users.rows), req.body.email) ==>
      users.rows == old(users.rows) && users.nextId == old(users.nextId)
      && next.calls == old(next.calls) + [Forward(UniqueViolation)]
    ensures |req.validationErrors| == 0 && !EmailTaken(old(users.rows), req.body.email) ==>
      && users.rows == old(users.rows)[old(users.nextId) := StoredRecord(old(users.nextId), RegisterArgs(req.body))]
      && users.nextId == old(users.nextId) + 1
      && next.calls == old(next.calls) + [Forward(UndefinedIdError)]
  {
    if |req.validationErrors| > 0 {
      res.Status(400);
      res.Json(ValidationFailed(req.validationErrors));
      return;
    }
    logger.Log(RegistrationLog(req.body));
    var created := UserService.CreateAsWritten(users, RegisterArgs(req.body));
    if created.Fail? {
      next.Call(Forward(created.error));
      return;
    }
    // `user` is undefined here, so building `{ id: user.id }` for the info log throws.
    next.Call(Forward(UndefinedIdError));
  }

  /**
   * `register` with a store that returns the saved record.
   * Validation errors answer 400 and touch nothing. Otherwise the request is
   * logged (masked) and the user stored; a duplicate email goes to `next` as
   * the store's error. An unreadable key goes to `next` as a 500 after the user
   * is stored, with no ledger row and no cookie. Otherwise exactly one ledger
   * row is added for the user, expiring a year after `now`, the refresh token
   * names it in `jti`, both cookies are set and the answer is 201 with the id.
   */
  method Register(req: RegisterRequest, config: Config, privateKeyFile: Option<string>, now: int,
                  users: UserRepository, ledger: RefreshTokenRepository, logger: Logger, res: Response, next: Next)
    requires users.Valid() && ledger.Valid()
    modifies users, ledger, logger, res, next
    ensures users.Valid() && ledger.Valid()
    ensures |req.validationErrors| > 0 ==>
      && res.statusCode == 400 && res.body == Some(ValidationFailed(req.validationErrors))
      && res.cookies == old(res.cookies) && next.calls == old(next.calls)
      && users.rows == old(users.rows) && ledger.rows == old(ledger.rows)
      && users.nextId == old(users.nextId) && ledger.nextId == old(ledger.nextId)
      && logger.entries == old(logger.entries)
    ensures |req.validationErrors| == 0 && EmailTaken(old(users.rows), req.body.email) ==>
      && users.rows == old(users.rows) && ledger.rows == old(ledger.rows)
      && users.nextId == old(users.nextId) && ledger.nextId == old(ledger.nextId)
      && logger.entries == old(logger.entries) + [RegistrationLog(req.body)]
      && next.calls == old(next.calls) + [Forward(UniqueViolation)]
      && res.statusCode == old(res.statusCode) && res.body == old(res.body) && res.cookies == old(res.cookies)
    ensures |req.validationErrors| == 0 && !EmailTaken(old(users.rows), req.body.email) ==>
      && users.rows == old(users.rows)[old(users.nextId) := StoredRecord(old(users.nextId), RegisterArgs(req.body))]
      && users.nextId == old(users.nextId) + 1
      && logger.entries == old(logger.entries) + [RegistrationLog(req.body), CreatedLog(old(users.nextId))]
    ensures |req.validationErrors| == 0 && !EmailTaken(old(users.rows), req.body.email) && privateKeyFile.None? ==>
      && ledger.rows == old(ledger.rows) && ledger.nextId == old(ledger.nextId)
      && next.calls == old(next.calls) + [Forward(CreateHttpError(500, KeyReadMessage))]
      && res.statusCode == old(res.statusCode) && res.body == old(res.body) && res.cookies == old(res.cookies)
    ensures |req.validationErrors| == 0 && !EmailTaken(old(users.rows), req.body.email) && privateKeyFile.Some? ==>
      var user := StoredRecord(old(users.nextId), RegisterArgs(req.body));
      var entry := RefreshToken(old(ledger.nextId), user.id, now + RefreshLifetimeMs);
      var payload := RegistrationPayload(user);
      && entry.id !in old(ledger.rows)
      && ledger.rows == LedgerWith(old(ledger.rows), entry)
      && ledger.nextId == old(ledger.nextId) + 1
      && |ledger.rows| == |old(ledger.rows)| + 1
      && res.cookies == old(res.cookies) + [
           Cookie("accessToken", SignAccessToken(payload, privateKeyFile.value), AccessCookieOptions),
           Cookie("refreshToken", GenerateRefreshToken(config, payload, entry.id), RefreshCookieOptions)]
      && res.statusCode == 201 && res.body == Some(Created(user.id))
      && next.calls == old(next.calls)
  {
    if |req.validationErrors| > 0 {
      res.Status(400);
      res.Json(ValidationFailed(req.validationErrors));
      return;
    }
    logger.Log(RegistrationLog(req.body));
    var created := UserService.Create(users, RegisterArgs(req.body));
    if created.Failure? {
      next.Call(Forward(created.error));
      return;
    }
    var user := created.value;
    logger.Log(CreatedLog(user.id));

    if privateKeyFile.None? {
      next.Call(Forward(CreateHttpError(500, KeyReadMessage)));
      return;
    }
    var payload := RegistrationPayload(user);
    var accessToken := SignAccessToken(payload, privateKeyFile.value);

    // The source inserts this row through the data source's repository directly,
    // with the same fields and expiry as persistRefreshToken.
    var entry := TokenService.PersistRefreshToken(ledger, user, now);
    var refreshToken := GenerateRefreshToken(config, payload, entry.id);

    res.SetCookie("accessToken", accessToken, AccessCookieOptions);
    res.SetCookie("refreshToken", refreshToken, RefreshCookieOptions);
    res.Status(201);
    res.Json(Created(user.id));
  }

  /**
   * The two cookies agree with the tokens and the ledger: the access cookie
   * lives one hour, the refresh cookie exactly as long as its ledger row, and
   * both carry the same restrictive attributes.
   */
  lemma CookieAttributes()
    ensures AccessCookieOptions.maxAge == 3600000
    ensures RefreshCookieOptions.maxAge == 31536000000 == RefreshLifetimeMs
    ensures AccessCookieOptions.httpOnly && RefreshCookieOptions.httpOnly
    ensures AccessCookieOptions.sameSite == RefreshCookieOptions.sameSite == "strict"
    ensures AccessCookieOptions.domain == RefreshCookieOptions.domain == "localhost"
  {
  }

  /**
   * With a non-empty key, registration's inline access token is the one
   * `generateAccessToken` makes from the same key. Registration checks only
   * that the key file can be read, not that it is non-empty.
   */
  lemma RegisterAccessTokenMatchesService(config: Config, payload: Payload, key: string)
    requires config.privateKey == Some(key) && key != ""
    ensures GenerateAccessToken(config, payload) == Success(SignAccessToken(payload, key))
  {
  }

  /**
   * The tokens of one registration: same payload and issuer, the refresh token
   * bound to the new ledger row and honoured by the ledger after the insert.
   * Because the store keeps no role, neither token carries a role claim.
   */
  lemma RegisteredTokensAreBound(rows: map<nat, RefreshToken>, body: UserData, userId: nat, entry: RefreshToken, config: Config, key: string)
    requires entry.id !in rows
    ensures var payload := RegistrationPayload(StoredRecord(userId, RegisterArgs(body)));
            var access := SignAccessToken(payload, key);
            var refresh := GenerateRefreshToken(config, payload, entry.id);
            && access.payload == refresh.payload && access.payload.role == None
            && access.options.issuer == refresh.options.issuer
            && refresh.options.jwtid == Some(NatToString(entry.id))
            && LedgerBacks(LedgerWith(rows, entry), refresh)
  {
    PersistedTokenIsBacked(rows, entry, config, RegistrationPayload(StoredRecord(userId, RegisterArgs(body))));
  }

  /**
   * Because the store keeps no role, a request authenticated with a token from
   * registration (its role claim is the stored user's) is refused by the
   * `/users` gate.
   */
  lemma RegisteredUserCannotReachUsersRoutes(userId: nat, body: UserData, auth: Middlewares.Auth)
    requires auth.role == RegistrationPayload(StoredRecord(userId, RegisterArgs(body))).role
    ensures Middlewares.CanAccess(Middlewares.UsersRouteRoles, auth) != Continue
  {
    Middlewares.MissingRoleIsRefused(Middlewares.UsersRouteRoles, auth);
  }
}
