/**
 * The server's auth service: `register`, `login` and `refresh` as straight-line
 * pipelines. Every external step (password hashing and comparison, the user
 * insert, token signing and verification, describing a database error) is an
 * oracle that either returns or throws; the user lookups go through the user
 * directory. Each run reports the steps it performed, in order, so that "no
 * step after a failure" can be stated.
 */
module AuthService {
  import opened Wrappers
  import opened Errors
  import opened Schemas
  import opened UserDirectory

  /** The externally visible steps of the pipelines. */
  datatype Step =
    | HashPassword
    | InsertUser
    | FindUserByEmail
    | ComparePassword
    | SignAccessToken
    | SignRefreshToken
    | VerifyRefreshToken
    | FindUserById

  /** What verifying a refresh token resolves to: a falsy value or a decoded claim. */
  datatype Decoded = Falsy | Claim(payload: TokenPayload)

  /** `getDbErrorMessage`: a message and the violated constraint. */
  datatype DbErrorInfo = DbErrorInfo(message: string, constraint: string)

  /** The steps the service delegates, each of which may throw. */
  datatype Oracles = Oracles(
    hash: string -> Attempt<string>,
    insert: (string, string, string) -> Attempt<seq<User>>,
    describeDbError: Thrown -> DbErrorInfo,
    comparePassword: (string, string) -> Attempt<bool>,
    signAccess: TokenPayload -> Attempt<string>,
    signRefresh: TokenPayload -> Attempt<string>,
    verifyRefresh: string -> Attempt<Decoded>)

  /** The outcome of a pipeline and the steps it ran. */
  datatype Run<T> = Run(result: Result<T, Thrown>, trace: seq<Step>)

  /** What register and login hand back: both tokens and the user row. */
  datatype Issued = Issued(accessToken: string, refreshToken: string, user: User)

  datatype LoginDto = LoginDto(email: string, password: string)

  const HashFailed: Thrown := Raise(InternalServerError, "Failed to hash password")
  const SignFailed: Thrown := Raise(InternalServerError, "Failed to sign tokens")
  const CompareFailed: Thrown := Raise(InternalServerError, "Failed to compare password")
  const InvalidPassword: Thrown := Raise(Unauthorized, "Invalid password")
  const VerifyFailed: Thrown := Raise(InternalServerError, "Failed to verify refresh token")
  const InvalidRefreshToken: Thrown := Raise(Unauthorized, "Invalid refresh token")
  /** Reading `insertedUser[0].id` when the insert returned no row. */
  const NoInsertedRow: Thrown := Fault("TypeError: insertedUser[0] is undefined")

  const RegisterSteps: seq<Step> := [HashPassword, InsertUser, SignAccessToken, SignRefreshToken]
  const LoginSteps: seq<Step> := [FindUserByEmail, ComparePassword, SignAccessToken, SignRefreshToken]
  const RefreshSteps: seq<Step> := [VerifyRefreshToken, FindUserById, SignAccessToken, SignRefreshToken]

  /** `Promise.all` of both signatures: both are started, the access token's failure wins. */
  function SignPair(o: Oracles, payload: TokenPayload): (r: Attempt<TokenPair>)
    ensures r.Done? <==> o.signAccess(payload).Done? && o.signRefresh(payload).Done?
    ensures r.Done? ==> r.value == TokenPair(o.signAccess(payload).value, o.signRefresh(payload).value)
  {
    match (o.signAccess(payload), o.signRefresh(payload))
    case (Done(a), Done(r)) => Done(TokenPair(a, r))
    case (Threw(e), _) => Threw(e)
    case (Done(_), Threw(e)) => Threw(e)
  }

  // ---------------------------------------------------------------------------
  // How far each pipeline gets, stated on the oracles and the directory alone

  /** Register gets to signing: the hash succeeded and the insert returned a row. */
  predicate RegisterReachesSigning(o: Oracles, input: RegisterDto) {
    && o.hash(input.password).Done?
    && var rows := o.insert(input.name, input.email, o.hash(input.password).value);
       rows.Done? && |rows.value| > 0
  }

  /** The claim register signs: the inserted id and the input email. */
  function RegisterPayload(o: Oracles, input: RegisterDto): TokenPayload
    requires RegisterReachesSigning(o, input)
  {
    TokenPayload(input.email, o.insert(input.name, input.email, o.hash(input.password).value).value[0].id)
  }

  /** Login gets to signing: the user was found and the password matched its stored hash. */
  predicate LoginReachesSigning(o: Oracles, db: Db, input: LoginDto) {
    && FindByEmail(db, input.email).Done?
    && o.comparePassword(input.password, FindByEmail(db, input.email).value.password) == Done(true)
  }

  /** The claim login signs: the found user's id and the input email. */
  function LoginPayload(o: Oracles, db: Db, input: LoginDto): TokenPayload
    requires LoginReachesSigning(o, db, input)
  {
    TokenPayload(input.email, FindByEmail(db, input.email).value.id)
  }

  /** Verification decoded a claim. */
  predicate Decodes(o: Oracles, token: string) {
    o.verifyRefresh(token).Done? && o.verifyRefresh(token).value.Claim?
  }

  /** Refresh gets to signing: a claim was decoded and a user with its id was found. */
  predicate RefreshReachesSigning(o: Oracles, db: Db, token: string) {
    Decodes(o, token) && FindById(db, o.verifyRefresh(token).value.payload.userId).Done?
  }

  // ---------------------------------------------------------------------------
  // The pipelines

  /**
   * The steps run in order and stop at the first failure: the hash alone when it
   * throws, hash and insert when the insert throws or returns no row, all four otherwise.
   */
  function Register(o: Oracles, input: RegisterDto): (run: Run<Issued>)
    ensures run.trace <= RegisterSteps
    ensures |run.trace| == 1 <==> o.hash(input.password).Threw?
    ensures |run.trace| == 2 <==> o.hash(input.password).Done? && !RegisterReachesSigning(o, input)
    ensures |run.trace| == 4 <==> RegisterReachesSigning(o, input)
    ensures run.result.Success? <==>
              RegisterReachesSigning(o, input) && SignPair(o, RegisterPayload(o, input)).Done?
  {
    var (hashed, hashError) := TryCatch(o.hash(input.password));
    if hashError.Some? then Run(Failure(HashFailed), [HashPassword])
    else
      var (inserted, insertError) := TryCatch(o.insert(input.name, input.email, hashed.value));
      if insertError.Some? then
        var info := o.describeDbError(insertError.value);
        Run(Failure(Raised(TrpcError(Conflict, info.message, Some(info.constraint)))), [HashPassword, InsertUser])
      else if |inserted.value| == 0 then
        Run(Failure(NoInsertedRow), [HashPassword, InsertUser])
      else
        var row := inserted.value[0];
        var (tokens, tokensError) := TryCatch(SignPair(o, TokenPayload(input.email, row.id)));
        if tokensError.Some? then Run(Failure(SignFailed), RegisterSteps)
        else Run(Success(Issued(tokens.value.accessToken, tokens.value.refreshToken, row)), RegisterSteps)
  }

  /**
   * The steps run in order and stop at the first failure: the lookup alone when
   * it throws, lookup and compare when the compare throws or says no, all four otherwise.
   */
  function Login(o: Oracles, db: Db, input: LoginDto): (run: Run<Issued>)
    ensures run.trace <= LoginSteps
    ensures |run.trace| == 1 <==> FindByEmail(db, input.email).Threw?
    ensures |run.trace| == 2 <==> FindByEmail(db, input.email).Done? && !LoginReachesSigning(o, db, input)
    ensures |run.trace| == 4 <==> LoginReachesSigning(o, db, input)
    ensures run.result.Success? <==>
              LoginReachesSigning(o, db, input) && SignPair(o, LoginPayload(o, db, input)).Done?
  {
    var (user, userError) := TryCatch(FindByEmail(db, input.email));
    if userError.Some? then Run(Failure(FailedToFind), [FindUserByEmail])
    else if user.None? then Run(Failure(UserNotFound), [FindUserByEmail])
    else
      var u := user.value;
      var (valid, validError) := TryCatch(o.comparePassword(input.password, u.password));
      if validError.Some? then Run(Failure(CompareFailed), [FindUserByEmail, ComparePassword])
      else if !valid.value then Run(Failure(InvalidPassword), [FindUserByEmail, ComparePassword])
      else
        var (tokens, tokensError) := TryCatch(SignPair(o, TokenPayload(input.email, u.id)));
        if tokensError.Some? then Run(Failure(SignFailed), LoginSteps)
        else Run(Success(Issued(tokens.value.accessToken, tokens.value.refreshToken, u)), LoginSteps)
  }

  /**
   * The steps run in order and stop at the first failure: verification alone
   * when it throws or decodes a falsy value, verification and lookup when the
   * lookup throws, all four otherwise.
   */
  function Refresh(o: Oracles, db: Db, refreshToken: string): (run: Run<TokenPair>)
    ensures run.trace <= RefreshSteps
    ensures |run.trace| == 1 <==> !Decodes(o, refreshToken)
    ensures |run.trace| == 2 <==>
              Decodes(o, refreshToken) && FindById(db, o.verifyRefresh(refreshToken).value.payload.userId).Threw?
    ensures |run.trace| == 4 <==> RefreshReachesSigning(o, db, refreshToken)
    ensures run.result.Success? <==>
              RefreshReachesSigning(o, db, refreshToken)
              && SignPair(o, o.verifyRefresh(refreshToken).value.payload).Done?
  {
    var (decoded, decodedError) := TryCatch(o.verifyRefresh(refreshToken));
    if decodedError.Some? then Run(Failure(VerifyFailed), [VerifyRefreshToken])
    else if decoded.value.Falsy? then Run(Failure(InvalidRefreshToken), [VerifyRefreshToken])
    else
      var claim := decoded.value.payload;
      var (user, userError) := TryCatch(FindById(db, claim.userId));
      if userError.Some? then Run(Failure(FailedToFind), [VerifyRefreshToken, FindUserById])
      else if user.None? then Run(Failure(UserNotFound), [VerifyRefreshToken, FindUserById])
      else
        var (tokens, tokensError) := TryCatch(SignPair(o, TokenPayload(claim.email, claim.userId)));
        if tokensError.Some? then Run(Failure(SignFailed), RefreshSteps)
        else Run(Success(tokens.value), RefreshSteps)
  }

  // ---------------------------------------------------------------------------
  // register

  /** A hash failure is an internal error, and nothing is inserted or signed. */
  lemma RegisterHashFailure(o: Oracles, input: RegisterDto)
    requires o.hash(input.password).Threw?
    ensures Register(o, input).result == Failure(Raise(InternalServerError, "Failed to hash password"))
    ensures Register(o, input).trace == [HashPassword]
  {
  }

  /**
   * Every insert failure, whatever it is, is a CONFLICT carrying the described
   * message and constraint, and no token is signed.
   */
  lemma RegisterInsertFailure(o: Oracles, input: RegisterDto)
    requires o.hash(input.password).Done?
    requires o.insert(input.name, input.email, o.hash(input.password).value).Threw?
    ensures var info := o.describeDbError(o.insert(input.name, input.email, o.hash(input.password).value).thrown);
            Register(o, input).result == Failure(Raised(TrpcError(Conflict, info.message, Some(info.constraint))))
    ensures SignAccessToken !in Register(o, input).trace && SignRefreshToken !in Register(o, input).trace
  {
  }

  /**
   * A successful registration inserted the hashed password, and both tokens are
   * signed over the inserted id and the input email and returned with the inserted row.
   */
  lemma RegisterSuccess(o: Oracles, input: RegisterDto)
    requires Register(o, input).result.Success?
    ensures o.hash(input.password).Done?
    ensures var rows := o.insert(input.name, input.email, o.hash(input.password).value);
            && rows.Done? && |rows.value| > 0
            && var payload := TokenPayload(input.email, rows.value[0].id);
               Register(o, input).result.value
               == Issued(o.signAccess(payload).value, o.signRefresh(payload).value, rows.value[0])
  {
  }

  /** Register raises only INTERNAL_SERVER_ERROR and CONFLICT; the only other failure is the missing row. */
  lemma RegisterErrorCodes(o: Oracles, input: RegisterDto)
    requires Register(o, input).result.Failure?
    ensures var e := Register(o, input).result.error;
            e == NoInsertedRow || CodeOf(e) == Some(InternalServerError) || CodeOf(e) == Some(Conflict)
    ensures CodeOf(Register(o, input).result.error) == Some(Conflict) <==>
              o.hash(input.password).Done? && o.insert(input.name, input.email, o.hash(input.password).value).Threw?
  {
  }

  /**
   * An insert that returns no row: `insertedUser[0].id` throws outside any
   * `tryCatch`, after the hash and the insert and before any signing.
   */
  lemma RegisterNoInsertedRow(o: Oracles, input: RegisterDto)
    requires o.hash(input.password).Done?
    requires o.insert(input.name, input.email, o.hash(input.password).value) == Done([])
    ensures Register(o, input).result == Failure(NoInsertedRow)
    ensures Register(o, input).trace == [HashPassword, InsertUser]
  {
  }

  // ---------------------------------------------------------------------------
  // login

  /**
   * Every lookup error, the directory's NOT_FOUND included, becomes
   * INTERNAL_SERVER_ERROR: an unknown email is an internal error, not NOT_FOUND.
   */
  lemma LoginLookupFailure(o: Oracles, db: Db, input: LoginDto)
    requires !db.reachable || !HasEmail(db.rows, input.email)
    ensures Login(o, db, input).result == Failure(Raise(InternalServerError, "Failed to find user"))
    ensures Login(o, db, input).trace == [FindUserByEmail]
  {
  }

  /** The `!user` branch is dead: login never raises NOT_FOUND. */
  lemma LoginNeverNotFound(o: Oracles, db: Db, input: LoginDto)
    ensures Login(o, db, input).result.Failure? ==> CodeOf(Login(o, db, input).result.error) != Some(NotFound)
  {
  }

  /**
   * Once the user is found, the password is compared with that user's stored
   * hash; a mismatch is UNAUTHORIZED and nothing is signed.
   */
  lemma LoginWrongPassword(o: Oracles, db: Db, input: LoginDto)
    requires FindByEmail(db, input.email).Done?
    requires o.comparePassword(input.password, FindByEmail(db, input.email).value.password) == Done(false)
    ensures Login(o, db, input).result == Failure(Raise(Unauthorized, "Invalid password"))
    ensures Login(o, db, input).trace == [FindUserByEmail, ComparePassword]
  {
  }

  /** A compare that throws is INTERNAL_SERVER_ERROR "Failed to compare password", and nothing is signed. */
  lemma LoginCompareFailure(o: Oracles, db: Db, input: LoginDto)
    requires FindByEmail(db, input.email).Done?
    requires o.comparePassword(input.password, FindByEmail(db, input.email).value.password).Threw?
    ensures Login(o, db, input).result == Failure(Raise(InternalServerError, "Failed to compare password"))
    ensures Login(o, db, input).trace == [FindUserByEmail, ComparePassword]
  {
  }

  /** UNAUTHORIZED is raised exactly when the user was found and the compare said no. */
  lemma LoginUnauthorizedExactly(o: Oracles, db: Db, input: LoginDto)
    ensures Login(o, db, input).result.Failure? && CodeOf(Login(o, db, input).result.error) == Some(Unauthorized)
            <==> FindByEmail(db, input.email).Done?
                 && o.comparePassword(input.password, FindByEmail(db, input.email).value.password) == Done(false)
  {
  }

  /**
   * A successful login returns a stored row with the input email whose hash the
   * password matched, and tokens signed over that row's id and the input email.
   */
  lemma LoginSuccess(o: Oracles, db: Db, input: LoginDto)
    requires Login(o, db, input).result.Success?
    ensures var issued := Login(o, db, input).result.value;
            && issued.user in db.rows
            && issued.user.email == input.email
            && o.comparePassword(input.password, issued.user.password) == Done(true)
            && var payload := TokenPayload(input.email, issued.user.id);
               issued.accessToken == o.signAccess(payload).value
               && issued.refreshToken == o.signRefresh(payload).value
  {
  }

  // ---------------------------------------------------------------------------
  // refresh

  /** A thrown verification is INTERNAL_SERVER_ERROR; only a falsy decode is UNAUTHORIZED. */
  lemma RefreshVerifyOutcomes(o: Oracles, db: Db, token: string)
    ensures o.verifyRefresh(token).Threw? ==>
              Refresh(o, db, token).result == Failure(Raise(InternalServerError, "Failed to verify refresh token"))
    ensures o.verifyRefresh(token) == Done(Falsy) ==>
              Refresh(o, db, token).result == Failure(Raise(Unauthorized, "Invalid refresh token"))
    ensures Refresh(o, db, token).result.Failure? && CodeOf(Refresh(o, db, token).result.error) == Some(Unauthorized)
            <==> o.verifyRefresh(token) == Done(Falsy)
  {
  }

  /**
   * After a good decode, every lookup error becomes INTERNAL_SERVER_ERROR
   * "Failed to find user", and nothing is signed: an unreachable database and
   * a vanished user alike.
   */
  lemma RefreshLookupFailure(o: Oracles, db: Db, token: string)
    requires Decodes(o, token)
    requires !db.reachable || !HasId(db.rows, o.verifyRefresh(token).value.payload.userId)
    ensures Refresh(o, db, token).result == Failure(FailedToFind)
    ensures Refresh(o, db, token).result == Failure(Raise(InternalServerError, "Failed to find user"))
    ensures Refresh(o, db, token).trace == [VerifyRefreshToken, FindUserById]
  {
  }

  /** The `!user` branch is dead here too: a vanished user is an internal error, never NOT_FOUND. */
  lemma RefreshNeverNotFound(o: Oracles, db: Db, token: string)
    ensures Refresh(o, db, token).result.Failure? ==> CodeOf(Refresh(o, db, token).result.error) != Some(NotFound)
    ensures o.verifyRefresh(token).Done? && o.verifyRefresh(token).value.Claim?
            && !HasId(db.rows, o.verifyRefresh(token).value.payload.userId) ==>
              Refresh(o, db, token).result == Failure(Raise(InternalServerError, "Failed to find user"))
  {
  }

  /**
   * A successful refresh signs the new pair over the decoded claim, not over the
   * stored row, after checking that a row with the claimed id exists.
   */
  lemma RefreshSignsDecodedClaim(o: Oracles, db: Db, token: string)
    requires Refresh(o, db, token).result.Success?
    ensures o.verifyRefresh(token).Done? && o.verifyRefresh(token).value.Claim?
    ensures var claim := o.verifyRefresh(token).value.payload;
            && db.reachable && HasId(db.rows, claim.userId)
            && Refresh(o, db, token).result.value
               == TokenPair(o.signAccess(claim).value, o.signRefresh(claim).value)
  {
  }

  // ---------------------------------------------------------------------------
  // all three

  /**
   * In all three pipelines, once every earlier step succeeded, a failure to sign
   * either token is INTERNAL_SERVER_ERROR "Failed to sign tokens" after all four steps.
   */
  lemma SigningFailureIsInternal(o: Oracles, db: Db, reg: RegisterDto, login: LoginDto, token: string)
    ensures RegisterReachesSigning(o, reg) && SignPair(o, RegisterPayload(o, reg)).Threw? ==>
              Register(o, reg) == Run(Failure(SignFailed), RegisterSteps)
    ensures LoginReachesSigning(o, db, login) && SignPair(o, LoginPayload(o, db, login)).Threw? ==>
              Login(o, db, login) == Run(Failure(SignFailed), LoginSteps)
    ensures RefreshReachesSigning(o, db, token) && SignPair(o, o.verifyRefresh(token).value.payload).Threw? ==>
              Refresh(o, db, token) == Run(Failure(SignFailed), RefreshSteps)
  {
  }
}
