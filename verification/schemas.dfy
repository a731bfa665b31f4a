/**
 * The shared schemas of the models package: the user record, the register DTOs
 * with their confirm-password refinement, and the token and auth response shapes.
 *
 * A Zod object schema is modelled by its set of keys. `pick`, `omit` and
 * `extend` are set operations on those keys, and parsing a value against an
 * object schema keeps exactly the keys of the schema (Zod strips unknown keys).
 * The typed datatypes below are the parsed values; the `...Record` functions
 * give their field-by-field view so that the two can be compared.
 */
module Schemas {
  import opened Wrappers

  type Key = string

  /** A field value of a parsed object. */
  datatype Value = Text(s: string) | Instant(ms: int) | Null | Object(fields: map<Key, Value>)

  /** `userSchema`: a stored user row. Timestamps are milliseconds since the epoch. */
  datatype User = User(
    id: string,
    name: string,
    email: string,
    password: string,
    createdAt: int,
    updatedAt: Option<int>,
    deletedAt: Option<int>)

  /** `userResponseSchema`: a user as it leaves the server, without the password hash. */
  datatype UserResponse = UserResponse(
    id: string,
    name: string,
    email: string,
    createdAt: int,
    updatedAt: Option<int>,
    deletedAt: Option<int>)

  /** `tokenPayloadSchema`: the claim both tokens carry. */
  datatype TokenPayload = TokenPayload(email: string, userId: string)

  /** `tokenResponseSchema`: the pair the refresh endpoint returns. */
  datatype TokenPair = TokenPair(accessToken: string, refreshToken: string)

  /** `userRegisterResponseSchema`: a token pair together with the user without password. */
  datatype AuthResponse = AuthResponse(accessToken: string, refreshToken: string, user: UserResponse)

  /** `userLoginResponseSchema` is the register response schema itself. */
  type LoginResponse = AuthResponse

  /** `userRegisterDto`. */
  datatype RegisterDto = RegisterDto(name: string, email: string, password: string)

  /** `userRegisterConfirmPasswordDto` before its refinement. */
  datatype ConfirmDto = ConfirmDto(name: string, email: string, password: string, confirmPassword: string)

  /** A Zod issue: its message and the path of the offending field. */
  datatype Issue = Issue(message: string, path: seq<Key>)

  // ---------------------------------------------------------------------------
  // Shapes, as key sets

  function Pick(shape: set<Key>, keys: set<Key>): set<Key> { shape * keys }
  function Omit(shape: set<Key>, keys: set<Key>): set<Key> { shape - keys }
  function Extend(shape: set<Key>, keys: set<Key>): set<Key> { shape + keys }

  const UserShape: set<Key> := {"id", "name", "email", "password", "createdAt", "updatedAt", "deletedAt"}
  const UserResponseShape: set<Key> := Omit(UserShape, {"password"})
  const RegisterDtoShape: set<Key> := Pick(UserShape, {"name", "email", "password"})
  const ConfirmShape: set<Key> := Extend(RegisterDtoShape, {"confirmPassword"})
  const TokenPayloadShape: set<Key> := {"email", "userId"}
  const TokenResponseShape: set<Key> := {"accessToken", "refreshToken"}
  const RegisterResponseShape: set<Key> :=
    Extend(Pick(TokenResponseShape, {"accessToken", "refreshToken"}), {"user"})
  const LoginResponseShape: set<Key> := RegisterResponseShape

  /** The register DTOs pick exactly name, email and password; the confirm DTO adds `confirmPassword`. */
  lemma DtoShapesExact()
    ensures RegisterDtoShape == {"name", "email", "password"}
    ensures ConfirmShape == {"name", "email", "password", "confirmPassword"}
  {
  }

  /** The response shapes: the user without password, the payload, the pair, and register = login. */
  lemma ResponseShapesExact()
    ensures UserResponseShape == {"id", "name", "email", "createdAt", "updatedAt", "deletedAt"}
    ensures "password" !in UserResponseShape
    ensures TokenPayloadShape == {"email", "userId"}
    ensures TokenResponseShape == {"accessToken", "refreshToken"}
    ensures RegisterResponseShape == {"accessToken", "refreshToken", "user"}
    ensures LoginResponseShape == RegisterResponseShape
  {
  }

  /** Parsing an object against a shape keeps exactly the shape's keys that are present. */
  function Strip<V>(rec: map<Key, V>, shape: set<Key>): (r: map<Key, V>)
    ensures r.Keys == rec.Keys * shape
    ensures forall k :: k in r ==> r[k] == rec[k]
  {
    map k | k in rec && k in shape :: rec[k]
  }

  /** Parsing twice against the same shape is parsing once. */
  lemma StripIdempotent<V>(rec: map<Key, V>, shape: set<Key>)
    ensures Strip(Strip(rec, shape), shape) == Strip(rec, shape)
  {
  }

  // ---------------------------------------------------------------------------
  // Field-by-field views of the typed values

  function Stamp(t: Option<int>): Value {
    if t.Some? then Instant(t.value) else Null
  }

  function UserRecord(u: User): (r: map<Key, Value>)
    ensures r.Keys == UserShape
  {
    map["id" := Text(u.id), "name" := Text(u.name), "email" := Text(u.email),
        "password" := Text(u.password), "createdAt" := Instant(u.createdAt),
        "updatedAt" := Stamp(u.updatedAt), "deletedAt" := Stamp(u.deletedAt)]
  }

  function ResponseRecord(u: UserResponse): (r: map<Key, Value>)
    ensures r.Keys == UserResponseShape
  {
    map["id" := Text(u.id), "name" := Text(u.name), "email" := Text(u.email),
        "createdAt" := Instant(u.createdAt),
        "updatedAt" := Stamp(u.updatedAt), "deletedAt" := Stamp(u.deletedAt)]
  }

  function RegisterRecord(d: RegisterDto): (r: map<Key, Value>)
    ensures r.Keys == RegisterDtoShape
  {
    map["name" := Text(d.name), "email" := Text(d.email), "password" := Text(d.password)]
  }

  function ConfirmRecord(d: ConfirmDto): (r: map<Key, Value>)
    ensures r.Keys == ConfirmShape
  {
    map["name" := Text(d.name), "email" := Text(d.email), "password" := Text(d.password),
        "confirmPassword" := Text(d.confirmPassword)]
  }

  function AuthResponseRecord(r: AuthResponse): map<Key, Value> {
    map["accessToken" := Text(r.accessToken), "refreshToken" := Text(r.refreshToken),
        "user" := Object(ResponseRecord(r.user))]
  }

  // ---------------------------------------------------------------------------
  // The user projection

  /** Parsing a user row with `userResponseSchema`: every field but the password. */
  function ToResponse(u: User): (r: UserResponse)
    ensures WithPassword(r, u.password) == u
  {
    UserResponse(u.id, u.name, u.email, u.createdAt, u.updatedAt, u.deletedAt)
  }

  /** The inverse direction: a response together with a password hash is a user row. */
  function WithPassword(r: UserResponse, password: string): User {
    User(r.id, r.name, r.email, password, r.createdAt, r.updatedAt, r.deletedAt)
  }

  /**
   * The typed projection is the schema's `omit({ password: true })`: parsing the
   * user's record strips exactly the password and keeps every other field unchanged.
   */
  lemma ProjectionIsOmit(u: User)
    ensures Strip(UserRecord(u), UserResponseShape) == ResponseRecord(ToResponse(u))
    ensures forall k :: k in UserShape && k != "password" ==>
              k in ResponseRecord(ToResponse(u)) && ResponseRecord(ToResponse(u))[k] == UserRecord(u)[k]
    ensures "password" !in ResponseRecord(ToResponse(u))
  {
    var a := Strip(UserRecord(u), UserResponseShape);
    var b := ResponseRecord(ToResponse(u));
    assert a.Keys == b.Keys;
    forall k | k in a
      ensures a[k] == b[k]
    {
    }
  }

  /**
   * The projection loses the password and nothing else: putting the password
   * back restores the row, and projecting a re-assembled row gives the same response.
   */
  lemma ProjectionDropsOnlyPassword(u: User, r: UserResponse, p: string)
    ensures WithPassword(ToResponse(u), u.password) == u
    ensures ToResponse(WithPassword(r, p)) == r
    ensures ToResponse(u) == ToResponse(u.(password := p))
  {
  }

  /** Projecting an already projected user changes nothing. */
  lemma ProjectionIdempotent(u: User)
    ensures Strip(Strip(UserRecord(u), UserResponseShape), UserResponseShape)
         == ResponseRecord(ToResponse(u))
  {
    StripIdempotent(UserRecord(u), UserResponseShape);
    ProjectionIsOmit(u);
  }

  /** The output parse of register and login: tokens kept, the user projected. */
  function RespondWith(tokens: TokenPair, u: User): (r: AuthResponse)
    ensures r.accessToken == tokens.accessToken && r.refreshToken == tokens.refreshToken
    ensures WithPassword(r.user, u.password) == u
  {
    AuthResponse(tokens.accessToken, tokens.refreshToken, ToResponse(u))
  }

  /** A register (and so a login) response has exactly the three fields, and its user no password. */
  lemma RegisterResponseExact(tokens: TokenPair, u: User)
    ensures AuthResponseRecord(RespondWith(tokens, u)).Keys == RegisterResponseShape
    ensures AuthResponseRecord(RespondWith(tokens, u)).Keys == LoginResponseShape
    ensures AuthResponseRecord(RespondWith(tokens, u))["user"]
         == Object(Strip(UserRecord(u), UserResponseShape))
  {
    ProjectionIsOmit(u);
  }

  // ---------------------------------------------------------------------------
  // The register DTOs

  const PasswordMismatch: Issue := Issue("Passwords do not match", ["confirmPassword"])

  /** The `refine` of `userRegisterConfirmPasswordDto`: exact string equality of the two passwords. */
  function RefineConfirm(d: ConfirmDto): (r: Result<ConfirmDto, Issue>)
    ensures r.Success? <==> d.password == d.confirmPassword
    ensures r.Success? ==> r.value == d
    ensures r.Failure? ==> r.error == PasswordMismatch
  {
    if d.password == d.confirmPassword then Success(d) else Failure(PasswordMismatch)
  }

  /** Dropping `confirmPassword`, which is parsing with `userRegisterDto`. */
  function DropConfirm(d: ConfirmDto): (r: RegisterDto)
    ensures RegisterRecord(r) == Strip(ConfirmRecord(d), RegisterDtoShape)
  {
    var r := RegisterDto(d.name, d.email, d.password);
    assert RegisterRecord(r).Keys == Strip(ConfirmRecord(d), RegisterDtoShape).Keys;
    r
  }

  /**
   * An accepted confirm record, stripped of `confirmPassword`, is a register DTO
   * with the same name, email and password, and that password is the confirmed one.
   */
  lemma AcceptedConfirmIsRegister(d: ConfirmDto)
    requires RefineConfirm(d).Success?
    ensures RegisterRecord(DropConfirm(d)).Keys == RegisterDtoShape
    ensures DropConfirm(d).password == d.confirmPassword
    ensures DropConfirm(d).name == d.name && DropConfirm(d).email == d.email
  {
  }
}
