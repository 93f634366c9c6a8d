/** app/schemas/user.py: the user and token shapes and their field
    constraints, as validity predicates. */
module UserSchemas {
  import opened Wrappers
  import opened Json

  /** `UserBase`. */
  datatype UserBase = UserBase(fullName: string, username: string)

  /** `UserCreate`: the base fields and a password. */
  datatype UserCreate = UserCreate(fullName: string, username: string, password: string)

  /** `UserLogin`. */
  datatype UserLogin = UserLogin(username: string, password: string)

  predicate ValidUserBase(u: UserBase)
  {
    2 <= |u.fullName| <= 100 && 3 <= |u.username| <= 50
  }

  predicate ValidUserCreate(u: UserCreate)
  {
    ValidUserBase(UserBase(u.fullName, u.username)) && |u.password| >= 8
  }

  /** The field names whose constraints a `UserCreate` body breaks, in
      declaration order; empty exactly when the body is valid. */
  function UserCreateErrors(u: UserCreate): (errs: seq<string>)
    ensures errs == [] <==> ValidUserCreate(u)
    ensures "full_name" in errs <==> !(2 <= |u.fullName| <= 100)
    ensures "username" in errs <==> !(3 <= |u.username| <= 50)
    ensures "password" in errs <==> |u.password| < 8
  {
    (if 2 <= |u.fullName| <= 100 then [] else ["full_name"])
    + (if 3 <= |u.username| <= 50 then [] else ["username"])
    + (if |u.password| >= 8 then [] else ["password"])
  }

  /** A password has no upper bound: any base-valid user with a password of
      at least eight characters is accepted, however long the password. */
  lemma PasswordUnbounded(u: UserCreate, extra: string)
    requires ValidUserCreate(u)
    ensures ValidUserCreate(u.(password := u.password + extra))
    ensures |u.(password := u.password + extra).password| >= |u.password|
  {
  }

  /** A login body is never refused for its lengths: even credentials no
      user could have been created with are accepted. */
  function UserLoginErrors(u: UserLogin): (errs: seq<string>)
    ensures errs == []
  {
    []
  }

  /** Whatever the full name, credentials that user creation refuses for
      their lengths are still accepted by the login schema. */
  lemma LoginLooserThanCreate(fullName: string, l: UserLogin)
    requires |l.username| < 3 || |l.username| > 50 || |l.password| < 8
    ensures UserLoginErrors(l) == []
    ensures !ValidUserCreate(UserCreate(fullName, l.username, l.password))
    ensures UserCreateErrors(UserCreate(fullName, l.username, l.password)) != []
  {
  }

  /** `Token`. */
  datatype Token = Token(accessToken: string, refreshToken: string, tokenType: string)

  /** Building a `Token`: an omitted token type is "bearer". */
  function MakeToken(accessToken: string, refreshToken: string, tokenType: Option<string>): (t: Token)
    ensures tokenType.None? ==> t.tokenType == "bearer"
    ensures tokenType.Some? ==> t.tokenType == tokenType.value
    ensures t.accessToken == accessToken && t.refreshToken == refreshToken
  {
    Token(accessToken, refreshToken, tokenType.GetOr("bearer"))
  }

  /** `TokenPayload`: the subject and the expiry instant. */
  datatype TokenPayload = TokenPayload(sub: string, exp: int)

  /** Validating a decoded token body: `sub` must be present and a string,
      `exp` present and an integer; the names of the failing fields are
      reported. Other keys are ignored. */
  function ParseTokenPayload(body: Object): (r: Result<TokenPayload, seq<string>>)
    ensures r.Ok? <==> "sub" in body && body["sub"].JStr? && "exp" in body && body["exp"].JInt?
    ensures r.Ok? ==> JStr(r.value.sub) == body["sub"] && JInt(r.value.exp) == body["exp"]
    ensures r.Err? ==> forall f :: f in r.error ==> f in {"sub", "exp"}
    ensures r.Err? ==> ("sub" in r.error <==> !("sub" in body && body["sub"].JStr?))
    ensures r.Err? ==> ("exp" in r.error <==> !("exp" in body && body["exp"].JInt?))
  {
    var subOk := "sub" in body && body["sub"].JStr?;
    var expOk := "exp" in body && body["exp"].JInt?;
    if subOk && expOk then Ok(TokenPayload(body["sub"].s, body["exp"].i))
    else Err((if subOk then [] else ["sub"]) + (if expOk then [] else ["exp"]))
  }

  /** Rendering a payload back as a body and validating it gives the same
      payload. */
  lemma TokenPayloadRoundTrip(p: TokenPayload)
    ensures ParseTokenPayload(map["sub" := JStr(p.sub), "exp" := JInt(p.exp)]) == Ok(p)
  {
  }

  /** `TokenRefresh`: a refresh token, any string. */
  datatype TokenRefresh = TokenRefresh(refreshToken: string)

  /** Validating a refresh body: `refresh_token` must be a string. */
  function ParseTokenRefresh(body: Object): (r: Option<TokenRefresh>)
    ensures r.Some? <==> "refresh_token" in body && body["refresh_token"].JStr?
    ensures r.Some? ==> JStr(r.value.refreshToken) == body["refresh_token"]
  {
    if "refresh_token" in body && body["refresh_token"].JStr? then Some(TokenRefresh(body["refresh_token"].s))
    else None
  }
}
