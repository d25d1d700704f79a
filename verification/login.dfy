/**
 * `POST /api/admin/auth/login`: an early-return ladder over the request
 * body, the credential check, the role, the token and the cookie store,
 * ending in the `admin_token` cookie being written. bcrypt's comparison and
 * the JWT signer are parameters; the cookie store is a small object.
 */
module Login {
  import opened Common
  import opened Text
  import opened Store
  import opened Auth

  /** The `email` and `password` of the JSON body; `None` when the field is absent. */
  datatype LoginBody = LoginBody(email: Option<string>, password: Option<string>)

  /** What `authenticateUser` gives back: the public account, nothing, or an exception. */
  datatype Authentication = Authenticated(user: PublicUser) | NoMatch | AuthThrew

  /** A cookie with the options the route sets. */
  datatype Cookie = Cookie(value: string, httpOnly: bool, secure: bool, sameSite: string, maxAge: int)

  const SessionCookieName := "admin_token"

  /** Seven days, in seconds. */
  const TokenLifetime := 7 * 24 * 60 * 60

  const OuterError := "Có lỗi xảy ra khi đăng nhập 500"
  const MissingFields := "Email và mật khẩu là bắt buộc"
  const AuthError := "Lỗi khi xác thực tài khoản"
  const WrongCredentials := "Email hoặc mật khẩu không chính xác"
  const Forbidden := "Không có quyền truy cập"
  const TokenError := "Không thể tạo token"
  const CookieError := "Không thể lưu cookie"

  /** The session cookie: HTTP-only, `lax`, secure in production, valid for a week. */
  function SessionCookie(token: string, production: bool): (c: Cookie)
    ensures c.value == token && c.maxAge == 604800
    ensures c.httpOnly && c.sameSite == "lax" && (c.secure <==> production)
  {
    Cookie(token, true, production, "lax", TokenLifetime)
  }

  /**
   * `authenticateUser`: the account with this email, when `matches` (bcrypt's
   * comparison of the password with the stored hash) accepts the password.
   */
  function AuthenticateUser(accounts: seq<Account>, online: bool, email: string, password: string,
                            matches: (string, string) -> bool): (a: Authentication)
    ensures a.AuthThrew? <==> !online
    ensures a.Authenticated? ==>
      exists acc :: acc in accounts && acc.email == email && matches(password, acc.passwordHash) && a.user == Public(acc)
    ensures online && (forall acc :: acc in accounts && acc.email == email ==> !matches(password, acc.passwordHash)) ==>
      a == NoMatch
    ensures var found := FindFirst(accounts, AccountEmail, email);
      online && found.Some? && matches(password, found.value.passwordHash) ==> a == Authenticated(Public(found.value))
  {
    if !online then AuthThrew
    else
      match FindFirst(accounts, AccountEmail, email)
      case None => NoMatch
      case Some(acc) => if matches(password, acc.passwordHash) then Authenticated(Public(acc)) else NoMatch
  }

  /**
   * With emails unique, as the table's `@unique` column guarantees, the
   * account holding this email authenticates exactly when its hash accepts
   * the password, and then it is the user answered.
   */
  lemma {:induction false} CorrectCredentialsAuthenticate(accounts: seq<Account>, email: string, password: string,
                                                          matches: (string, string) -> bool)
    requires UniqueKeys(accounts, AccountEmail)
    ensures AuthenticateUser(accounts, true, email, password, matches).Authenticated? <==>
      exists acc :: acc in accounts && acc.email == email && matches(password, acc.passwordHash)
    ensures forall acc :: acc in accounts && acc.email == email && matches(password, acc.passwordHash) ==>
      AuthenticateUser(accounts, true, email, password, matches) == Authenticated(Public(acc))
  {
    forall acc | acc in accounts && acc.email == email && matches(password, acc.passwordHash)
      ensures AuthenticateUser(accounts, true, email, password, matches) == Authenticated(Public(acc))
    {
      FindFirstUnique(accounts, AccountEmail, acc);
    }
  }

  /** Both fields are present and non-empty. */
  predicate HasCredentials(body: LoginBody) {
    TruthyOpt(body.email) && TruthyOpt(body.password)
  }

  /**
   * The answer of the route. `sign` is `generateToken` (`None` when it
   * throws) and `cookiesWritable` says whether the cookie store accepts the
   * cookie.
   */
  function LoginResult(body: Option<LoginBody>, accounts: seq<Account>, online: bool,
                       matches: (string, string) -> bool, sign: (string, string) -> Option<string>,
                       cookiesWritable: bool): (r: ApiResult<PublicUser>)
    ensures body.None? ==> r == Fail(500, OuterError)
    ensures body.Some? && !HasCredentials(body.value) ==> r == Fail(400, MissingFields)
    ensures body.Some? && HasCredentials(body.value) ==>
      var auth := AuthenticateUser(accounts, online, body.value.email.value, body.value.password.value, matches);
      && (r == Fail(500, AuthError) <==> auth.AuthThrew?)
      && (r == Fail(401, WrongCredentials) <==> auth.NoMatch?)
      && (r == Fail(403, Forbidden) <==> auth.Authenticated? && !IsAdminRole(auth.user.role))
      && (r == Fail(500, TokenError) <==>
            auth.Authenticated? && IsAdminRole(auth.user.role) && sign(auth.user.id, auth.user.role).None?)
      && (r == Fail(500, CookieError) <==>
            auth.Authenticated? && IsAdminRole(auth.user.role) &&
            sign(auth.user.id, auth.user.role).Some? && !cookiesWritable)
      && (r.Done? <==>
            auth.Authenticated? && IsAdminRole(auth.user.role) &&
            sign(auth.user.id, auth.user.role).Some? && cookiesWritable)
      && (r.Done? ==> r == Done(200, auth.user))
  {
    match body
    case None => Fail(500, OuterError)
    case Some(b) =>
      if !HasCredentials(b) then Fail(400, MissingFields)
      else
        match AuthenticateUser(accounts, online, b.email.value, b.password.value, matches)
        case AuthThrew => Fail(500, AuthError)
        case NoMatch => Fail(401, WrongCredentials)
        case Authenticated(user) =>
          if !IsAdminRole(user.role) then Fail(403, Forbidden)
          else if sign(user.id, user.role).None? then Fail(500, TokenError)
          else if !cookiesWritable then Fail(500, CookieError)
          else Done(200, user)
  }

  /** A successful login answers with an admin account whose email and password were accepted. */
  lemma SuccessIsAuthenticatedAdmin(body: Option<LoginBody>, accounts: seq<Account>, online: bool,
                                    matches: (string, string) -> bool, sign: (string, string) -> Option<string>,
                                    cookiesWritable: bool)
    requires LoginResult(body, accounts, online, matches, sign, cookiesWritable).Done?
    ensures var r := LoginResult(body, accounts, online, matches, sign, cookiesWritable);
      && body.Some? && online && r.status == 200 && IsAdminRole(r.value.role)
      && exists acc :: acc in accounts && Some(acc.email) == body.value.email &&
           matches(body.value.password.value, acc.passwordHash) && r.value == Public(acc)
  {
    var b := body.value;
    var auth := AuthenticateUser(accounts, online, b.email.value, b.password.value, matches);
    assert auth.Authenticated?;
  }

  /** The browser's cookies for this site. */
  class CookieJar {
    var cookies: map<string, Cookie>
    /** The store accepts writes; when false `set` throws. */
    var writable: bool

    constructor (cookies: map<string, Cookie>, writable: bool)
      ensures this.cookies == cookies && this.writable == writable
    {
      this.cookies, this.writable := cookies, writable;
    }
  }

  /**
   * The route: the ladder of `LoginResult`, and the cookie written only on
   * success; every refusal leaves the cookies as they were.
   */
  method Post(body: Option<LoginBody>, db: Database, matches: (string, string) -> bool,
              sign: (string, string) -> Option<string>, production: bool, jar: CookieJar)
    returns (r: ApiResult<PublicUser>)
    modifies jar`cookies
    ensures r == LoginResult(body, db.accounts, db.online, matches, sign, jar.writable)
    ensures r.Done? ==>
      jar.cookies == old(jar.cookies)[SessionCookieName := SessionCookie(sign(r.value.id, r.value.role).value, production)]
    ensures r.Fail? ==> jar.cookies == old(jar.cookies)
  {
    if body.None? {
      return Fail(500, OuterError);
    }
    var b := body.value;
    if !TruthyOpt(b.email) || !TruthyOpt(b.password) {
      return Fail(400, MissingFields);
    }
    var auth := AuthenticateUser(db.accounts, db.online, b.email.value, b.password.value, matches);
    if auth.AuthThrew? {
      return Fail(500, AuthError);
    }
    if auth.NoMatch? {
      return Fail(401, WrongCredentials);
    }
    var user := auth.user;
    if user.role != "ADMIN" && user.role != "SUPER_ADMIN" {
      return Fail(403, Forbidden);
    }
    var token := sign(user.id, user.role);
    if token.None? {
      return Fail(500, TokenError);
    }
    if !jar.writable {
      return Fail(500, CookieError);
    }
    jar.cookies := jar.cookies[SessionCookieName := SessionCookie(token.value, production)];
    r := Done(200, user);
  }
}
