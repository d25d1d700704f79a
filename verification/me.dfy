/**
 * `GET /api/admin/auth/me`: a read-only ladder over the session cookie,
 * its verification and the account it names, answering with the public
 * part of an admin account.
 */
module Me {
  import opened Common
  import opened Text
  import opened Store
  import opened Auth
  import Login

  const NoToken := "Không có token"
  const BadToken := "Token không hợp lệ"
  const Forbidden := "Không có quyền truy cập"
  const ServerError := "Có lỗi xảy ra"

  /** The answer for the `admin_token` cookie `token`; `online` false makes the lookup throw. */
  function Me(token: Option<string>, verify: string -> Option<Claims>, accounts: seq<Account>, online: bool)
    : (r: ApiResult<PublicUser>)
    ensures !TruthyOpt(token) ==> r == Fail(401, NoToken)
    ensures TruthyOpt(token) && verify(token.value).None? ==> r == Fail(401, BadToken)
    ensures TruthyOpt(token) && verify(token.value).Some? ==>
      var found := FindFirst(accounts, AccountId, verify(token.value).value.userId);
      && (r == Fail(500, ServerError) <==> !online)
      && (r == Fail(403, Forbidden) <==> online && (found.None? || !IsAdminRole(found.value.role)))
      && (r.Done? <==> online && found.Some? && IsAdminRole(found.value.role))
    ensures r.Done? ==>
      && r.status == 200 && IsAdminRole(r.value.role)
      && exists a :: a in accounts && a.id == verify(token.value).value.userId && r.value == Public(a)
  {
    if !TruthyOpt(token) then Fail(401, NoToken)
    else
      match verify(token.value)
      case None => Fail(401, BadToken)
      case Some(claims) =>
        if !online then Fail(500, ServerError)
        else
          match FindFirst(accounts, AccountId, claims.userId)
          case None => Fail(403, Forbidden)
          case Some(a) => if !IsAdminRole(a.role) then Fail(403, Forbidden) else Done(200, Public(a))
  }

  /** The route accepts exactly the callers the admin guard of the other routes accepts, as the same account. */
  lemma MeAgreesWithAdminGuard(token: Option<string>, verify: string -> Option<Claims>,
                               accounts: seq<Account>, online: bool)
    ensures Me(token, verify, accounts, online).Done? <==> CheckAdminAuth(token, verify, accounts, online).Granted?
    ensures Me(token, verify, accounts, online).Done? ==>
      var u := Me(token, verify, accounts, online).value;
      CheckAdminAuth(token, verify, accounts, online).caller == Caller(u.id, u.role)
    ensures Me(token, verify, accounts, online).status == 500 <==> CheckAdminAuth(token, verify, accounts, online).Crashed?
  {
  }

  /**
   * After a successful login, the cookie it set makes this route answer with
   * the same account, provided account ids are unique and verification
   * accepts what the signer issued.
   */
  lemma LoginThenMe(body: Option<Login.LoginBody>, accounts: seq<Account>, matches: (string, string) -> bool,
                    sign: (string, string) -> Option<string>, verify: string -> Option<Claims>)
    requires UniqueKeys(accounts, AccountId)
    requires Login.LoginResult(body, accounts, true, matches, sign, true).Done?
    requires var u := Login.LoginResult(body, accounts, true, matches, sign, true).value;
      var token := sign(u.id, u.role).value;
      token != "" && verify(token) == Some(Claims(u.id, u.role))
    ensures var u := Login.LoginResult(body, accounts, true, matches, sign, true).value;
      Me(Some(sign(u.id, u.role).value), verify, accounts, true) == Done(200, u)
  {
    Login.SuccessIsAuthenticatedAdmin(body, accounts, true, matches, sign, true);
    var u := Login.LoginResult(body, accounts, true, matches, sign, true).value;
    var acc :| acc in accounts && Some(acc.email) == body.value.email &&
      matches(body.value.password.value, acc.passwordHash) && u == Public(acc);
    FindFirstUnique(accounts, AccountId, acc);
  }
}
