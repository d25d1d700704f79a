/**
 * The guards in front of the admin routes. The `admin_token` cookie is
 * checked by `verifyToken`, a JWT verification that is a parameter here
 * (`None` when the signature or expiry check fails); the account it names
 * is then looked up, and its role decides.
 */
module Auth {
  import opened Common
  import opened Text
  import opened Store

  /** The claims of a valid token. */
  datatype Claims = Claims(userId: string, role: string)

  /** The caller the guard lets through: the `select { id, role }` of the account. */
  datatype Caller = Caller(id: string, role: string)

  /** The guard's verdict; `Crashed` when the account lookup threw. */
  datatype Verdict = Granted(caller: Caller) | Denied | Crashed

  /** The roles that may use the admin pages and routes. */
  predicate IsAdminRole(role: string) {
    role == "ADMIN" || role == "SUPER_ADMIN"
  }

  /**
   * The common ladder: no (or an empty) token, a token that fails
   * verification, or an unknown account is denied; otherwise the account's
   * role is tested by `allowed`.
   */
  function Guard(token: Option<string>, verify: string -> Option<Claims>,
                 accounts: seq<Account>, online: bool, allowed: string -> bool): (v: Verdict)
    ensures v.Granted? <==>
      && TruthyOpt(token) && verify(token.value).Some? && online
      && FindFirst(accounts, AccountId, verify(token.value).value.userId).Some?
      && allowed(FindFirst(accounts, AccountId, verify(token.value).value.userId).value.role)
    ensures v.Crashed? <==> TruthyOpt(token) && verify(token.value).Some? && !online
    ensures v.Granted? ==>
      var a := FindFirst(accounts, AccountId, verify(token.value).value.userId).value;
      a in accounts && v.caller == Caller(a.id, a.role) && a.id == verify(token.value).value.userId
  {
    if !TruthyOpt(token) then Denied
    else
      match verify(token.value)
      case None => Denied
      case Some(claims) =>
        if !online then Crashed
        else
          match FindFirst(accounts, AccountId, claims.userId)
          case None => Denied
          case Some(a) => if allowed(a.role) then Granted(Caller(a.id, a.role)) else Denied
  }

  /** `checkAdminAuth` of the magazines and options routes: ADMIN or SUPER_ADMIN. */
  function CheckAdminAuth(token: Option<string>, verify: string -> Option<Claims>,
                          accounts: seq<Account>, online: bool): (v: Verdict)
    ensures v.Granted? ==> IsAdminRole(v.caller.role)
    ensures !TruthyOpt(token) ==> v == Denied
  {
    Guard(token, verify, accounts, online, IsAdminRole)
  }

  /** `checkSuperAdminAuth` of the users route: SUPER_ADMIN only. */
  function CheckSuperAdminAuth(token: Option<string>, verify: string -> Option<Claims>,
                               accounts: seq<Account>, online: bool): (v: Verdict)
    ensures v.Granted? ==> v.caller.role == "SUPER_ADMIN"
    ensures !TruthyOpt(token) ==> v == Denied
  {
    Guard(token, verify, accounts, online, (role: string) => role == "SUPER_ADMIN")
  }

  /** Whoever passes the super-admin guard also passes the admin guard, as the same caller. */
  lemma SuperAdminIsAdmin(token: Option<string>, verify: string -> Option<Claims>,
                          accounts: seq<Account>, online: bool)
    ensures CheckSuperAdminAuth(token, verify, accounts, online).Granted? ==>
      CheckAdminAuth(token, verify, accounts, online) == CheckSuperAdminAuth(token, verify, accounts, online)
  {
  }

  /** The guard never looks at the role carried in the token, only at the stored account's role. */
  lemma TokenRoleIgnored(token: string, verify: string -> Option<Claims>, verify': string -> Option<Claims>,
                         accounts: seq<Account>, online: bool)
    requires verify(token).Some? && verify'(token).Some?
    requires verify(token).value.userId == verify'(token).value.userId
    ensures CheckAdminAuth(Some(token), verify, accounts, online) == CheckAdminAuth(Some(token), verify', accounts, online)
    ensures CheckSuperAdminAuth(Some(token), verify, accounts, online) == CheckSuperAdminAuth(Some(token), verify', accounts, online)
  {
  }
}
