/**
 * `/api/admin/users`, reserved to super admins: the listing of the admin
 * accounts, newest first, with the ids of their magazines (`GET`), and the
 * creation of an account (`POST`): validation, the duplicate-email check and
 * the insert with its defaults. `hashPassword` is the parameter `hash`, the
 * generated id and the creation time are parameters too.
 */
module UsersRoute {
  import opened Common
  import opened Text
  import opened Sequences
  import opened Sorting
  import opened Store
  import opened Auth

  /** The fields of the JSON body; `None` when absent. */
  datatype NewUserBody = NewUserBody(email: Option<string>, name: Option<string>, password: Option<string>, role: Option<string>)

  /** A listed account, without its password hash. */
  datatype ListedUser = ListedUser(
    id: string, email: string, name: Option<string>, role: string, createdAt: int, magazineIds: seq<string>)

  /** A listed account as the route as written sends it: every column, the hash included. */
  datatype ListedUserAsWritten = ListedUserAsWritten(
    id: string, email: string, name: Option<string>, password: string, role: string, createdAt: int,
    magazineIds: seq<string>)

  /** The `select` of the created account. */
  datatype CreatedUser = CreatedUser(id: string, email: string, name: Option<string>, role: string, createdAt: int)

  const Forbidden := "Không có quyền truy cập"
  const FetchFailed := "Failed to fetch users"
  const CreateFailed := "Failed to create user"
  const MissingFields := "Email và mật khẩu là bắt buộc"
  const EmailTaken := "Email đã được sử dụng"

  /** The `where` of the listing: the two admin roles. */
  const Listed: Account -> bool := (a: Account) => IsAdminRole(a.role)

  /** The `orderBy { createdAt: 'desc' }` of the listing. */
  const NewerFirst: (Account, Account) -> bool := (a: Account, b: Account) => a.createdAt >= b.createdAt

  /** The same order on listed rows. */
  const RowNewerFirst: (ListedUser, ListedUser) -> bool := (u: ListedUser, v: ListedUser) => u.createdAt >= v.createdAt

  /** The accounts listed: every admin account, each once, newest first. */
  function ListedAccounts(accounts: seq<Account>): (r: seq<Account>)
    ensures multiset(r) == multiset(Filter(accounts, Listed))
    ensures forall a :: a in r <==> a in accounts && IsAdminRole(a.role)
    ensures forall i, j :: 0 <= i < j < |r| ==> r[i].createdAt >= r[j].createdAt
  {
    var r := Sort(Filter(accounts, Listed), NewerFirst);
    SortIsSorted(Filter(accounts, Listed), NewerFirst);
    FilterMembers(accounts, Listed);
    assert forall a :: a in r <==> a in multiset(r);
    r
  }

  function MagazineId(m: MagazineRow): string { m.id }

  /** The `include { magazines: { select: { id } } }`: the ids of the magazines this account wrote. */
  function MagazineIds(magazines: seq<MagazineRow>, authorId: string): seq<string> {
    Map(Filter(magazines, (m: MagazineRow) => m.authorId == authorId), MagazineId)
  }

  /** The listed row of an account, without the hash. */
  function Row(magazines: seq<MagazineRow>): Account -> ListedUser {
    (a: Account) => ListedUser(a.id, a.email, a.name, a.role, a.createdAt, MagazineIds(magazines, a.id))
  }

  /** The listed row of an account as the route as written builds it. */
  function RowAsWritten(magazines: seq<MagazineRow>): Account -> ListedUserAsWritten {
    (a: Account) => ListedUserAsWritten(a.id, a.email, a.name, a.passwordHash, a.role, a.createdAt, MagazineIds(magazines, a.id))
  }

  /** `GET` as written: every column of each listed account is sent. */
  function GetAsWritten(token: Option<string>, verify: string -> Option<Claims>, accounts: seq<Account>,
                        magazines: seq<MagazineRow>, online: bool): (r: ApiResult<seq<ListedUserAsWritten>>)
    ensures CheckSuperAdminAuth(token, verify, accounts, online).Denied? ==> r == Fail(401, Forbidden)
    ensures CheckSuperAdminAuth(token, verify, accounts, online).Crashed? ==> r == Fail(500, FetchFailed)
    ensures r.Done? ==>
      var listed := ListedAccounts(accounts);
      |r.value| == |listed| &&
      forall i :: 0 <= i < |r.value| ==> r.value[i].password == listed[i].passwordHash
  {
    match CheckSuperAdminAuth(token, verify, accounts, online)
    case Denied => Fail(401, Forbidden)
    case Crashed => Fail(500, FetchFailed)
    case Granted(_) => Done(200, Map(ListedAccounts(accounts), RowAsWritten(magazines)))
  }

  /** The listed rows are the rows of the admin accounts, reordered. */
  lemma ListedRowsArePermutation(accounts: seq<Account>, magazines: seq<MagazineRow>)
    ensures multiset(Map(ListedAccounts(accounts), Row(magazines))) ==
      multiset(Map(Filter(accounts, Listed), Row(magazines)))
  {
    forall a, b ensures NewerFirst(a, b) == RowNewerFirst(Row(magazines)(a), Row(magazines)(b)) {
    }
    MapSort(Filter(accounts, Listed), NewerFirst, Row(magazines), RowNewerFirst);
  }

  /** `GET`: the admin accounts, newest first, each with its magazine ids and without its hash. */
  function Get(token: Option<string>, verify: string -> Option<Claims>, accounts: seq<Account>,
               magazines: seq<MagazineRow>, online: bool): (r: ApiResult<seq<ListedUser>>)
    ensures CheckSuperAdminAuth(token, verify, accounts, online).Denied? ==> r == Fail(401, Forbidden)
    ensures CheckSuperAdminAuth(token, verify, accounts, online).Crashed? ==> r == Fail(500, FetchFailed)
    ensures r.Done? <==> CheckSuperAdminAuth(token, verify, accounts, online).Granted?
    ensures r.Done? ==>
      && r.status == 200
      && (forall u :: u in r.value ==> IsAdminRole(u.role))
      && (forall a :: a in accounts && IsAdminRole(a.role) ==> Row(magazines)(a) in r.value)
      && (forall i, j :: 0 <= i < j < |r.value| ==> r.value[i].createdAt >= r.value[j].createdAt)
    ensures r.Done? ==>
      && r.value == Map(ListedAccounts(accounts), Row(magazines))
      && multiset(r.value) == multiset(Map(Filter(accounts, Listed), Row(magazines)))
      && (forall u :: u in r.value ==> exists a :: a in accounts && IsAdminRole(a.role) && u == Row(magazines)(a))
  {
    match CheckSuperAdminAuth(token, verify, accounts, online)
    case Denied => Fail(401, Forbidden)
    case Crashed => Fail(500, FetchFailed)
    case Granted(_) =>
      var listed := ListedAccounts(accounts);
      var rows := Map(listed, Row(magazines));
      assert forall a :: a in listed ==> Row(magazines)(a) in rows by {
        forall a | a in listed ensures Row(magazines)(a) in rows {
          var k :| 0 <= k < |listed| && listed[k] == a;
          assert rows[k] == Row(magazines)(a);
        }
      }
      ListedRowsArePermutation(accounts, magazines);
      forall u | u in rows ensures exists a :: a in accounts && IsAdminRole(a.role) && u == Row(magazines)(a) {
        var k :| 0 <= k < |rows| && rows[k] == u;
        assert listed[k] in listed;
      }
      Done(200, rows)
  }

  /** An account with its hash blanked out: what two tables that differ only in hashes have in common. */
  function Stripped(a: Account): Account {
    a.(passwordHash := "")
  }

  /** The listing sent by `Get` does not depend on the stored password hashes. */
  lemma ListingIgnoresPasswords(accounts: seq<Account>, accounts': seq<Account>, magazines: seq<MagazineRow>)
    requires Map(accounts, Stripped) == Map(accounts', Stripped)
    ensures Map(ListedAccounts(accounts), Row(magazines)) == Map(ListedAccounts(accounts'), Row(magazines))
  {
    forall t | t in [accounts, accounts']
      ensures Map(ListedAccounts(t), Row(magazines)) == Map(ListedAccounts(Map(t, Stripped)), Row(magazines))
    {
      MapFilter(t, Listed, Stripped, Listed);
      MapSort(Filter(t, Listed), NewerFirst, Stripped, NewerFirst);
      var listed := ListedAccounts(t);
      var stripped := Map(listed, Stripped);
      assert Map(listed, Row(magazines)) == Map(stripped, Row(magazines)) by {
        forall i | 0 <= i < |listed| ensures Row(magazines)(listed[i]) == Row(magazines)(stripped[i]) {
        }
      }
    }
  }

  /** The listing as written does send the hashes: a super admin's own request returns its hash. */
  lemma ListingAsWrittenSendsHash(verify: string -> Option<Claims>)
    requires verify("jwt") == Some(Claims("u1", "SUPER_ADMIN"))
    ensures
      var root := Account("u1", "root@pdu.edu.vn", None, "$2a$12$hash", "SUPER_ADMIN", 0);
      GetAsWritten(Some("jwt"), verify, [root], [], true) ==
        Done(200, [ListedUserAsWritten("u1", "root@pdu.edu.vn", None, "$2a$12$hash", "SUPER_ADMIN", 0, [])])
  {
    var root := Account("u1", "root@pdu.edu.vn", None, "$2a$12$hash", "SUPER_ADMIN", 0);
    assert FindFirst([root], AccountId, "u1") == Some(root);
    assert CheckSuperAdminAuth(Some("jwt"), verify, [root], true) == Granted(Caller("u1", "SUPER_ADMIN"));
    assert Filter([root], Listed) == [root] by {
      FilterCons(root, [], Listed);
    }
    assert ListedAccounts([root]) == [root];
    assert MagazineIds([], "u1") == [];
    var rows := Map([root], RowAsWritten([]));
    assert rows == [ListedUserAsWritten("u1", "root@pdu.edu.vn", None, "$2a$12$hash", "SUPER_ADMIN", 0, [])];
    assert GetAsWritten(Some("jwt"), verify, [root], [], true) == Done(200, rows);
  }

  /** Both fields are present and non-empty. */
  predicate HasCredentials(body: NewUserBody) {
    TruthyOpt(body.email) && TruthyOpt(body.password)
  }

  /** The stored account: the hash of the password, name `null` and role `ADMIN` when not given. */
  function NewAccount(body: NewUserBody, hash: string -> string, newId: string, now: int): (a: Account)
    requires HasCredentials(body)
    ensures a.id == newId && a.email == body.email.value && a.createdAt == now
    ensures a.passwordHash == hash(body.password.value)
    ensures TruthyOpt(body.name) ==> a.name == body.name
    ensures !TruthyOpt(body.name) ==> a.name == None
    ensures TruthyOpt(body.role) ==> a.role == body.role.value
    ensures !TruthyOpt(body.role) ==> a.role == "ADMIN"
  {
    Account(newId, body.email.value, if TruthyOpt(body.name) then body.name else None,
            hash(body.password.value), OrElse(GetOr(body.role, ""), "ADMIN"), now)
  }

  /** The email is already in the table. */
  predicate EmailInUse(accounts: seq<Account>, email: string) {
    FindFirst(accounts, AccountEmail, email).Some?
  }

  /** The answer of `POST`; `body` is `None` when the request body is not JSON. */
  function PostResult(token: Option<string>, verify: string -> Option<Claims>, body: Option<NewUserBody>,
                      accounts: seq<Account>, online: bool, hash: string -> string, newId: string, now: int)
    : (r: ApiResult<CreatedUser>)
    ensures CheckSuperAdminAuth(token, verify, accounts, online).Denied? ==> r == Fail(401, Forbidden)
    ensures CheckSuperAdminAuth(token, verify, accounts, online).Crashed? ==> r == Fail(500, CreateFailed)
    ensures CheckSuperAdminAuth(token, verify, accounts, online).Granted? ==>
      && (body.None? ==> r == Fail(500, CreateFailed))
      && (body.Some? && !HasCredentials(body.value) ==> r == Fail(400, MissingFields))
      && (body.Some? && HasCredentials(body.value) ==>
            (r == Fail(400, EmailTaken) <==> exists a :: a in accounts && a.email == body.value.email.value))
      && (body.Some? && HasCredentials(body.value) && !EmailInUse(accounts, body.value.email.value) ==> r.Done?)
    ensures r.Done? ==>
      && body.Some? && HasCredentials(body.value)
      && (forall a :: a in accounts ==> a.email != body.value.email.value)
      && var a := NewAccount(body.value, hash, newId, now);
         r == Done(200, CreatedUser(a.id, a.email, a.name, a.role, a.createdAt))
  {
    match CheckSuperAdminAuth(token, verify, accounts, online)
    case Denied => Fail(401, Forbidden)
    case Crashed => Fail(500, CreateFailed)
    case Granted(_) =>
      match body
      case None => Fail(500, CreateFailed)
      case Some(b) =>
        if !HasCredentials(b) then Fail(400, MissingFields)
        else if EmailInUse(accounts, b.email.value) then Fail(400, EmailTaken)
        else
          var a := NewAccount(b, hash, newId, now);
          Done(200, CreatedUser(a.id, a.email, a.name, a.role, a.createdAt))
  }

  /** A created account keeps emails and ids unique, when the generated id is fresh. */
  lemma {:induction false} PostKeepsKeysUnique(
    token: Option<string>, verify: string -> Option<Claims>, body: Option<NewUserBody>,
    accounts: seq<Account>, online: bool, hash: string -> string, newId: string, now: int)
    requires UniqueKeys(accounts, AccountEmail) && UniqueKeys(accounts, AccountId)
    requires forall a :: a in accounts ==> a.id != newId
    requires PostResult(token, verify, body, accounts, online, hash, newId, now).Done?
    ensures var t := accounts + [NewAccount(body.value, hash, newId, now)];
      UniqueKeys(t, AccountEmail) && UniqueKeys(t, AccountId)
  {
    var n := NewAccount(body.value, hash, newId, now);
    var t := accounts + [n];
    forall i, j | 0 <= i < j < |t| ensures AccountEmail(t[i]) != AccountEmail(t[j]) && AccountId(t[i]) != AccountId(t[j]) {
      if j == |accounts| {
        assert t[i] in accounts;
      } else {
        assert t[i] == accounts[i] && t[j] == accounts[j];
      }
    }
  }

  /**
   * `POST`: the ladder of `PostResult`; the account is appended only on
   * success, and every refusal leaves the table as it was.
   */
  method Post(db: Database, token: Option<string>, verify: string -> Option<Claims>, body: Option<NewUserBody>,
              hash: string -> string, newId: string, now: int) returns (r: ApiResult<CreatedUser>)
    modifies db`accounts
    ensures r == PostResult(token, verify, body, old(db.accounts), db.online, hash, newId, now)
    ensures r.Done? ==> db.accounts == old(db.accounts) + [NewAccount(body.value, hash, newId, now)]
    ensures r.Fail? ==> db.accounts == old(db.accounts)
  {
    var caller := CheckSuperAdminAuth(token, verify, db.accounts, db.online);
    if caller.Denied? {
      return Fail(401, Forbidden);
    }
    if caller.Crashed? || body.None? {
      return Fail(500, CreateFailed);
    }
    var b := body.value;
    if !TruthyOpt(b.email) || !TruthyOpt(b.password) {
      return Fail(400, MissingFields);
    }
    if FindFirst(db.accounts, AccountEmail, b.email.value).Some? {
      return Fail(400, EmailTaken);
    }
    var a := NewAccount(b, hash, newId, now);
    db.accounts := db.accounts + [a];
    r := Done(200, CreatedUser(a.id, a.email, a.name, a.role, a.createdAt));
  }
}
