/**
 * `/api/admin/options`, reserved to admins: the category and major lists
 * (`GET`), adding a category or a major chosen by the body's `type`
 * (`POST`), and removing one by `type` and `id` (`DELETE`). The field
 * `type` is called `kind` here, `type` being a Dafny keyword.
 */
module OptionsRoute {
  import opened Common
  import opened Text
  import opened Sequences
  import opened Store
  import opened Auth

  /** The answer of `GET`. */
  datatype OptionLists = OptionLists(categories: seq<NamedRow>, majors: seq<NamedRow>)

  /** The `name` and `type` of the `POST` body; `None` when absent. */
  datatype OptionBody = OptionBody(name: Option<string>, kind: Option<string>)

  /** The `type` and `id` the `DELETE` handler reads from its `params`. */
  datatype DeleteParams = DeleteParams(kind: Option<string>, id: Option<string>)

  const Forbidden := "Không có quyền truy cập"
  const FetchFailed := "Lỗi server khi lấy dữ liệu"
  const AddFailed := "Lỗi server khi thêm mới"
  const DeleteFailed := "Lỗi server khi xóa"
  const MissingData := "Thiếu dữ liệu"
  const BadKind := "Loại không hợp lệ"

  /** `GET`: both lists as stored. */
  function Get(token: Option<string>, verify: string -> Option<Claims>, accounts: seq<Account>,
               categories: seq<NamedRow>, majors: seq<NamedRow>, online: bool): (r: ApiResult<OptionLists>)
    ensures CheckAdminAuth(token, verify, accounts, online).Denied? ==> r == Fail(401, Forbidden)
    ensures CheckAdminAuth(token, verify, accounts, online).Crashed? ==> r == Fail(500, FetchFailed)
    ensures r.Done? <==> CheckAdminAuth(token, verify, accounts, online).Granted?
    ensures r.Done? ==> r.status == 200 && r.value.categories == categories && r.value.majors == majors
  {
    match CheckAdminAuth(token, verify, accounts, online)
    case Denied => Fail(401, Forbidden)
    case Crashed => Fail(500, FetchFailed)
    case Granted(_) => Done(200, OptionLists(categories, majors))
  }

  /** The answer of `POST`; `body` is `None` when the request body is not JSON. */
  function PostResult(token: Option<string>, verify: string -> Option<Claims>, body: Option<OptionBody>,
                      accounts: seq<Account>, online: bool, newId: string): (r: ApiResult<NamedRow>)
    ensures CheckAdminAuth(token, verify, accounts, online).Denied? ==> r == Fail(401, Forbidden)
    ensures CheckAdminAuth(token, verify, accounts, online).Crashed? ==> r == Fail(500, AddFailed)
    ensures CheckAdminAuth(token, verify, accounts, online).Granted? ==>
      && (body.None? ==> r == Fail(500, AddFailed))
      && (body.Some? && (!TruthyOpt(body.value.name) || !TruthyOpt(body.value.kind)) ==> r == Fail(400, MissingData))
      && (body.Some? && TruthyOpt(body.value.name) && TruthyOpt(body.value.kind) ==>
            (r == Fail(400, BadKind) <==> body.value.kind.value != "category" && body.value.kind.value != "major"))
      && (body.Some? && TruthyOpt(body.value.name) && body.value.kind in {Some("category"), Some("major")} ==> r.Done?)
    ensures r.Done? ==>
      && CheckAdminAuth(token, verify, accounts, online).Granted?
      && body.Some? && TruthyOpt(body.value.name)
      && (body.value.kind == Some("category") || body.value.kind == Some("major"))
      && r == Done(201, NamedRow(newId, body.value.name.value))
  {
    match CheckAdminAuth(token, verify, accounts, online)
    case Denied => Fail(401, Forbidden)
    case Crashed => Fail(500, AddFailed)
    case Granted(_) =>
      match body
      case None => Fail(500, AddFailed)
      case Some(b) =>
        if !TruthyOpt(b.name) || !TruthyOpt(b.kind) then Fail(400, MissingData)
        else if b.kind.value == "category" || b.kind.value == "major" then Done(201, NamedRow(newId, b.name.value))
        else Fail(400, BadKind)
  }

  /**
   * `POST`: the row goes into the table its `type` names and nowhere else;
   * every refusal leaves both tables as they were.
   */
  method Post(db: Database, token: Option<string>, verify: string -> Option<Claims>, body: Option<OptionBody>,
              newId: string) returns (r: ApiResult<NamedRow>)
    modifies db`categories, db`majors
    ensures r == PostResult(token, verify, body, db.accounts, db.online, newId)
    ensures r.Done? && body.value.kind == Some("category") ==>
      db.categories == old(db.categories) + [r.value] && db.majors == old(db.majors)
    ensures r.Done? && body.value.kind == Some("major") ==>
      db.majors == old(db.majors) + [r.value] && db.categories == old(db.categories)
    ensures r.Fail? ==> db.categories == old(db.categories) && db.majors == old(db.majors)
  {
    var caller := CheckAdminAuth(token, verify, db.accounts, db.online);
    if caller.Denied? {
      return Fail(401, Forbidden);
    }
    if caller.Crashed? || body.None? {
      return Fail(500, AddFailed);
    }
    var b := body.value;
    if !TruthyOpt(b.name) || !TruthyOpt(b.kind) {
      return Fail(400, MissingData);
    }
    var created := NamedRow(newId, b.name.value);
    if b.kind.value == "category" {
      db.categories := db.categories + [created];
    } else if b.kind.value == "major" {
      db.majors := db.majors + [created];
    } else {
      return Fail(400, BadKind);
    }
    r := Done(201, created);
  }

  /** The filter that drops the row with this id. */
  function NotId(id: string): NamedRow -> bool {
    (n: NamedRow) => n.id != id
  }

  /** The table after Prisma's `delete({ where: { id } })`. */
  function Without(rows: seq<NamedRow>, id: string): (r: seq<NamedRow>)
    ensures forall n :: n in r <==> n in rows && n.id != id
  {
    FilterMembers(rows, NotId(id));
    Filter(rows, NotId(id))
  }

  /** On a unique id column the delete removes exactly the row found, one copy of it. */
  lemma {:induction false} RemovesExactlyThatRow(rows: seq<NamedRow>, id: string)
    requires UniqueKeys(rows, RowId)
    requires FindFirst(rows, RowId, id).Some?
    ensures multiset(Without(rows, id)) == multiset(rows) - multiset{FindFirst(rows, RowId, id).value}
    ensures |Without(rows, id)| == |rows| - 1
  {
    var x := FindFirst(rows, RowId, id).value;
    var rest := rows[1..];
    assert rows == [rows[0]] + rest;
    FilterCons(rows[0], rest, NotId(id));
    assert UniqueKeys(rest, RowId) by {
      forall i, j | 0 <= i < j < |rest| ensures RowId(rest[i]) != RowId(rest[j]) {
        assert rest[i] == rows[i + 1] && rest[j] == rows[j + 1];
      }
    }
    if rows[0] == x {
      forall i | 0 <= i < |rest| ensures NotId(id)(rest[i]) {
        assert rest[i] == rows[i + 1];
      }
      FilterKeepsAll(rest, NotId(id));
    } else {
      RemovesExactlyThatRow(rest, id);
      assert x in multiset(rest);
    }
  }

  /** The answer of `DELETE`; `params` is `None` when the handler gets no `params` object, so destructuring it throws. */
  function DeleteResult(token: Option<string>, verify: string -> Option<Claims>, params: Option<DeleteParams>,
                        accounts: seq<Account>, online: bool, categories: seq<NamedRow>, majors: seq<NamedRow>)
    : (r: ApiResult<bool>)
    ensures CheckAdminAuth(token, verify, accounts, online).Denied? ==> r == Fail(401, Forbidden)
    ensures CheckAdminAuth(token, verify, accounts, online).Crashed? ==> r == Fail(500, DeleteFailed)
    ensures CheckAdminAuth(token, verify, accounts, online).Granted? ==>
      && (params.None? ==> r == Fail(500, DeleteFailed))
      && (params.Some? && (!TruthyOpt(params.value.id) || !TruthyOpt(params.value.kind)) ==> r == Fail(400, MissingData))
      && (params.Some? && TruthyOpt(params.value.id) && TruthyOpt(params.value.kind) ==>
            var id := params.value.id.value;
            var kind := params.value.kind.value;
            && (r == Fail(400, BadKind) <==> kind != "category" && kind != "major")
            && (kind == "category" ==> (r.Done? <==> FindFirst(categories, RowId, id).Some?))
            && (kind == "major" ==> (r.Done? <==> FindFirst(majors, RowId, id).Some?))
            && (kind == "category" && FindFirst(categories, RowId, id).None? ==> r == Fail(500, DeleteFailed))
            && (kind == "major" && FindFirst(majors, RowId, id).None? ==> r == Fail(500, DeleteFailed)))
    ensures r.Done? ==> r == Done(200, true)
  {
    match CheckAdminAuth(token, verify, accounts, online)
    case Denied => Fail(401, Forbidden)
    case Crashed => Fail(500, DeleteFailed)
    case Granted(_) =>
      match params
      case None => Fail(500, DeleteFailed)
      case Some(p) =>
        if !TruthyOpt(p.id) || !TruthyOpt(p.kind) then Fail(400, MissingData)
        else if p.kind.value == "category" then
          (if FindFirst(categories, RowId, p.id.value).Some? then Done(200, true) else Fail(500, DeleteFailed))
        else if p.kind.value == "major" then
          (if FindFirst(majors, RowId, p.id.value).Some? then Done(200, true) else Fail(500, DeleteFailed))
        else Fail(400, BadKind)
  }

  /**
   * `DELETE`: the row leaves the table its `type` names, the other table is
   * untouched; every refusal leaves both tables as they were.
   */
  method Delete(db: Database, token: Option<string>, verify: string -> Option<Claims>, params: Option<DeleteParams>)
    returns (r: ApiResult<bool>)
    modifies db`categories, db`majors
    ensures r == DeleteResult(token, verify, params, db.accounts, db.online, old(db.categories), old(db.majors))
    ensures r.Done? && params.value.kind == Some("category") ==>
      db.categories == Without(old(db.categories), params.value.id.value) && db.majors == old(db.majors)
    ensures r.Done? && params.value.kind == Some("major") ==>
      db.majors == Without(old(db.majors), params.value.id.value) && db.categories == old(db.categories)
    ensures r.Fail? ==> db.categories == old(db.categories) && db.majors == old(db.majors)
  {
    var caller := CheckAdminAuth(token, verify, db.accounts, db.online);
    if caller.Denied? {
      return Fail(401, Forbidden);
    }
    if caller.Crashed? || params.None? {
      return Fail(500, DeleteFailed);
    }
    var p := params.value;
    if !TruthyOpt(p.id) || !TruthyOpt(p.kind) {
      return Fail(400, MissingData);
    }
    var id := p.id.value;
    if p.kind.value == "category" {
      if FindFirst(db.categories, RowId, id).None? {
        return Fail(500, DeleteFailed);
      }
      db.categories := Without(db.categories, id);
    } else if p.kind.value == "major" {
      if FindFirst(db.majors, RowId, id).None? {
        return Fail(500, DeleteFailed);
      }
      db.majors := Without(db.majors, id);
    } else {
      return Fail(400, BadKind);
    }
    r := Done(200, true);
  }
}
