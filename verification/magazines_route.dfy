/**
 * `/api/admin/magazines`, reserved to admins: the listing of every
 * magazine, newest first, with its author and page ids (`GET`), and the
 * creation of a magazine with its pages (`POST`). `new Date(..)` is the
 * parameter `parseDate` (`None` for an invalid date, which Prisma refuses);
 * generated ids and the clock are parameters too.
 */
module MagazinesRoute {
  import opened Common
  import opened Text
  import opened Sequences
  import opened Sorting
  import opened Store
  import opened Auth

  /** The `author { name, email }` included with a magazine. */
  datatype AuthorInfo = AuthorInfo(name: Option<string>, email: string)

  /** A listed magazine: its columns, its author and the ids of its pages. */
  datatype ListedMagazine = ListedMagazine(
    id: string, title: string, description: Option<string>, coverImage: string, publishDate: int,
    status: Option<string>, authorId: string, createdAt: int, author: Option<AuthorInfo>, pageIds: seq<string>)

  /** A page of the request body. */
  datatype PageInput = PageInput(pageNumber: int, imageUrl: string, content: Option<string>)

  /** The fields of the JSON body; `None` when absent. */
  datatype NewMagazineBody = NewMagazineBody(
    title: Option<string>, description: Option<string>, coverImage: Option<string>,
    publishDate: Option<string>, status: Option<string>, pages: Option<seq<PageInput>>)

  /** The created magazine with its pages and its author. */
  datatype CreatedMagazine = CreatedMagazine(magazine: MagazineRow, author: Option<AuthorInfo>)

  const Forbidden := "Không có quyền truy cập"
  const FetchFailed := "Failed to fetch magazines"
  const CreateFailed := "Failed to create magazine"
  const MissingFields := "Thiếu thông tin bắt buộc"

  /** The `orderBy { createdAt: 'desc' }` of the listing. */
  const NewerFirst: (MagazineRow, MagazineRow) -> bool := (a: MagazineRow, b: MagazineRow) => a.createdAt >= b.createdAt

  /** The same order on listed magazines. */
  const ListedNewerFirst: (ListedMagazine, ListedMagazine) -> bool :=
    (a: ListedMagazine, b: ListedMagazine) => a.createdAt >= b.createdAt

  /** The author of a magazine, looked up by its `authorId`. */
  function AuthorOf(accounts: seq<Account>, authorId: string): (r: Option<AuthorInfo>)
    ensures r.Some? ==> exists a :: a in accounts && a.id == authorId && r.value == AuthorInfo(a.name, a.email)
  {
    match FindFirst(accounts, AccountId, authorId)
    case None => None
    case Some(a) => Some(AuthorInfo(a.name, a.email))
  }

  function PageId(p: PageRow): string { p.id }

  /** The listed form of a magazine. */
  function Listing(accounts: seq<Account>): MagazineRow -> ListedMagazine {
    (m: MagazineRow) => ListedMagazine(m.id, m.title, m.description, m.coverImage, m.publishDate, m.status,
                                       m.authorId, m.createdAt, AuthorOf(accounts, m.authorId), Map(m.pages, PageId))
  }

  /** Every magazine, each once, newest first. */
  function SortedMagazines(magazines: seq<MagazineRow>): (r: seq<MagazineRow>)
    ensures multiset(r) == multiset(magazines)
    ensures forall i, j :: 0 <= i < j < |r| ==> r[i].createdAt >= r[j].createdAt
  {
    SortIsSorted(magazines, NewerFirst);
    Sort(magazines, NewerFirst)
  }

  /** The listing of the sorted magazines is the listing of all magazines, reordered. */
  lemma ListingIsPermutation(magazines: seq<MagazineRow>, accounts: seq<Account>)
    ensures multiset(Map(SortedMagazines(magazines), Listing(accounts))) == multiset(Map(magazines, Listing(accounts)))
  {
    forall a, b ensures NewerFirst(a, b) == ListedNewerFirst(Listing(accounts)(a), Listing(accounts)(b)) {
    }
    MapSort(magazines, NewerFirst, Listing(accounts), ListedNewerFirst);
  }

  /** `GET`: every magazine, newest first, each with its author and page ids. */
  function Get(token: Option<string>, verify: string -> Option<Claims>, accounts: seq<Account>,
               magazines: seq<MagazineRow>, online: bool): (r: ApiResult<seq<ListedMagazine>>)
    ensures CheckAdminAuth(token, verify, accounts, online).Denied? ==> r == Fail(401, Forbidden)
    ensures CheckAdminAuth(token, verify, accounts, online).Crashed? ==> r == Fail(500, FetchFailed)
    ensures r.Done? <==> CheckAdminAuth(token, verify, accounts, online).Granted?
    ensures r.Done? ==>
      && r.status == 200 && |r.value| == |magazines|
      && (forall m :: m in magazines ==> Listing(accounts)(m) in r.value)
      && (forall i, j :: 0 <= i < j < |r.value| ==> r.value[i].createdAt >= r.value[j].createdAt)
    ensures r.Done? ==> multiset(r.value) == multiset(Map(magazines, Listing(accounts)))
  {
    match CheckAdminAuth(token, verify, accounts, online)
    case Denied => Fail(401, Forbidden)
    case Crashed => Fail(500, FetchFailed)
    case Granted(_) =>
      var sorted := SortedMagazines(magazines);
      var rows := Map(sorted, Listing(accounts));
      assert forall m :: m in magazines ==> Listing(accounts)(m) in rows by {
        forall m | m in magazines ensures Listing(accounts)(m) in rows {
          assert m in multiset(sorted);
          var k :| 0 <= k < |sorted| && sorted[k] == m;
          assert rows[k] == Listing(accounts)(m);
        }
      }
      ListingIsPermutation(magazines, accounts);
      Done(200, rows)
  }

  /** Title, cover and a non-empty page list are all present. */
  predicate HasRequired(b: NewMagazineBody) {
    TruthyOpt(b.title) && TruthyOpt(b.coverImage) && b.pages.Some? && |b.pages.value| != 0
  }

  /** The `pages.map(..)` of the create: one page per input page, falsy content stored as `null`. */
  function CreatedPages(pages: seq<PageInput>, pageIds: nat -> string): (r: seq<PageRow>)
    ensures |r| == |pages|
    ensures forall i :: 0 <= i < |pages| ==>
      && r[i].id == pageIds(i)
      && r[i].pageNumber == pages[i].pageNumber && r[i].imageUrl == pages[i].imageUrl
      && (TruthyOpt(pages[i].content) ==> r[i].content == pages[i].content)
      && (!TruthyOpt(pages[i].content) ==> r[i].content == None)
  {
    seq(|pages|, i requires 0 <= i < |pages| =>
      PageRow(pageIds(i), pages[i].pageNumber, pages[i].imageUrl,
              if TruthyOpt(pages[i].content) then pages[i].content else None))
  }

  /** The stored magazine, written by `authorId`. */
  function NewMagazine(b: NewMagazineBody, authorId: string, publishDate: int,
                       newId: string, pageIds: nat -> string, now: int): (m: MagazineRow)
    requires HasRequired(b)
    ensures m.id == newId && m.authorId == authorId && m.createdAt == now && m.publishDate == publishDate
    ensures m.title == b.title.value && m.coverImage == b.coverImage.value
    ensures m.description == b.description && m.status == b.status
    ensures m.pages == CreatedPages(b.pages.value, pageIds)
  {
    MagazineRow(newId, b.title.value, b.description, b.coverImage.value, publishDate, b.status, authorId,
                CreatedPages(b.pages.value, pageIds), now)
  }

  /** The answer of `POST`; `body` is `None` when the request body is not JSON. */
  function PostResult(token: Option<string>, verify: string -> Option<Claims>, body: Option<NewMagazineBody>,
                      accounts: seq<Account>, online: bool, parseDate: Option<string> -> Option<int>,
                      newId: string, pageIds: nat -> string, now: int): (r: ApiResult<CreatedMagazine>)
    ensures CheckAdminAuth(token, verify, accounts, online).Denied? ==> r == Fail(401, Forbidden)
    ensures CheckAdminAuth(token, verify, accounts, online).Crashed? ==> r == Fail(500, CreateFailed)
    ensures CheckAdminAuth(token, verify, accounts, online).Granted? ==>
      && (body.None? ==> r == Fail(500, CreateFailed))
      && (body.Some? && !HasRequired(body.value) ==> r == Fail(400, MissingFields))
      && (body.Some? && HasRequired(body.value) && parseDate(body.value.publishDate).None? ==>
            r == Fail(500, CreateFailed))
      && (body.Some? && HasRequired(body.value) && parseDate(body.value.publishDate).Some? ==> r.Done?)
    ensures r.Done? ==>
      && r.status == 200
      && CheckAdminAuth(token, verify, accounts, online).Granted?
      && body.Some? && HasRequired(body.value) && parseDate(body.value.publishDate).Some?
      && var caller := CheckAdminAuth(token, verify, accounts, online).caller;
         r.value.magazine == NewMagazine(body.value, caller.id, parseDate(body.value.publishDate).value,
                                         newId, pageIds, now)
         && r.value.author == AuthorOf(accounts, caller.id)
  {
    match CheckAdminAuth(token, verify, accounts, online)
    case Denied => Fail(401, Forbidden)
    case Crashed => Fail(500, CreateFailed)
    case Granted(caller) =>
      match body
      case None => Fail(500, CreateFailed)
      case Some(b) =>
        if !HasRequired(b) then Fail(400, MissingFields)
        else
          match parseDate(b.publishDate)
          case None => Fail(500, CreateFailed)
          case Some(date) =>
            Done(200, CreatedMagazine(NewMagazine(b, caller.id, date, newId, pageIds, now), AuthorOf(accounts, caller.id)))
  }

  /** The author of a created magazine is the account named by the caller's token, an admin. */
  lemma AuthorIsCaller(token: Option<string>, verify: string -> Option<Claims>, body: Option<NewMagazineBody>,
                       accounts: seq<Account>, online: bool, parseDate: Option<string> -> Option<int>,
                       newId: string, pageIds: nat -> string, now: int)
    requires PostResult(token, verify, body, accounts, online, parseDate, newId, pageIds, now).Done?
    ensures var m := PostResult(token, verify, body, accounts, online, parseDate, newId, pageIds, now).value.magazine;
      exists a :: a in accounts && a.id == m.authorId && IsAdminRole(a.role) &&
        a.id == verify(token.value).value.userId
  {
    var caller := CheckAdminAuth(token, verify, accounts, online).caller;
    var a := FindFirst(accounts, AccountId, verify(token.value).value.userId).value;
    assert a in accounts && a.id == caller.id && IsAdminRole(a.role);
  }

  /** A created magazine shows up in the listing the same caller gets next. */
  lemma CreatedMagazineIsListed(token: Option<string>, verify: string -> Option<Claims>, body: Option<NewMagazineBody>,
                                accounts: seq<Account>, magazines: seq<MagazineRow>, parseDate: Option<string> -> Option<int>,
                                newId: string, pageIds: nat -> string, now: int)
    requires PostResult(token, verify, body, accounts, true, parseDate, newId, pageIds, now).Done?
    ensures var m := PostResult(token, verify, body, accounts, true, parseDate, newId, pageIds, now).value.magazine;
      var listing := Get(token, verify, accounts, magazines + [m], true);
      listing.Done? && Listing(accounts)(m) in listing.value && |listing.value| == |magazines| + 1
  {
    var m := PostResult(token, verify, body, accounts, true, parseDate, newId, pageIds, now).value.magazine;
    assert m in magazines + [m];
  }

  /**
   * `POST`: the ladder of `PostResult`; the magazine is appended only on
   * success, and every refusal leaves the table as it was.
   */
  method Post(db: Database, token: Option<string>, verify: string -> Option<Claims>, body: Option<NewMagazineBody>,
              parseDate: Option<string> -> Option<int>, newId: string, pageIds: nat -> string, now: int)
    returns (r: ApiResult<CreatedMagazine>)
    modifies db`magazines
    ensures r == PostResult(token, verify, body, db.accounts, db.online, parseDate, newId, pageIds, now)
    ensures r.Done? ==> db.magazines == old(db.magazines) + [r.value.magazine]
    ensures r.Fail? ==> db.magazines == old(db.magazines)
  {
    var caller := CheckAdminAuth(token, verify, db.accounts, db.online);
    if caller.Denied? {
      return Fail(401, Forbidden);
    }
    if caller.Crashed? || body.None? {
      return Fail(500, CreateFailed);
    }
    var b := body.value;
    if !TruthyOpt(b.title) || !TruthyOpt(b.coverImage) || b.pages.None? || |b.pages.value| == 0 {
      return Fail(400, MissingFields);
    }
    var date := parseDate(b.publishDate);
    if date.None? {
      return Fail(500, CreateFailed);
    }
    var m := NewMagazine(b, caller.caller.id, date.value, newId, pageIds, now);
    db.magazines := db.magazines + [m];
    r := Done(200, CreatedMagazine(m, AuthorOf(db.accounts, caller.caller.id)));
  }
}
