/**
 * The admin dashboard (`/admin/home`): the magazine table filtered by a
 * case-insensitive title search and an optional department ("khoa"), the
 * three counters above it, and the fallbacks used when a row lacks a page
 * count, a cover image or an author name.
 */
module AdminHome {
  import opened Common
  import opened Text
  import opened Sequences

  /** A magazine row as the admin API returns it, with its author and the ids of its pages. */
  datatype AdminMagazine = AdminMagazine(
    id: string,
    title: string,
    description: Option<string>,
    cover: string,
    status: string,
    pageCount: Option<int>,
    createdAt: int,
    authorName: Option<string>,
    authorEmail: string,
    major: string,
    pages: seq<string>)

  /** The cover shown when a magazine has none. */
  const PlaceholderCover := "/placeholder-magazine.jpg"

  /** The title contains the search term, both lower-cased. */
  predicate MatchSearch(m: AdminMagazine, searchTerm: string, lower: string -> string) {
    Includes(lower(m.title), lower(searchTerm))
  }

  /** A truthy selected department must equal the magazine's; a null or empty one accepts every magazine. */
  predicate MatchKhoa(m: AdminMagazine, selectedKhoa: Option<string>) {
    TruthyOpt(selectedKhoa) ==> m.major == selectedKhoa.value
  }

  /** The filter's callback. */
  function Shown(searchTerm: string, selectedKhoa: Option<string>, lower: string -> string): AdminMagazine -> bool {
    m => MatchSearch(m, searchTerm, lower) && MatchKhoa(m, selectedKhoa)
  }

  /** `filteredMagazines`: the rows of the table, in the order the API returned them. */
  function FilteredMagazines(
    magazines: seq<AdminMagazine>, searchTerm: string, selectedKhoa: Option<string>,
    lower: string -> string): (r: seq<AdminMagazine>)
    ensures IsSubsequence(r, magazines)
    ensures forall m :: m in r <==>
      m in magazines && MatchSearch(m, searchTerm, lower) && MatchKhoa(m, selectedKhoa)
  {
    FilterMembers(magazines, Shown(searchTerm, selectedKhoa, lower));
    Filter(magazines, Shown(searchTerm, selectedKhoa, lower))
  }

  /** A selected department restricts the table to that department; without one the department plays no part. */
  lemma KhoaFilter(
    magazines: seq<AdminMagazine>, searchTerm: string, khoa: string, lower: string -> string)
    requires khoa != ""
    ensures forall m :: m in FilteredMagazines(magazines, searchTerm, Some(khoa), lower) ==> m.major == khoa
    ensures FilteredMagazines(magazines, searchTerm, None, lower) ==
      Filter(magazines, (m: AdminMagazine) => MatchSearch(m, searchTerm, lower))
  {
    FilterSame(magazines, Shown(searchTerm, None, lower),
      (m: AdminMagazine) => MatchSearch(m, searchTerm, lower));
  }

  /** An empty search with no department selected shows every magazine (when lower-casing "" gives ""). */
  lemma EmptyFiltersShowAll(magazines: seq<AdminMagazine>, lower: string -> string)
    requires lower("") == ""
    ensures FilteredMagazines(magazines, "", None, lower) == magazines
  {
    forall i | 0 <= i < |magazines| ensures Shown("", None, lower)(magazines[i]) {
      IncludesEmptyAndSelf(lower(magazines[i].title));
    }
    FilterKeepsAll(magazines, Shown("", None, lower));
  }

  /** The filter of the counters: magazines with this status. */
  function HasStatus(status: string): AdminMagazine -> bool {
    (m: AdminMagazine) => m.status == status
  }

  /** A status counter: "Đã xuất bản" counts PUBLISHED, "Bản nháp" counts DRAFT. */
  function StatusCount(magazines: seq<AdminMagazine>, status: string): (n: nat)
    ensures n <= |magazines|
    ensures n == 0 <==> forall i :: 0 <= i < |magazines| ==> magazines[i].status != status
    ensures n == |magazines| <==> forall i :: 0 <= i < |magazines| ==> magazines[i].status == status
  {
    CountExtremes(magazines, HasStatus(status));
    Count(magazines, HasStatus(status))
  }

  /** No magazine has two statuses, so the counters of two statuses never exceed the total. */
  lemma CountersWithinTotal(magazines: seq<AdminMagazine>, status: string, status': string)
    requires status != status'
    ensures StatusCount(magazines, status) + StatusCount(magazines, status') <= |magazines|
  {
    DisjointCounts(magazines, HasStatus(status), HasStatus(status'));
  }

  /** The "Số trang" cell: the stored page count when it is truthy (present and non-zero), else the number of pages. */
  function PageCountShown(m: AdminMagazine): (n: int)
    ensures m.pageCount.Some? && m.pageCount.value != 0 ==> n == m.pageCount.value
    ensures m.pageCount == None || m.pageCount == Some(0) ==> n == |m.pages|
  {
    match m.pageCount
    case Some(k) => if k != 0 then k else |m.pages|
    case None => |m.pages|
  }

  /** The cover image: the stored URL when it is not blank, else the placeholder. */
  function CoverSource(m: AdminMagazine): (src: string)
    ensures !IsBlank(m.cover) ==> src == m.cover
    ensures IsBlank(m.cover) ==> src == PlaceholderCover
  {
    TrimEmptyIffBlank(m.cover);
    if Truthy(m.cover) && Trim(m.cover) != "" then m.cover else PlaceholderCover
  }

  /** The author cell: the author's name when truthy, else the author's email. */
  function AuthorShown(m: AdminMagazine): (s: string)
    ensures TruthyOpt(m.authorName) ==> s == m.authorName.value
    ensures !TruthyOpt(m.authorName) ==> s == m.authorEmail
  {
    OptOrElse(m.authorName, m.authorEmail)
  }

  /** The status badge: variant and label. */
  datatype Badge = Badge(variant: string, text: string)

  /** Published magazines get the "default" badge "Đã xuất bản"; every other status shows as a draft. */
  function StatusBadge(status: string): (b: Badge)
    ensures status == "PUBLISHED" <==> b == Badge("default", "Đã xuất bản")
    ensures status != "PUBLISHED" <==> b == Badge("secondary", "Bản nháp")
  {
    if status == "PUBLISHED" then Badge("default", "Đã xuất bản") else Badge("secondary", "Bản nháp")
  }

  /** The text under an empty table: "nothing matches" while searching, "nothing yet" otherwise. */
  function EmptyTableMessage(filtered: seq<AdminMagazine>, searchTerm: string): (msg: Option<string>)
    ensures msg.Some? <==> filtered == []
    ensures msg.Some? && Truthy(searchTerm) ==> msg.value == "Không tìm thấy tạp chí nào phù hợp"
    ensures msg.Some? && !Truthy(searchTerm) ==> msg.value == "Chưa có tạp chí nào"
  {
    if |filtered| != 0 then None
    else if Truthy(searchTerm) then Some("Không tìm thấy tạp chí nào phù hợp")
    else Some("Chưa có tạp chí nào")
  }
}
