/**
 * The public list of magazines (`/magazine`): the published magazines whose
 * title contains the search term, ignoring case, sorted by title or newest
 * first. `toLowerCase` and `localeCompare` are locale-dependent library
 * functions and are parameters here; creation dates are integers
 * (milliseconds since the epoch, as `getTime` returns them).
 */
module MagazineList {
  import opened Common
  import opened Text
  import opened Sequences
  import opened Sorting

  /** A magazine as the public API returns it. */
  datatype Magazine = Magazine(
    id: string,
    title: string,
    description: Option<string>,
    cover: string,
    createdAt: int,
    status: string)

  /** The magazine is published and its lower-cased title contains the lower-cased search term. */
  predicate Matches(m: Magazine, searchTerm: string, lower: string -> string) {
    m.status == "PUBLISHED" && Includes(lower(m.title), lower(searchTerm))
  }

  /** The filter's callback. */
  function Matcher(searchTerm: string, lower: string -> string): Magazine -> bool {
    m => Matches(m, searchTerm, lower)
  }

  /** The comparator given to `sort`; `collate(a, b)` is `a.localeCompare(b)`. */
  function Compare(sortBy: string, collate: (string, string) -> int, a: Magazine, b: Magazine): int {
    if sortBy == "tieuDe" then collate(a.title, b.title)
    else if sortBy == "createdAt" then b.createdAt - a.createdAt
    else 0
  }

  /** `a` may stay in front of `b`: the comparator does not answer positive. */
  function Before(sortBy: string, collate: (string, string) -> int): (Magazine, Magazine) -> bool {
    (a: Magazine, b: Magazine) => Compare(sortBy, collate, a, b) <= 0
  }

  /** `filterMagazines`: the filter, then the in-place sort of the filtered copy. */
  function FilterMagazines(
    magazines: seq<Magazine>, searchTerm: string, sortBy: string,
    lower: string -> string, collate: (string, string) -> int): (r: seq<Magazine>)
    ensures forall m :: m in r ==> Matches(m, searchTerm, lower)
    ensures multiset(r) == multiset(Filter(magazines, Matcher(searchTerm, lower)))
  {
    var filtered := Filter(magazines, Matcher(searchTerm, lower));
    FilterMembers(magazines, Matcher(searchTerm, lower));
    var r := Sort(filtered, Before(sortBy, collate));
    forall m | m in r ensures Matches(m, searchTerm, lower) {
      assert m in multiset(r);
      assert m in multiset(filtered);
      assert m in filtered;
      assert Matcher(searchTerm, lower)(m);
    }
    r
  }

  /** The result holds exactly the matching magazines, each as often as in the input. */
  lemma ResultIsPermutationOfMatches(
    magazines: seq<Magazine>, searchTerm: string, sortBy: string,
    lower: string -> string, collate: (string, string) -> int)
    ensures forall m ::
      multiset(FilterMagazines(magazines, searchTerm, sortBy, lower, collate))[m] ==
        if Matches(m, searchTerm, lower) then multiset(magazines)[m] else 0
  {
    FilterCounts(magazines, Matcher(searchTerm, lower));
  }

  /** With an empty search term, every published magazine is kept (when lower-casing "" gives ""). */
  lemma EmptySearchKeepsPublished(
    magazines: seq<Magazine>, sortBy: string,
    lower: string -> string, collate: (string, string) -> int)
    requires lower("") == ""
    ensures forall m :: m in magazines && m.status == "PUBLISHED" ==>
      m in FilterMagazines(magazines, "", sortBy, lower, collate)
  {
    var r := FilterMagazines(magazines, "", sortBy, lower, collate);
    ResultIsPermutationOfMatches(magazines, "", sortBy, lower, collate);
    forall m | m in magazines && m.status == "PUBLISHED" ensures m in r {
      IncludesEmptyAndSelf(lower(m.title));
      assert Matches(m, "", lower);
      assert multiset(r)[m] == multiset(magazines)[m] > 0;
    }
  }

  /** Sorting by `createdAt` puts the newest magazine first. */
  lemma NewestFirst(
    magazines: seq<Magazine>, searchTerm: string,
    lower: string -> string, collate: (string, string) -> int)
    ensures var r := FilterMagazines(magazines, searchTerm, "createdAt", lower, collate);
      forall i, j :: 0 <= i < j < |r| ==> r[i].createdAt >= r[j].createdAt
  {
    var before := Before("createdAt", collate);
    assert IsTotalPreorder(before);
    SortIsSorted(Filter(magazines, Matcher(searchTerm, lower)), before);
  }

  /** Sorting by `tieuDe` orders the titles by `localeCompare`, when that is a consistent comparison. */
  lemma TitleOrder(
    magazines: seq<Magazine>, searchTerm: string,
    lower: string -> string, collate: (string, string) -> int)
    requires IsTotalPreorder((x: string, y: string) => collate(x, y) <= 0)
    ensures var r := FilterMagazines(magazines, searchTerm, "tieuDe", lower, collate);
      forall i, j :: 0 <= i < j < |r| ==> collate(r[i].title, r[j].title) <= 0
  {
    var before := Before("tieuDe", collate);
    var titles := (x: string, y: string) => collate(x, y) <= 0;
    forall a: Magazine, b: Magazine ensures before(a, b) || before(b, a) {
      assert titles(a.title, b.title) || titles(b.title, a.title);
    }
    forall a: Magazine, b: Magazine, c: Magazine | before(a, b) && before(b, c) ensures before(a, c) {
      assert titles(a.title, b.title) && titles(b.title, c.title);
    }
    SortIsSorted(Filter(magazines, Matcher(searchTerm, lower)), before);
  }

  /** Any other `sortBy` makes the comparator answer 0, and the stable sort keeps the filter's order. */
  lemma OtherSortKeepsOrder(
    magazines: seq<Magazine>, searchTerm: string, sortBy: string,
    lower: string -> string, collate: (string, string) -> int)
    requires sortBy != "tieuDe" && sortBy != "createdAt"
    ensures FilterMagazines(magazines, searchTerm, sortBy, lower, collate) ==
      Filter(magazines, Matcher(searchTerm, lower))
  {
    SortOfTiesIsIdentity(Filter(magazines, Matcher(searchTerm, lower)), Before(sortBy, collate));
  }
}
