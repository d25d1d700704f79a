/**
 * The database the admin API reads and writes, as four tables held in
 * sequences, and the shape of an API answer. Prisma's queries become reads
 * and updates of these sequences; a database that cannot be reached makes
 * every query throw, which the routes turn into a 500.
 */
module Store {
  import opened Common

  /** A row of `TaiKhoanNguoiDung`: an account, with its bcrypt hash. */
  datatype Account = Account(
    id: string,
    email: string,
    name: Option<string>,
    passwordHash: string,
    role: string,
    createdAt: int)

  /** The public part of an account: the `select { id, email, name, role }` the auth routes answer with. */
  datatype PublicUser = PublicUser(id: string, email: string, name: Option<string>, role: string)

  function Public(a: Account): PublicUser {
    PublicUser(a.id, a.email, a.name, a.role)
  }

  /** A row of the page table, as nested under its magazine. */
  datatype PageRow = PageRow(id: string, pageNumber: int, imageUrl: string, content: Option<string>)

  /** A row of the magazine table with its pages. */
  datatype MagazineRow = MagazineRow(
    id: string,
    title: string,
    description: Option<string>,
    coverImage: string,
    publishDate: int,
    status: Option<string>,
    authorId: string,
    pages: seq<PageRow>,
    createdAt: int)

  /** A row of the category or the major table. */
  datatype NamedRow = NamedRow(id: string, name: string)

  /** What a route answers: an error status with its message, or a status with a payload. */
  datatype ApiResult<T> = Fail(status: int, error: string) | Done(status: int, value: T)

  /** The first element of `rows` whose key is `key`: `findUnique` on a unique column. */
  function FindFirst<T>(rows: seq<T>, keyOf: T -> string, key: string): (r: Option<T>)
    ensures r.Some? ==> r.value in rows && keyOf(r.value) == key
    ensures r.None? ==> forall i :: 0 <= i < |rows| ==> keyOf(rows[i]) != key
  {
    if rows == [] then None
    else if keyOf(rows[0]) == key then Some(rows[0])
    else FindFirst(rows[1..], keyOf, key)
  }

  function AccountId(a: Account): string { a.id }

  function AccountEmail(a: Account): string { a.email }

  function RowId(n: NamedRow): string { n.id }

  /** No two rows share a key: what a unique column guarantees. */
  predicate UniqueKeys<T>(rows: seq<T>, keyOf: T -> string) {
    forall i, j :: 0 <= i < j < |rows| ==> keyOf(rows[i]) != keyOf(rows[j])
  }

  /** On a unique column, looking up a row's own key finds that row. */
  lemma {:induction false} FindFirstUnique<T>(rows: seq<T>, keyOf: T -> string, x: T)
    requires UniqueKeys(rows, keyOf)
    requires x in rows
    ensures FindFirst(rows, keyOf, keyOf(x)) == Some(x)
  {
    if rows[0] != x {
      assert keyOf(rows[0]) != keyOf(x) by {
        var k :| 0 <= k < |rows| && rows[k] == x;
        assert k != 0;
      }
      assert UniqueKeys(rows[1..], keyOf) by {
        forall i, j | 0 <= i < j < |rows[1..]| ensures keyOf(rows[1..][i]) != keyOf(rows[1..][j]) {
          assert rows[1..][i] == rows[i + 1] && rows[1..][j] == rows[j + 1];
        }
      }
      FindFirstUnique(rows[1..], keyOf, x);
    }
  }

  class Database {
    var accounts: seq<Account>
    var magazines: seq<MagazineRow>
    var categories: seq<NamedRow>
    var majors: seq<NamedRow>
    /** The database answers; when false every query throws. */
    var online: bool

    constructor (accounts: seq<Account>, magazines: seq<MagazineRow>,
                 categories: seq<NamedRow>, majors: seq<NamedRow>, online: bool)
      ensures this.accounts == accounts && this.magazines == magazines
      ensures this.categories == categories && this.majors == majors && this.online == online
    {
      this.accounts, this.magazines := accounts, magazines;
      this.categories, this.majors, this.online := categories, majors, online;
    }
  }
}
