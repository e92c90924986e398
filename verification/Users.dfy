/**
 Users, rows of the `users` table, and what SQL answers about a table.
 The table is append-only: INSERT is its only writer.
 */
module Users {
  import opened Prelude
  import Decimal

  datatype User = User(id: string, name: string, email: string, createdAt: Decimal.int64)

  datatype Row = Row(id: nat, name: string, email: string, createdAt: Decimal.int64)

  /** The user that CreateUser assembles for a row it has just inserted. */
  function UserOf(row: Row): User {
    User(Decimal.Text(row.id), row.name, row.email, row.createdAt)
  }

  function UsersOf(rows: seq<Row>): (us: seq<User>)
    ensures |us| == |rows|
    ensures forall i :: 0 <= i < |us| ==> us[i] == UserOf(rows[i])
  {
    seq(|rows|, i requires 0 <= i < |rows| => UserOf(rows[i]))
  }

  // ---------- Reading a row back ----------

  /** A fetched row: the client library hands every column over as text. */
  type SqlRow = f: seq<string> | |f| == 4 witness ["", "", "", ""]

  function Fields(row: Row): SqlRow {
    [Decimal.Text(row.id), row.name, row.email, Decimal.Text(row.createdAt)]
  }

  predicate NulFree(s: string) {
    '\0' !in s
  }

  /** What is left of a string that is passed on as a C string. */
  function CString(s: string): string {
    if s == [] || s[0] == '\0' then [] else [s[0]] + CString(s[1..])
  }

  /** The user the read paths build from a fetched row. */
  function FromFields(f: SqlRow): User {
    User(CString(f[0]), CString(f[1]), CString(f[2]), Decimal.Strtoll(CString(f[3])))
  }

  lemma {:induction false} CStringWhole(s: string)
    ensures CString(s) == s <==> NulFree(s)
  {
    if s != [] && s[0] != '\0' {
      CStringWhole(s[1..]);
      assert s == [s[0]] + s[1..];
      assert CString(s) == s <==> CString(s[1..]) == s[1..] by {
        if CString(s) == s { assert CString(s[1..]) == CString(s)[1..] == s[1..]; }
      }
    }
  }

  /** What is left is NUL-free, so cutting again changes nothing. */
  lemma {:induction false} CStringCut(s: string)
    ensures NulFree(CString(s)) && CString(CString(s)) == CString(s)
  {
    if s != [] && s[0] != '\0' {
      CStringCut(s[1..]);
      assert CString(s)[1..] == CString(s[1..]);
    }
  }

  /** A NUL-free prefix is kept whole. */
  lemma {:induction false} CStringAppend(p: string, s: string)
    requires NulFree(p)
    ensures CString(p + s) == p + CString(s)
  {
    if p == [] {
      assert p + s == s;
    } else {
      assert (p + s)[1..] == p[1..] + s;
      CStringAppend(p[1..], s);
    }
  }

  lemma NumbersAreNulFree(n: int)
    ensures CString(Decimal.Text(n)) == Decimal.Text(n)
  {
    CStringWhole(Decimal.Text(n));
  }

  /** A row read back is the user CreateUser cached exactly when its text columns hold no NUL. */
  lemma ReadBackExact(row: Row)
    ensures FromFields(Fields(row)) == UserOf(row) <==> NulFree(row.name) && NulFree(row.email)
  {
    NumbersAreNulFree(row.id);
    NumbersAreNulFree(row.createdAt);
    Decimal.StrtollRoundTrip(row.createdAt);
    CStringWhole(row.name);
    CStringWhole(row.email);
  }

  // ---------- The table ----------

  function LastId(rows: seq<Row>): nat {
    if rows == [] then 0 else rows[|rows| - 1].id
  }

  /** Ids start at 1, fit in BIGINT, and grow with every insert; gaps are allowed. */
  predicate Ordered(rows: seq<Row>) {
    && (forall i :: 0 <= i < |rows| ==> 1 <= rows[i].id <= Decimal.INT64_MAX)
    && (forall i, j :: 0 <= i < j < |rows| ==> rows[i].id < rows[j].id)
  }

  predicate NulFreeRows(rows: seq<Row>) {
    forall i :: 0 <= i < |rows| ==> NulFree(rows[i].name) && NulFree(rows[i].email)
  }

  lemma {:induction false} CountFits(rows: seq<Row>)
    requires Ordered(rows)
    ensures |rows| <= LastId(rows) <= Decimal.INT64_MAX
  {
    if |rows| > 1 {
      CountFits(rows[..|rows| - 1]);
    }
  }

  /** SELECT ... WHERE id = ...: the position of the row with this id. */
  function Find(rows: seq<Row>, id: nat): (r: Option<nat>)
    ensures r.Some? ==> r.value < |rows| && rows[r.value].id == id
    ensures r.None? ==> forall i :: 0 <= i < |rows| ==> rows[i].id != id
  {
    if rows == [] then None
    else if rows[|rows| - 1].id == id then Some(|rows| - 1)
    else Find(rows[..|rows| - 1], id)
  }

  /** The user a cache-free lookup by id gives. */
  function Lookup(rows: seq<Row>, id: nat): Option<User> {
    match Find(rows, id)
    case Some(i) => Some(UserOf(rows[i]))
    case None => None
  }

  lemma FindUnique(rows: seq<Row>, i: nat)
    requires Ordered(rows) && i < |rows|
    ensures Find(rows, rows[i].id) == Some(i)
  {
    var r := Find(rows, rows[i].id);
    assert r.Some?;
  }

  /** Rows never move: once found, an id keeps its answer in every later table. */
  lemma FindStable(rows: seq<Row>, later: seq<Row>, id: nat)
    requires Ordered(later) && rows <= later && Find(rows, id).Some?
    ensures Find(later, id) == Find(rows, id)
  {
    var i := Find(rows, id).value;
    assert later[i] == rows[i];
    FindUnique(later, i);
  }

  function Min(a: int, b: int): int {
    if a < b then a else b
  }

  /** SELECT ... ORDER BY id LIMIT limit OFFSET offset. */
  function Page(rows: seq<Row>, limit: nat, offset: nat): seq<Row> {
    rows[Min(offset, |rows|)..Min(offset + limit, |rows|)]
  }

  /** A page read from an earlier table is a contiguous slice of every later one, inside its window. */
  lemma PageIsSlice(rows: seq<Row>, n: nat, limit: nat, offset: nat)
    requires n <= |rows|
    ensures var p := Page(rows[..n], limit, offset);
            && |p| <= limit
            && (p == [] || (offset + |p| <= n && p == rows[offset..offset + |p|]))
  {
    var p := Page(rows[..n], limit, offset);
    if p != [] {
      assert p == rows[..n][offset..offset + |p|] == rows[offset..offset + |p|];
    }
  }

  lemma PageRow(rows: seq<Row>, n: nat, limit: nat, offset: nat, i: nat)
    requires n <= |rows| && i < |Page(rows[..n], limit, offset)|
    ensures i < limit && offset + i < |rows| && Page(rows[..n], limit, offset)[i] == rows[offset + i]
  {
  }

  lemma RowIds(rows: seq<Row>, i: nat, j: nat)
    requires Ordered(rows) && i < j < |rows|
    ensures UserOf(rows[i]).id != UserOf(rows[j]).id
  {
    Decimal.TextInjective(rows[i].id, rows[j].id);
  }

  /** Pages over disjoint windows share no user, even when read at different times. */
  lemma DisjointPages(rows: seq<Row>, n: nat, l: nat, o: nat, n': nat, l': nat, o': nat)
    requires Ordered(rows) && n <= |rows| && n' <= |rows|
    requires o + l <= o'
    ensures var p, p' := UsersOf(Page(rows[..n], l, o)), UsersOf(Page(rows[..n'], l', o'));
            forall i, j :: 0 <= i < |p| && 0 <= j < |p'| ==> p[i].id != p'[j].id
  {
    hide Page, UserOf, UsersOf, Ordered;
    var p, p' := UsersOf(Page(rows[..n], l, o)), UsersOf(Page(rows[..n'], l', o'));
    forall i, j | 0 <= i < |p| && 0 <= j < |p'| ensures p[i].id != p'[j].id {
      PageRow(rows, n, l, o, i);
      PageRow(rows, n', l', o', j);
      RowIds(rows, o + i, o' + j);
    }
  }
}
