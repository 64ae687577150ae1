/** Lists that are read page by page: each query asks for one row more than a page, from below the last row shown, in
    descending order of time and id.  Order lists, payment cases, email jobs and the check-in history share this shape;
    the history orders by id alone. */
module Paging {
  import opened Options
  import opened Text

  const PageSize: nat := 50

  /** The sort key of a row.  Ids of orders and jobs are hexadecimal texts of one length, which sort like numbers. */
  datatype Key = Key(at: int, id: nat)

  predicate Less(a: Key, b: Key) {
    a.at < b.at || (a.at == b.at && a.id < b.id)
  }

  // ---------------------------------------------------------------- ORDER BY ... DESC

  predicate Descending(rows: seq<Key>) {
    forall i, j :: 0 <= i < j < |rows| ==> Less(rows[j], rows[i])
  }

  predicate IsNewest(rows: set<Key>, newest: Key) {
    newest in rows && forall k :: k in rows && k != newest ==> Less(k, newest)
  }

  lemma {:induction false} NewestExists(rows: set<Key>)
    requires rows != {}
    ensures exists newest :: IsNewest(rows, newest)
    decreases |rows|
  {
    var some :| some in rows;
    if rows == {some} {
      assert IsNewest(rows, some);
    } else {
      NewestExists(rows - {some});
      var other :| IsNewest(rows - {some}, other);
      var newest := if Less(other, some) then some else other;
      forall k | k in rows && k != newest ensures Less(k, newest) {
        if k != some && k != other { assert k in rows - {some}; }
      }
      assert IsNewest(rows, newest);
    }
  }

  ghost function Newest(rows: set<Key>): (newest: Key)
    requires rows != {}
    ensures IsNewest(rows, newest)
  {
    NewestExists(rows);
    var newest :| IsNewest(rows, newest);
    newest
  }

  ghost function Sorted(rows: set<Key>): (s: seq<Key>)
    ensures |s| == |rows| && Descending(s) && forall k :: k in s <==> k in rows
    decreases |rows|
  {
    if rows == {} then []
    else
      var newest := Newest(rows);
      var rest := Sorted(rows - {newest});
      assert forall i :: 0 <= i < |rest| ==> rest[i] in rest;
      [newest] + rest
  }

  ghost predicate IsSorted(s: seq<Key>, rows: set<Key>) {
    Descending(s) && forall k :: k in s <==> k in rows
  }

  /** A descending list is the sorted list of its rows. */
  lemma {:induction false} SortedIsUnique(s: seq<Key>, rows: set<Key>)
    requires Descending(s) && forall k :: k in s <==> k in rows
    ensures s == Sorted(rows)
    decreases |s|
  {
    if s == [] {
      assert rows == {};
    } else {
      assert s[0] in rows;
      var newest := Newest(rows);
      assert newest in s;
      assert newest == s[0];
      assert forall k :: k in s[1..] <==> k in rows - {newest};
      SortedIsUnique(s[1..], rows - {newest});
    }
  }

  // ---------------------------------------------------------------- one page

  ghost predicate Below(cursor: Option<Key>, k: Key) {
    cursor.None? || Less(k, cursor.value)
  }

  /** The rows that a query from the cursor can see. */
  ghost function Visible(table: set<Key>, cursor: Option<Key>): set<Key> {
    set k | k in table && Below(cursor, k)
  }

  function Min(a: nat, b: nat): nat {
    if a < b then a else b
  }

  /** SELECT ... ORDER BY ... DESC LIMIT 51. */
  ghost function Query(table: set<Key>, cursor: Option<Key>): seq<Key> {
    Limited(Sorted(Visible(table, cursor)))
  }

  function Limited(all: seq<Key>): seq<Key> {
    all[..Min(PageSize + 1, |all|)]
  }

  datatype Page = Page(items: seq<Key>, next: Option<Key>)

  function PageOf(rows: seq<Key>): Page {
    if |rows| > PageSize then Page(rows[..PageSize], Some(rows[PageSize - 1])) else Page(rows, None)
  }

  ghost function PageAt(table: set<Key>, cursor: Option<Key>): Page {
    PageOf(Query(table, cursor))
  }

  /** The loop over the rows of the query, and the cut after it. */
  method ListPage(rows: seq<Key>, ghost table: set<Key>, ghost cursor: Option<Key>) returns (page: Page)
    requires rows == Query(table, cursor)
    ensures page == PageAt(table, cursor)
  {
    var items := [];
    for i := 0 to |rows|
      invariant items == rows[..i]
    {
      items := items + [rows[i]];
    }
    if |items| > PageSize {
      var last := items[PageSize - 1];
      return Page(items[..PageSize], Some(last));
    }
    return Page(items, None);
  }

  /** Cut after n rows: the last row before the cut tells the two parts apart. */
  lemma Cut(all: seq<Key>, n: nat, k: Key)
    requires Descending(all) && 0 < n <= |all| && k in all
    ensures k in all[n..] <==> Less(k, all[n - 1])
    ensures k in all[..n] <==> !Less(k, all[n - 1])
  {
    var i :| 0 <= i < |all| && all[i] == k;
    if i < n {
      assert all[..n][i] == k;
      forall j | 0 <= j < |all[n..]| ensures all[n..][j] != k { assert Less(all[n + j], all[i]); }
    } else {
      assert all[n..][i - n] == k;
      forall j | 0 <= j < |all[..n]| ensures all[..n][j] != k { assert Less(all[i], all[j]); }
    }
  }

  lemma RestIsVisible(all: seq<Key>, table: set<Key>, cursor: Option<Key>)
    requires IsSorted(all, Visible(table, cursor)) && |all| > PageSize
    ensures var last := all[PageSize - 1];
      && last in table && Below(cursor, last) && IsSorted(all[PageSize..], Visible(table, Some(last)))
  {
    var last, rest := all[PageSize - 1], all[PageSize..];
    assert last in all;
    forall k ensures k in rest <==> k in Visible(table, Some(last)) {
      if k in all { Cut(all, PageSize, k); }
      assert k in rest ==> k in all;
    }
  }

  /** What the page of a sorted list leaves for the pages after it. */
  ghost predicate Splits(page: Page, all: seq<Key>, table: set<Key>, cursor: Option<Key>) {
    && |page.items| <= PageSize
    && (page.next.None? ==> page.items == all)
    && (page.next.Some? ==>
          && |page.items| == PageSize && |all| > PageSize && page.next.value in table && Below(cursor, page.next.value)
          && all == page.items + all[PageSize..] && IsSorted(all[PageSize..], Visible(table, page.next)))
  }

  lemma PageOfSplits(all: seq<Key>, table: set<Key>, cursor: Option<Key>)
    requires IsSorted(all, Visible(table, cursor))
    ensures Splits(PageOf(Limited(all)), all, table, cursor)
  {
    if |all| > PageSize {
      RestIsVisible(all, table, cursor);
      assert Limited(all)[..PageSize] == all[..PageSize];
    } else {
      assert Limited(all) == all;
    }
  }

  lemma VisibleShrinks(table: set<Key>, cursor: Option<Key>, next: Key)
    requires next in table && Below(cursor, next)
    ensures Visible(table, Some(next)) < Visible(table, cursor)
  {
    assert next in Visible(table, cursor) && next !in Visible(table, Some(next));
    assert Visible(table, Some(next)) <= Visible(table, cursor);
  }

  /** A page and what is left below its cursor make up everything that was visible. */
  lemma PageSplits(table: set<Key>, cursor: Option<Key>)
    ensures var page := PageAt(table, cursor);
      && Splits(page, Sorted(Visible(table, cursor)), table, cursor)
      && (page.next.Some? ==>
            && Visible(table, page.next) < Visible(table, cursor) && Visible(table, page.next) != {}
            && Sorted(Visible(table, cursor)) == page.items + Sorted(Visible(table, page.next)))
  {
    var all, page := Sorted(Visible(table, cursor)), PageAt(table, cursor);
    PageOfSplits(all, table, cursor);
    if page.next.Some? {
      VisibleShrinks(table, cursor, page.next.value);
      SortedIsUnique(all[PageSize..], Visible(table, page.next));
      assert all[PageSize] in all[PageSize..];
    }
  }

  // ---------------------------------------------------------------- following the cursors

  /** The pages from a cursor on, until there is none. */
  ghost function Pages(table: set<Key>, cursor: Option<Key>): (pages: seq<seq<Key>>)
    decreases Visible(table, cursor)
  {
    var page := PageAt(table, cursor);
    PageSplits(table, cursor);
    if page.next.None? then [page.items] else [page.items] + Pages(table, page.next)
  }

  function Concat(pages: seq<seq<Key>>): seq<Key> {
    if pages == [] then [] else pages[0] + Concat(pages[1..])
  }

  /** Following the cursors over a fixed table of any size yields each of its rows exactly once, newest first. */
  lemma {:induction false} PagesEnumerate(table: set<Key>, cursor: Option<Key>)
    ensures Concat(Pages(table, cursor)) == Sorted(Visible(table, cursor))
    decreases Visible(table, cursor)
  {
    var page := PageAt(table, cursor);
    PageSplits(table, cursor);
    if page.next.Some? {
      PagesEnumerate(table, page.next);
      ConcatFirst(page.items, Pages(table, page.next));
    } else {
      ConcatFirst(page.items, []);
      assert [page.items] + [] == [page.items];
    }
  }

  /** Every page but the last has fifty rows, and the last is empty only if it is the only one. */
  predicate Full(pages: seq<seq<Key>>) {
    && |pages| > 0 && |pages[|pages| - 1]| <= 50
    && (forall i :: 0 <= i < |pages| - 1 ==> |pages[i]| == 50)
    && (|pages| > 1 ==> pages[|pages| - 1] != [])
  }

  lemma {:induction false} OneMorePage(first: seq<Key>, rest: seq<seq<Key>>)
    requires Full(rest) && |first| == PageSize && Concat(rest) != []
    ensures Full([first] + rest)
  {
    var pages := [first] + rest;
    assert forall i :: 0 < i < |pages| ==> pages[i] == rest[i - 1];
    if |rest| == 1 { assert Concat(rest) == rest[0] + Concat([]); }
  }

  lemma {:induction false} PagesAreFull(table: set<Key>, cursor: Option<Key>)
    ensures Full(Pages(table, cursor))
    decreases Visible(table, cursor)
  {
    var page := PageAt(table, cursor);
    PageSplits(table, cursor);
    if page.next.Some? {
      PagesAreFull(table, page.next);
      PagesEnumerate(table, page.next);
      EmptySorted(Visible(table, page.next));
      OneMorePage(page.items, Pages(table, page.next));
    }
  }

  lemma {:induction false} ConcatFirst(first: seq<Key>, rest: seq<seq<Key>>)
    ensures Concat([first] + rest) == first + Concat(rest)
  {
    assert ([first] + rest)[1..] == rest;
  }

  lemma {:induction false} EmptySorted(rows: set<Key>)
    ensures Sorted(rows) == [] <==> rows == {}
  {
  }

  // ---------------------------------------------------------------- while the table changes

  /** One page per table, each the state at the moment of its request; the list ends early when there is no cursor. */
  ghost function Browse(tables: seq<set<Key>>, cursor: Option<Key>): seq<Key>
    decreases |tables|
  {
    if tables == [] then []
    else
      var page := PageAt(tables[0], cursor);
      page.items + (if page.next.None? then [] else Browse(tables[1..], page.next))
  }

  /** Newest first, and of rows of one time the one with the greater id first. */
  predicate NewestFirst(s: seq<Key>) {
    forall i, j :: 0 <= i < j < |s| ==> s[j].at <= s[i].at && (s[j].at == s[i].at ==> s[j].id < s[i].id)
  }

  predicate Older(k: Key, than: Key) {
    k.at <= than.at && (k.at == than.at ==> k.id < than.id)
  }

  lemma PrefixIsNewest(all: seq<Key>, n: nat)
    requires Descending(all) && n <= |all|
    ensures NewestFirst(all[..n])
    ensures forall k, shown :: k in all && k !in all[..n] && shown in all[..n] ==> Older(k, shown)
  {
    forall k, shown | k in all && k !in all[..n] && shown in all[..n] ensures Older(k, shown) {
      Cut(all, n, k);
      var i :| 0 <= i < n && all[i] == shown;
      assert i < n - 1 ==> Less(all[n - 1], all[i]);
    }
  }

  /** The page after a cursor lists, newest first, up to fifty of the rows that are older than it or have its time and a
      smaller id, and leaves out none that is newer than one it lists. */
  lemma PageLists(table: set<Key>, cursor: Option<Key>)
    ensures var page := PageAt(table, cursor);
      && NewestFirst(page.items) && |page.items| <= 50
      && (forall k :: k in page.items ==> k in table && (cursor.Some? ==> Older(k, cursor.value)))
      && (forall k, shown :: k in table && k !in page.items && shown in page.items ==>
            (cursor.Some? && !Older(k, cursor.value)) || Older(k, shown))
  {
    var all := Sorted(Visible(table, cursor));
    var n := Min(PageSize, |all|);
    PrefixIsNewest(all, n);
    assert PageAt(table, cursor).items == all[..n];
    forall k | k in all[..n] ensures k in Visible(table, cursor) { assert k in all; }
  }

  /** Did the requests reach the end? */
  ghost predicate Finishes(tables: seq<set<Key>>, cursor: Option<Key>)
    decreases |tables|
  {
    tables != []
    && var page := PageAt(tables[0], cursor);
       page.next.None? || Finishes(tables[1..], page.next)
  }

  /** What a page says of one row of the table. */
  ghost predicate PageTells(page: Page, table: set<Key>, cursor: Option<Key>, k: Key) {
    && (k in page.items ==> k in table && Below(cursor, k) && (page.next.Some? ==> k == page.next.value || Less(page.next.value, k)))
    && (k in table && Below(cursor, k) && k !in page.items ==> page.next.Some? && Less(k, page.next.value))
  }

  lemma PageOfTells(all: seq<Key>, table: set<Key>, cursor: Option<Key>, k: Key)
    requires IsSorted(all, Visible(table, cursor))
    ensures PageTells(PageOf(Limited(all)), table, cursor, k)
  {
    assert k in all <==> k in Visible(table, cursor);
    if |all| > PageSize {
      assert Limited(all)[..PageSize] == all[..PageSize];
      assert k in all[..PageSize] ==> k in all;
      if k in all { Cut(all, PageSize, k); }
    } else {
      assert Limited(all) == all;
    }
  }

  lemma PageOfDescends(all: seq<Key>)
    requires Descending(all)
    ensures Descending(PageOf(Limited(all)).items)
  {
    var items := PageOf(Limited(all)).items;
    assert forall i :: 0 <= i < |items| ==> items[i] == all[i];
  }

  lemma PageBelow(table: set<Key>, cursor: Option<Key>)
    ensures var page := PageAt(table, cursor);
      && Descending(page.items) && (page.next.Some? ==> Below(cursor, page.next.value))
      && forall k :: PageTells(page, table, cursor, k)
  {
    var all := Sorted(Visible(table, cursor));
    PageOfSplits(all, table, cursor);
    PageOfDescends(all);
    forall k ensures PageTells(PageAt(table, cursor), table, cursor, k) { PageOfTells(all, table, cursor, k); }
  }

  /** However the table changes between the requests: nothing is listed twice, the list only descends, and a row that
      is there throughout is listed once the end is reached; rows that come or go never make it skipped or repeated. */
  lemma {:induction false} LastingRowsAreListedOnce(tables: seq<set<Key>>, cursor: Option<Key>)
    ensures Descending(Browse(tables, cursor))
    ensures forall k :: k in Browse(tables, cursor) ==> Below(cursor, k)
    ensures Finishes(tables, cursor) ==>
              forall k :: Lasts(tables, k) && Below(cursor, k) ==> k in Browse(tables, cursor)
    decreases |tables|
  {
    if tables != [] {
      var page := PageAt(tables[0], cursor);
      PageBelow(tables[0], cursor);
      forall k ensures PageTells(page, tables[0], cursor, k) {}
      if page.next.Some? {
        LastingRowsAreListedOnce(tables[1..], page.next);
        var rest := Browse(tables[1..], page.next);
        DescendingConcat(page.items, rest, page.next.value);
      }
      forall k | Lasts(tables, k) && Below(cursor, k) && Finishes(tables, cursor) ensures k in Browse(tables, cursor) {
        LastsOn(tables, k);
        assert PageTells(page, tables[0], cursor, k);
        if k !in page.items {
          assert page.next.Some? && Less(k, page.next.value);
          assert k in Browse(tables[1..], page.next);
        }
      }
    }
  }

  /** The row is in every one of the tables. */
  ghost predicate Lasts(tables: seq<set<Key>>, k: Key) {
    forall i :: 0 <= i < |tables| ==> k in tables[i]
  }

  lemma LastsOn(tables: seq<set<Key>>, k: Key)
    requires Lasts(tables, k) && tables != []
    ensures k in tables[0] && Lasts(tables[1..], k)
  {
  }

  lemma DescendingConcat(a: seq<Key>, b: seq<Key>, border: Key)
    requires Descending(a) && Descending(b)
    requires forall k :: k in a ==> k == border || Less(border, k)
    requires forall k :: k in b ==> Less(k, border)
    ensures Descending(a + b)
  {
    var c := a + b;
    forall i, j | 0 <= i < j < |c| ensures Less(c[j], c[i]) {
      if i < |a| <= j { assert c[i] in a && c[j] in b; }
    }
  }

  /** Rows inserted later with newer keys change nothing: the list is the one of the table at the first request. */
  lemma {:induction false} NewerRowsChangeNothing(tables: seq<set<Key>>, first: set<Key>, cursor: Option<Key>)
    requires forall i :: 0 <= i < |tables| ==> Visible(tables[i], cursor) == Visible(first, cursor)
    ensures Finishes(tables, cursor) ==> Browse(tables, cursor) == Sorted(Visible(first, cursor))
    decreases |tables|
  {
    if tables != [] {
      PageSplits(tables[0], cursor);
      var page := PageAt(tables[0], cursor);
      if page.next.Some? {
        forall i | 0 <= i < |tables[1..]| ensures Visible(tables[1..][i], page.next) == Visible(first, page.next) {
          SameBelow(tables[i + 1], first, cursor, page.next.value);
        }
        SameBelow(tables[0], first, cursor, page.next.value);
        NewerRowsChangeNothing(tables[1..], first, page.next);
      }
    }
  }

  lemma SameBelow(a: set<Key>, b: set<Key>, cursor: Option<Key>, lower: Key)
    requires Visible(a, cursor) == Visible(b, cursor) && Below(cursor, lower)
    ensures Visible(a, Some(lower)) == Visible(b, Some(lower))
  {
    forall k ensures k in Visible(a, Some(lower)) <==> k in Visible(b, Some(lower)) {
      assert k in Visible(a, cursor) <==> k in Visible(b, cursor);
    }
  }

  /** Rows are only added, and newer than every row of the first table. */
  ghost predicate AddsNewer(first: set<Key>, later: set<Key>) {
    first <= later && forall k, seen :: k in later && k !in first && seen in first ==> Less(seen, k)
  }

  lemma NewerIsInvisible(first: set<Key>, later: set<Key>, cursor: Key)
    requires AddsNewer(first, later) && cursor in first
    ensures Visible(later, Some(cursor)) == Visible(first, Some(cursor))
  {
    forall k ensures k in Visible(later, Some(cursor)) <==> k in Visible(first, Some(cursor)) {
      if k in later && k !in first { assert Less(cursor, k); }
    }
  }

  /** As orders arrive: the first request sees the first table, and what is inserted afterwards is newer than all of it.
      The pages then list exactly the first table's rows: none is skipped, none repeated, and no new one gets between. */
  lemma {:induction false} OrdersArriving(first: set<Key>, later: seq<set<Key>>)
    requires forall i :: 0 <= i < |later| ==> AddsNewer(first, later[i])
    ensures Finishes([first] + later, None) ==> Browse([first] + later, None) == Sorted(first)
  {
    var page := PageAt(first, None);
    PageSplits(first, None);
    assert Visible(first, None) == first;
    assert ([first] + later)[1..] == later;
    if page.next.Some? {
      forall i | 0 <= i < |later| ensures Visible(later[i], page.next) == Visible(first, page.next) {
        NewerIsInvisible(first, later[i], page.next.value);
      }
      NewerRowsChangeNothing(later, first, page.next);
    }
  }

  // ---------------------------------------------------------------- the cursor of the history

  function Digit(d: nat): char
    requires d < 10
  {
    ('0' as int + d) as char
  }

  /** strconv.FormatUint(n, 10). */
  function FormatUint(n: nat): (s: string)
    ensures s != ""
  {
    if n < 10 then [Digit(n)] else FormatUint(n / 10) + [Digit(n % 10)]
  }

  function Value(s: string): nat
    requires AllDigits(s)
  {
    if s == "" then 0 else Value(s[..|s| - 1]) * 10 + (s[|s| - 1] as int - '0' as int)
  }

  /** strconv.ParseUint(s, 10, 64). */
  function ParseUint(s: string): Option<nat> {
    if s == "" || !AllDigits(s) || Value(s) >= 0x1_0000_0000_0000_0000 then None else Some(Value(s))
  }

  /** ListHistory takes a text that is the decimal form of a positive number, and no other. */
  function ParseBefore(s: string): Option<nat> {
    var n := ParseUint(s);
    if n.None? || n.value == 0 || FormatUint(n.value) != s then None else n
  }

  lemma {:induction false} FormatRoundTrip(n: nat)
    ensures AllDigits(FormatUint(n)) && Value(FormatUint(n)) == n
    decreases n
  {
    if n >= 10 {
      FormatRoundTrip(n / 10);
      var s := FormatUint(n);
      assert s[..|s| - 1] == FormatUint(n / 10);
    } else {
      assert FormatUint(n)[..0] == "";
    }
  }

  /** Every id that a page hands out as its cursor is accepted as that id, and an accepted text is such an id's only
      form, so no two texts stand for one place. */
  lemma {:induction false} HistoryCursorRoundTrip(n: nat, s: string)
    ensures 0 < n < 0x1_0000_0000_0000_0000 ==> ParseBefore(FormatUint(n)) == Some(n)
    ensures ParseBefore(s) == Some(n) <==> s == FormatUint(n) && 0 < n < 0x1_0000_0000_0000_0000
  {
    FormatRoundTrip(n);
  }
}
