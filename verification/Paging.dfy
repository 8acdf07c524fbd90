/** Keyset paging: every page is the head of what lies beyond the cursor, and the cursor is the last key shown. */
module Paging {
  import opened Prelude

  ghost predicate StrictTotal<K(!new)>(lt: (K, K) -> bool) {
    && (forall a :: !lt(a, a))
    && (forall a, b, c :: lt(a, b) && lt(b, c) ==> lt(a, c))
    && (forall a, b :: a != b ==> lt(a, b) || lt(b, a))
  }

  ghost predicate Increasing<K(!new)>(lt: (K, K) -> bool, s: seq<K>) {
    forall i, j :: 0 <= i < j < |s| ==> lt(s[i], s[j])
  }

  ghost predicate IsFirst<K(!new)>(lt: (K, K) -> bool, s: set<K>, k: K) {
    k in s && forall j :: j in s && j != k ==> lt(k, j)
  }

  lemma {:induction false} FirstExists<K(!new)>(lt: (K, K) -> bool, s: set<K>)
    requires StrictTotal(lt) && s != {}
    ensures exists k :: IsFirst(lt, s, k)
  {
    var x :| x in s;
    if s == {x} {
      assert IsFirst(lt, s, x);
    } else {
      assert s <= s - {x} + {x};
      FirstExists(lt, s - {x});
      var y :| IsFirst(lt, s - {x}, y);
      var z := if lt(x, y) then x else y;
      forall j | j in s && j != z ensures lt(z, j) {
        assert j == x || j in s - {x};
      }
      assert IsFirst(lt, s, z);
    }
  }

  ghost function First<K(!new)>(lt: (K, K) -> bool, s: set<K>): (k: K)
    requires StrictTotal(lt) && s != {}
    ensures IsFirst(lt, s, k)
  {
    FirstExists(lt, s);
    var k :| IsFirst(lt, s, k);
    k
  }

  /** ORDER BY: the plain sorted list. */
  ghost function Sorted<K(!new)>(lt: (K, K) -> bool, s: set<K>): (r: seq<K>)
    requires StrictTotal(lt)
    ensures (forall k :: k in r <==> k in s) && Increasing(lt, r)
    decreases |s|
  {
    if s == {} then []
    else
      var k := First(lt, s);
      [k] + Sorted(lt, s - {k})
  }

  /** The keyset condition of a cursor. */
  ghost predicate Beyond<K(!new)>(lt: (K, K) -> bool, cursor: Option<K>, k: K) {
    cursor.None? || lt(cursor.value, k)
  }

  ghost function Later<K(!new)>(lt: (K, K) -> bool, s: set<K>, cursor: Option<K>): set<K> {
    set k | k in s && Beyond(lt, cursor, k)
  }

  datatype Page<+K> = Page(items: seq<K>, next: Option<K>)

  function Take<K>(s: seq<K>, n: nat): seq<K> {
    if |s| <= n then s else s[..n]
  }

  /** LIMIT limit + 1, cut to limit; the extra row only says that there is a next page. */
  ghost function PageOf<K(!new)>(lt: (K, K) -> bool, s: set<K>, cursor: Option<K>, limit: nat): Page<K>
    requires StrictTotal(lt)
  {
    var rows := Take(Sorted(lt, Later(lt, s, cursor)), limit + 1);
    var page := Take(rows, limit);
    Page(page, if |rows| > limit && |page| > 0 then Some(page[|page| - 1]) else None)
  }

  const MAX_LIMIT := 200

  /** clampLimit. */
  function ClampLimit(limit: Option<int>, fallback: nat): (n: int)
    ensures limit.Some? || 1 <= fallback <= MAX_LIMIT ==> 1 <= n <= MAX_LIMIT
    ensures limit.Some? && 1 <= limit.value <= MAX_LIMIT ==> n == limit.value
  {
    var asked := if limit.Some? then limit.value else fallback;
    Max(1, if asked < MAX_LIMIT then asked else MAX_LIMIT)
  }

  // ---- one page ----

  lemma PageIs<K(!new)>(lt: (K, K) -> bool, s: set<K>, cursor: Option<K>, limit: nat)
    requires StrictTotal(lt) && limit >= 1
    ensures var all := Sorted(lt, Later(lt, s, cursor)); var p := PageOf(lt, s, cursor, limit);
      && p.items == Take(all, limit)
      && (p.next.Some? <==> |all| > limit)
      && (p.next.Some? ==> p.items != [] && p.next.value == p.items[|p.items| - 1])
  {
  }

  lemma TakeCovers<K(!new)>(lt: (K, K) -> bool, all: seq<K>, limit: nat)
    requires StrictTotal(lt) && limit >= 1 && Increasing(lt, all)
    ensures var items := Take(all, limit);
      && Increasing(lt, items)
      && (forall k :: k in items ==> k in all)
      && (|all| > limit ==>
            items != [] && items[|items| - 1] in items &&
            (forall k :: k in items ==> k == items[|items| - 1] || lt(k, items[|items| - 1])) &&
            (forall k :: k in all ==> k in items || lt(items[|items| - 1], k)))
  {
    hide StrictTotal;
    var items := Take(all, limit);
    forall k | k in all ensures k in items || (|all| > limit && lt(items[|items| - 1], k)) {
      var i :| 0 <= i < |all| && all[i] == k;
      if i < |items| {
        assert items[i] == k;
      }
    }
  }

  /** A page is in order, beyond its cursor and part of the table; what it leaves out is beyond the next cursor. */
  lemma PageCovers<K(!new)>(lt: (K, K) -> bool, s: set<K>, cursor: Option<K>, limit: nat)
    requires StrictTotal(lt) && limit >= 1
    ensures var p := PageOf(lt, s, cursor, limit);
      && Increasing(lt, p.items)
      && (forall k :: k in p.items ==> k in s && Beyond(lt, cursor, k))
      && (forall k :: k in s && Beyond(lt, cursor, k) ==> k in p.items || (p.next.Some? && lt(p.next.value, k)))
      && (p.next.Some? ==> p.next.value in p.items && forall k :: k in p.items ==> k == p.next.value || lt(k, p.next.value))
  {
    PageIs(lt, s, cursor, limit);
    var all := Sorted(lt, Later(lt, s, cursor));
    assert forall k :: k in all <==> k in s && Beyond(lt, cursor, k) by {
      assert forall k :: k in all <==> k in Later(lt, s, cursor);
    }
    TakeCovers(lt, all, limit);
    hide PageOf, Sorted, Beyond, Later, StrictTotal, Take, Increasing;
  }

  // ---- following nextCursor, over tables that may change between the pages ----

  function CursorAt<K>(pages: seq<Page<K>>, i: nat): Option<K>
    requires i <= |pages|
  {
    if i == 0 then None else pages[i - 1].next
  }

  /** Page i is read from table i; every page but the last leads on. */
  ghost predicate Session<K(!new)>(lt: (K, K) -> bool, tables: seq<set<K>>, limit: nat, pages: seq<Page<K>>)
    requires StrictTotal(lt)
  {
    && limit >= 1 && |pages| == |tables| && pages != []
    && (forall i :: 0 <= i < |pages| ==> pages[i] == PageOf(lt, tables[i], CursorAt(pages, i), limit))
    && (forall i :: 0 <= i < |pages| - 1 ==> pages[i].next.Some?)
  }

  ghost predicate Complete<K(!new)>(lt: (K, K) -> bool, tables: seq<set<K>>, limit: nat, pages: seq<Page<K>>)
    requires StrictTotal(lt)
  {
    Session(lt, tables, limit, pages) && pages[|pages| - 1].next.None?
  }

  function Shown<K>(pages: seq<Page<K>>): seq<K> {
    if pages == [] then [] else Shown(pages[..|pages| - 1]) + pages[|pages| - 1].items
  }

  lemma {:induction false} ShownSoFar<K(!new)>(lt: (K, K) -> bool, tables: seq<set<K>>, limit: nat, pages: seq<Page<K>>, n: nat)
    requires StrictTotal(lt) && Session(lt, tables, limit, pages) && n <= |pages|
    ensures var out := Shown(pages[..n]); var cursor := CursorAt(pages, n);
      && Increasing(lt, out)
      && (cursor.Some? ==> forall k :: k in out ==> k == cursor.value || lt(k, cursor.value))
  {
    hide PageOf, StrictTotal;
    if n > 0 {
      ShownSoFar(lt, tables, limit, pages, n - 1);
      PageCovers(lt, tables[n - 1], CursorAt(pages, n - 1), limit);
      assert pages[..n][..n - 1] == pages[..n - 1];
      JoinIncreasing(lt, Shown(pages[..n - 1]), CursorAt(pages, n - 1), pages[n - 1]);
    }
  }

  lemma JoinIncreasing<K(!new)>(lt: (K, K) -> bool, out: seq<K>, cursor: Option<K>, p: Page<K>)
    requires StrictTotal(lt) && Increasing(lt, out) && Increasing(lt, p.items)
    requires if cursor.Some? then forall k :: k in out ==> k == cursor.value || lt(k, cursor.value) else out == []
    requires forall k :: k in p.items ==> Beyond(lt, cursor, k)
    requires p.next.Some? ==> p.next.value in p.items && forall k :: k in p.items ==> k == p.next.value || lt(k, p.next.value)
    ensures Increasing(lt, out + p.items)
    ensures p.next.Some? ==> forall k :: k in out + p.items ==> k == p.next.value || lt(k, p.next.value)
  {
    forall a, b | a in out && b in p.items ensures lt(a, b) {
      assert Beyond(lt, cursor, b);
    }
  }

  /** Nothing is shown twice, whatever happened to the table in between. */
  lemma NothingTwice<K(!new)>(lt: (K, K) -> bool, tables: seq<set<K>>, limit: nat, pages: seq<Page<K>>)
    requires StrictTotal(lt) && Session(lt, tables, limit, pages)
    ensures Increasing(lt, Shown(pages)) && Distinct(Shown(pages))
  {
    ShownSoFar(lt, tables, limit, pages, |pages|);
    assert pages[..|pages|] == pages;
    hide PageOf;
  }

  /** A key in every table is shown by the end of a complete session. */
  lemma {:induction false} ReachedSoFar<K(!new)>(
      lt: (K, K) -> bool, tables: seq<set<K>>, limit: nat, pages: seq<Page<K>>, n: nat, k: K)
    requires StrictTotal(lt) && Session(lt, tables, limit, pages) && n <= |pages| && forall i :: 0 <= i < |tables| ==> k in tables[i]
    ensures k in Shown(pages[..n]) || n == 0 || (pages[n - 1].next.Some? && lt(pages[n - 1].next.value, k))
  {
    hide PageOf, StrictTotal;
    if n > 0 {
      ReachedSoFar(lt, tables, limit, pages, n - 1, k);
      PageCovers(lt, tables[n - 1], CursorAt(pages, n - 1), limit);
      assert pages[..n][..n - 1] == pages[..n - 1];
    }
  }

  lemma LiveThroughoutShown<K(!new)>(lt: (K, K) -> bool, tables: seq<set<K>>, limit: nat, pages: seq<Page<K>>, k: K)
    requires StrictTotal(lt) && Complete(lt, tables, limit, pages) && forall i :: 0 <= i < |tables| ==> k in tables[i]
    ensures k in Shown(pages)
  {
    hide StrictTotal, PageOf;
    ReachedSoFar(lt, tables, limit, pages, |pages|, k);
    assert pages[..|pages|] == pages;
  }

  /** Only what some page's table held is shown. */
  lemma {:induction false} ShownWasThere<K(!new)>(
      lt: (K, K) -> bool, tables: seq<set<K>>, limit: nat, pages: seq<Page<K>>, n: nat, k: K)
    requires StrictTotal(lt) && Session(lt, tables, limit, pages) && n <= |pages| && k in Shown(pages[..n])
    ensures exists i :: 0 <= i < n && k in tables[i]
  {
    hide PageOf, StrictTotal;
    assert pages[..n][..n - 1] == pages[..n - 1];
    if k in pages[n - 1].items {
      PageCovers(lt, tables[n - 1], CursorAt(pages, n - 1), limit);
      assert k in tables[n - 1];
    } else {
      ShownWasThere(lt, tables, limit, pages, n - 1, k);
    }
  }

  // ---- an item whose key moves towards the front ----

  /** Cursors only move on. */
  lemma {:induction false} CursorsMoveOn<K(!new)>(lt: (K, K) -> bool, tables: seq<set<K>>, limit: nat, pages: seq<Page<K>>, i: nat, j: nat)
    requires StrictTotal(lt) && Session(lt, tables, limit, pages) && 0 < i <= j < |pages|
    ensures var c, d := CursorAt(pages, i), CursorAt(pages, j); c.Some? && d.Some? && (c == d || lt(c.value, d.value))
  {
    hide PageOf, StrictTotal;
    if i < j {
      CursorsMoveOn(lt, tables, limit, pages, i, j - 1);
      PageCovers(lt, tables[j - 1], CursorAt(pages, j - 1), limit);
      var b, c, d := CursorAt(pages, i).value, CursorAt(pages, j - 1).value, CursorAt(pages, j).value;
      Chain(lt, b, c, d);
    }
  }

  lemma Chain<K(!new)>(lt: (K, K) -> bool, a: K, b: K, c: K)
    requires StrictTotal(lt) && (a == b || lt(a, b)) && lt(b, c)
    ensures lt(a, c)
  {
  }

  /** From behind c to the front of something not behind c: still not behind it. */
  lemma StaysPast<K(!new)>(lt: (K, K) -> bool, c: K, k: K, l: K)
    requires StrictTotal(lt) && !lt(c, k) && (l == k || lt(l, k))
    ensures !lt(c, l)
  {
  }

  lemma StaysBehind<K(!new)>(lt: (K, K) -> bool, b: K, c: K, l: K, k: K)
    requires StrictTotal(lt) && (b == c || lt(b, c)) && lt(c, l) && (l == k || lt(l, k))
    ensures lt(b, k) && k != b && !lt(k, b)
  {
    Chain(lt, b, c, l);
    assert lt(b, k) by { if l != k { Chain(lt, b, l, k); } }
  }

  /** What is on a page lies behind its cursor, and not behind the next one. */
  lemma OnPage<K(!new)>(lt: (K, K) -> bool, tables: seq<set<K>>, limit: nat, pages: seq<Page<K>>, i: nat, k: K)
    requires StrictTotal(lt) && Session(lt, tables, limit, pages) && i < |pages| && k in pages[i].items
    ensures Beyond(lt, CursorAt(pages, i), k)
    ensures i + 1 < |pages| ==> CursorAt(pages, i + 1).Some? && !lt(CursorAt(pages, i + 1).value, k)
  {
    PageCovers(lt, tables[i], CursorAt(pages, i), limit);
    hide PageOf;
    if i + 1 < |pages| {
      var c := CursorAt(pages, i + 1).value;
      hide Session, CursorAt;
      assert k == c || lt(k, c);
    }
  }

  /** A key at or before an earlier cursor is on no later page. */
  lemma PastIsNotShown<K(!new)>(lt: (K, K) -> bool, tables: seq<set<K>>, limit: nat, pages: seq<Page<K>>, i: nat, j: nat, k: K)
    requires StrictTotal(lt) && Session(lt, tables, limit, pages) && 0 < i <= j < |pages|
    requires CursorAt(pages, i).Some? && !lt(CursorAt(pages, i).value, k)
    ensures k !in pages[j].items
  {
    hide Session, CursorAt, StrictTotal;
    CursorsMoveOn(lt, tables, limit, pages, i, j);
    var c, d := CursorAt(pages, i).value, CursorAt(pages, j).value;
    if lt(d, k) {
      Chain(lt, c, d, k);
    }
    if k in pages[j].items {
      OnPage(lt, tables, limit, pages, j, k);
    }
  }

  /** What was shown and has since moved to the front, or stayed, is not shown again. */
  lemma MovedNotShownAgain<K(!new)>(
      lt: (K, K) -> bool, tables: seq<set<K>>, limit: nat, pages: seq<Page<K>>, i: nat, j: nat, k: K, l: K)
    requires StrictTotal(lt) && Session(lt, tables, limit, pages) && i < j < |pages|
    requires k in pages[i].items && (l == k || lt(l, k))
    ensures l !in pages[j].items
  {
    hide Session, CursorAt, StrictTotal;
    OnPage(lt, tables, limit, pages, i, k);
    StaysPast(lt, CursorAt(pages, i + 1).value, k, l);
    PastIsNotShown(lt, tables, limit, pages, i + 1, j, l);
  }

  /** The keys one item has at each read. */
  ghost predicate MovesForward<K(!new)>(lt: (K, K) -> bool, tables: seq<set<K>>, keys: seq<K>) {
    && |keys| == |tables| && (forall i :: 0 <= i < |keys| ==> keys[i] in tables[i])
    && (forall i, j :: 0 <= i < j < |keys| ==> keys[j] == keys[i] || lt(keys[j], keys[i]))
  }

  /** Between reads i - 1 and i the item goes from behind the cursor to it or before it. */
  ghost predicate JumpsAt<K(!new)>(lt: (K, K) -> bool, pages: seq<Page<K>>, keys: seq<K>, i: nat)
  {
    0 < i < |pages| && i < |keys| && CursorAt(pages, i).Some? && lt(CursorAt(pages, i).value, keys[i - 1]) && !lt(CursorAt(pages, i).value, keys[i])
  }

  lemma {:induction false} NotShownIsBehind<K(!new)>(
      lt: (K, K) -> bool, tables: seq<set<K>>, limit: nat, pages: seq<Page<K>>, keys: seq<K>, n: nat)
    requires StrictTotal(lt) && Session(lt, tables, limit, pages) && MovesForward(lt, tables, keys) && n < |pages|
    requires forall i :: 0 <= i < n ==> keys[i] !in pages[i].items
    requires forall i :: 0 < i <= n ==> !JumpsAt(lt, pages, keys, i)
    ensures Beyond(lt, CursorAt(pages, n), keys[n])
  {
    hide PageOf, StrictTotal;
    if n > 0 {
      NotShownIsBehind(lt, tables, limit, pages, keys, n - 1);
      PageCovers(lt, tables[n - 1], CursorAt(pages, n - 1), limit);
      assert !JumpsAt(lt, pages, keys, n);
    }
  }

  /** Whoever is behind a cursor was on no page before it. */
  lemma BehindIsUnseen<K(!new)>(
      lt: (K, K) -> bool, tables: seq<set<K>>, limit: nat, pages: seq<Page<K>>, i: nat, j: nat, k: K, l: K)
    requires StrictTotal(lt) && Session(lt, tables, limit, pages) && j < i < |pages| && (l == k || lt(l, k))
    requires CursorAt(pages, i).Some? && lt(CursorAt(pages, i).value, l)
    ensures k !in pages[j].items
  {
    hide Session, CursorAt, StrictTotal;
    CursorsMoveOn(lt, tables, limit, pages, j + 1, i);
    StaysBehind(lt, CursorAt(pages, j + 1).value, CursorAt(pages, i).value, l, k);
    if k in pages[j].items {
      OnPage(lt, tables, limit, pages, j, k);
    }
  }

  lemma ForwardFrom<K(!new)>(lt: (K, K) -> bool, tables: seq<set<K>>, keys: seq<K>, i: nat, j: nat)
    requires MovesForward(lt, tables, keys) && i <= j && j < |tables|
    ensures |keys| == |tables| && (keys[j] == keys[i] || lt(keys[j], keys[i]))
  {
  }

  lemma JumperIsMissed<K(!new)>(
      lt: (K, K) -> bool, tables: seq<set<K>>, limit: nat, pages: seq<Page<K>>, keys: seq<K>, i: nat, j: nat)
    requires StrictTotal(lt) && Session(lt, tables, limit, pages) && MovesForward(lt, tables, keys) && j < |pages|
    requires JumpsAt(lt, pages, keys, i)
    ensures j < |keys| && keys[j] !in pages[j].items
  {
    hide Session, CursorAt, StrictTotal, MovesForward;
    SameSize(lt, tables, limit, pages);
    if j < i {
      ForwardFrom(lt, tables, keys, j, i - 1);
      BehindIsUnseen(lt, tables, limit, pages, i, j, keys[j], keys[i - 1]);
    } else {
      ForwardFrom(lt, tables, keys, i, j);
      StaysPast(lt, CursorAt(pages, i).value, keys[i], keys[j]);
      PastIsNotShown(lt, tables, limit, pages, i, j, keys[j]);
    }
  }

  lemma SameSize<K(!new)>(lt: (K, K) -> bool, tables: seq<set<K>>, limit: nat, pages: seq<Page<K>>)
    requires StrictTotal(lt) && Session(lt, tables, limit, pages)
    ensures |tables| == |pages|
  {
  }

  /** An item in every table whose key only moves to the front is missed if and only if it jumps over a cursor. */
  lemma MissedIff<K(!new)>(lt: (K, K) -> bool, tables: seq<set<K>>, limit: nat, pages: seq<Page<K>>, keys: seq<K>)
    requires StrictTotal(lt) && Complete(lt, tables, limit, pages) && MovesForward(lt, tables, keys)
    ensures (forall i :: 0 <= i < |pages| ==> keys[i] !in pages[i].items) <==> exists i :: JumpsAt(lt, pages, keys, i)
  {
    hide PageOf, StrictTotal, JumpsAt;
    if i :| JumpsAt(lt, pages, keys, i) {
      forall j | 0 <= j < |pages| ensures keys[j] !in pages[j].items {
        JumperIsMissed(lt, tables, limit, pages, keys, i, j);
      }
    } else {
      var n := |pages| - 1;
      if forall i :: 0 <= i < n ==> keys[i] !in pages[i].items {
        NotShownIsBehind(lt, tables, limit, pages, keys, n);
        PageCovers(lt, tables[n], CursorAt(pages, n), limit);
        assert keys[n] in pages[n].items;
      }
    }
  }

  // ---- over a table that does not change ----

  lemma SameLength<K(!new)>(a: seq<K>, b: seq<K>)
    requires Distinct(a) && Distinct(b) && forall k :: k in a <==> k in b
    ensures |a| == |b|
  {
    DistinctCount(a);
    DistinctCount(b);
    assert (set k | k in a) == (set k | k in b);
  }

  lemma {:induction false} SameSorted<K(!new)>(lt: (K, K) -> bool, a: seq<K>, b: seq<K>)
    requires StrictTotal(lt) && Increasing(lt, a) && Increasing(lt, b) && forall k :: k in a <==> k in b
    ensures a == b
  {
    SameLength(a, b);
    if a != [] {
      assert a[0] in b && b[0] in a;
      assert a[0] == b[0];
      forall k ensures k in a[1..] <==> k in b[1..] {
        assert k in a[1..] ==> k in a && lt(a[0], k);
        assert k in b[1..] ==> k in b && lt(b[0], k);
        assert k in a && k != a[0] ==> k in a[1..];
        assert k in b && k != b[0] ==> k in b[1..];
      }
      SameSorted(lt, a[1..], b[1..]);
    }
  }

  /** Beyond the j-th key of the sorted list lies the rest of the list. */
  lemma RestOfList<K(!new)>(lt: (K, K) -> bool, s: set<K>, j: nat)
    requires StrictTotal(lt) && 0 < j <= |Sorted(lt, s)|
    ensures Sorted(lt, Later(lt, s, Some(Sorted(lt, s)[j - 1]))) == Sorted(lt, s)[j..]
  {
    hide Sorted;
    var all := Sorted(lt, s);
    var rest := Sorted(lt, Later(lt, s, Some(all[j - 1])));
    forall k ensures k in rest <==> k in all[j..] {
      assert k in rest <==> k in Later(lt, s, Some(all[j - 1]));
      if k in all {
        var i :| 0 <= i < |all| && all[i] == k;
        if i >= j {
          assert all[j..][i - j] == k;
        }
      }
      if k in all[j..] {
        var i :| 0 <= i < |all[j..]| && all[j..][i] == k;
        assert all[i + j] == k;
      }
    }
    SameSorted(lt, rest, all[j..]);
  }

  ghost predicate Unchanged<K(!new)>(tables: seq<set<K>>, s: set<K>) {
    forall i :: 0 <= i < |tables| ==> tables[i] == s
  }

  /** n full pages. */
  function Full(n: nat, limit: nat): nat {
    if n == 0 then 0 else Full(n - 1, limit) + limit
  }

  /** The page after the first `from` keys. */
  lemma PageAfter<K(!new)>(lt: (K, K) -> bool, s: set<K>, cursor: Option<K>, limit: nat, from: nat)
    requires StrictTotal(lt) && limit >= 1 && from <= |Sorted(lt, s)|
    requires cursor == if from == 0 then None else Some(Sorted(lt, s)[from - 1])
    ensures var all := Sorted(lt, s); var p := PageOf(lt, s, cursor, limit);
      && p.items == Take(all[from..], limit)
      && (p.next.Some? ==> from + limit < |all| && p.next == Some(all[from + limit - 1]))
      && (p.next.None? ==> |all| <= from + limit)
  {
    hide PageOf, Sorted, StrictTotal;
    var all := Sorted(lt, s);
    PageIs(lt, s, cursor, limit);
    if from > 0 {
      RestOfList(lt, s, from);
    } else {
      assert Later(lt, s, None) == s;
    }
    hide Later;
    assert Sorted(lt, Later(lt, s, cursor)) == all[from..];
  }

  lemma Extend<K>(all: seq<K>, from: nat, limit: nat)
    requires from <= |all|
    ensures all[..from] + Take(all[from..], limit) == Take(all, from + limit)
  {
  }

  /** After n pages: the head of the list, all of it once a page leads nowhere. */
  ghost predicate ListedTo<K>(all: seq<K>, out: seq<K>, next: Option<K>, n: nat, limit: nat) {
    && |out| <= |all| && out == all[..|out|]
    && (if n == 0 then out == []
        else if next.Some? then 0 < |out| == Full(n, limit) < |all| && next.value == all[|out| - 1]
        else out == all && |all| <= Full(n, limit) && (n > 1 ==> Full(n - 1, limit) < |all|))
  }

  lemma ListStep<K>(all: seq<K>, out: seq<K>, last: Option<K>, p: Page<K>, n: nat, limit: nat)
    requires limit >= 1 && ListedTo(all, out, last, n, limit) && (n > 0 ==> last.Some?)
    requires p.items == Take(all[|out|..], limit)
    requires p.next.Some? ==> |out| + limit < |all| && p.next == Some(all[|out| + limit - 1])
    requires p.next.None? ==> |all| <= |out| + limit
    ensures ListedTo(all, out + p.items, p.next, n + 1, limit)
  {
    Extend(all, |out|, limit);
  }

  lemma SessionPage<K(!new)>(lt: (K, K) -> bool, tables: seq<set<K>>, limit: nat, pages: seq<Page<K>>, i: nat)
    requires StrictTotal(lt) && Session(lt, tables, limit, pages) && i < |pages|
    ensures pages[i] == PageOf(lt, tables[i], CursorAt(pages, i), limit) && (i > 0 ==> pages[i - 1].next.Some?)
  {
    hide PageOf, StrictTotal;
  }

  lemma ShownNext<K>(pages: seq<Page<K>>, i: nat)
    requires i < |pages|
    ensures Shown(pages[..i + 1]) == Shown(pages[..i]) + pages[i].items
  {
    assert pages[..i + 1][..i] == pages[..i];
  }

  /** What the list shows after n pages. */
  ghost predicate ListedAfter<K(!new)>(lt: (K, K) -> bool, pages: seq<Page<K>>, s: set<K>, n: nat, limit: nat)
    requires StrictTotal(lt) && n <= |pages|
  {
    ListedTo(Sorted(lt, s), Shown(pages[..n]), CursorAt(pages, n), n, limit)
  }

  lemma ListMore<K(!new)>(
      lt: (K, K) -> bool, tables: seq<set<K>>, limit: nat, pages: seq<Page<K>>, s: set<K>, n: nat)
    requires StrictTotal(lt) && Session(lt, tables, limit, pages) && Unchanged(tables, s) && n < |pages|
    requires ListedAfter(lt, pages, s, n, limit)
    ensures ListedAfter(lt, pages, s, n + 1, limit)
  {
    hide PageOf, StrictTotal, Sorted, Shown, Full;
    var out, cursor := Shown(pages[..n]), CursorAt(pages, n);
    SessionPage(lt, tables, limit, pages, n);
    assert tables[n] == s;
    ShownNext(pages, n);
    hide Session, Unchanged;
    PageAfter(lt, s, cursor, limit, |out|);
    hide Take;
    ListStep(Sorted(lt, s), out, cursor, pages[n], n, limit);
  }

  lemma {:induction false} ListSoFar<K(!new)>(
      lt: (K, K) -> bool, tables: seq<set<K>>, limit: nat, pages: seq<Page<K>>, s: set<K>, n: nat)
    requires StrictTotal(lt) && Session(lt, tables, limit, pages) && Unchanged(tables, s) && n <= |pages|
    ensures ListedAfter(lt, pages, s, n, limit)
  {
    hide StrictTotal, Session, Unchanged;
    if n > 0 {
      hide ListedAfter;
      ListSoFar(lt, tables, limit, pages, s, n - 1);
      ListMore(lt, tables, limit, pages, s, n - 1);
    }
  }

  /** ceil(n / limit), and one page for an empty list. */
  function PageCount(n: nat, limit: nat): nat
    requires limit >= 1
  {
    if n == 0 then 1 else (n + limit - 1) / limit
  }

  lemma {:induction false} FullIs(n: nat, limit: nat)
    ensures Full(n, limit) == n * limit
  {
    if n > 0 {
      FullIs(n - 1, limit);
    }
  }

  lemma CountIs(n: nat, limit: nat, m: nat)
    requires limit >= 1 && m >= 1 && n <= Full(m, limit) && (m > 1 ==> Full(m - 1, limit) < n)
    ensures m == PageCount(n, limit)
  {
    FullIs(m, limit);
    FullIs(m - 1, limit);
    if n > 0 {
      QuotientIs(n + limit - 1, limit, m);
    }
  }

  lemma QuotientIs(a: nat, limit: nat, m: nat)
    requires limit >= 1 && m * limit <= a < m * limit + limit
    ensures a / limit == m
  {
    var q := a / limit;
    assert q * limit <= a < q * limit + limit;
    if q > m {
      AtLeastOnce(q - m, limit);
    } else if q < m {
      AtLeastOnce(m - q, limit);
    }
  }

  lemma AtLeastOnce(x: nat, limit: nat)
    requires x >= 1
    ensures x * limit >= limit
  {
  }

  /** Over a fixed table a complete session is the sorted list, cut into exactly as many pages as it takes. */
  lemma FixedTableIsSorted<K(!new)>(lt: (K, K) -> bool, tables: seq<set<K>>, limit: nat, pages: seq<Page<K>>, s: set<K>)
    requires StrictTotal(lt) && Complete(lt, tables, limit, pages) && Unchanged(tables, s)
    ensures Shown(pages) == Sorted(lt, s) && |pages| == PageCount(|s|, limit)
  {
    hide PageOf, StrictTotal, Sorted, PageCount;
    ListSoFar(lt, tables, limit, pages, s, |pages|);
    assert pages[..|pages|] == pages;
    hide Session, Unchanged;
    SortedCounts(lt, s);
    CountIs(|s|, limit, |pages|);
  }

  lemma {:induction false} SortedCounts<K(!new)>(lt: (K, K) -> bool, s: set<K>)
    requires StrictTotal(lt)
    ensures |Sorted(lt, s)| == |s|
    decreases |s|
  {
    if s != {} {
      SortedCounts(lt, s - {First(lt, s)});
    }
  }

  /** Over a fixed table following nextCursor ends: no session is longer than the number of pages. */
  lemma FixedTableEnds<K(!new)>(lt: (K, K) -> bool, tables: seq<set<K>>, limit: nat, pages: seq<Page<K>>, s: set<K>)
    requires StrictTotal(lt) && Session(lt, tables, limit, pages) && Unchanged(tables, s)
    ensures |pages| <= PageCount(|s|, limit)
    ensures pages[|pages| - 1].next.None? <==> |pages| == PageCount(|s|, limit)
  {
    hide PageOf, StrictTotal, Sorted, PageCount;
    ListSoFar(lt, tables, limit, pages, s, |pages|);
    hide Session, Unchanged;
    SortedCounts(lt, s);
    if pages[|pages| - 1].next.Some? {
      MoreToCome(|s|, limit, |pages|);
    } else {
      CountIs(|s|, limit, |pages|);
    }
  }

  lemma MoreToCome(n: nat, limit: nat, m: nat)
    requires limit >= 1 && Full(m, limit) < n
    ensures m < PageCount(n, limit)
  {
    FullIs(m, limit);
    var a := n + limit - 1;
    assert (m + 1) * limit == m * limit + limit;
    assert limit * (a / limit) + a % limit == a;
    assert limit * (a / limit) > limit * m;
  }
}
