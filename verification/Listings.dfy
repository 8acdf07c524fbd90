/** The listings that page: transcripts and chats, the address book, and the history with its CSV export. */
module Listings {
  import opened Prelude
  import opened ArchiveTypes
  import opened Ingest
  import opened Runs
  import opened Tokens
  import opened Consistency
  import opened Paging

  // ---- orders ----

  /** Text by code points. */
  predicate TextLess(a: string, b: string) {
    b != "" && (a == "" || a[0] < b[0] || (a[0] == b[0] && TextLess(a[1..], b[1..])))
  }

  lemma {:induction false} TextTrans(a: string, b: string, c: string)
    requires TextLess(a, b) && TextLess(b, c)
    ensures TextLess(a, c)
  {
    if a != "" && a[0] == b[0] == c[0] {
      TextTrans(a[1..], b[1..], c[1..]);
    }
  }

  lemma {:induction false} TextTotal(a: string, b: string)
    ensures !TextLess(a, a)
    ensures a != b ==> TextLess(a, b) || TextLess(b, a)
  {
    if a != "" {
      TextTotal(a[1..], if b == "" then "" else b[1..]);
    }
    if a != "" && b != "" && a[0] == b[0] && a != b {
      assert a == [a[0]] + a[1..] && b == [b[0]] + b[1..];
    }
  }

  lemma TextStrictTotal()
    ensures StrictTotal(TextLess)
  {
    forall a: string, b: string ensures !TextLess(a, a) && (a != b ==> TextLess(a, b) || TextLess(b, a)) {
      TextTotal(a, b);
    }
    forall a: string, b: string, c: string | TextLess(a, b) && TextLess(b, c) ensures TextLess(a, c) {
      TextTrans(a, b, c);
    }
  }

  /** The sort key of messages, chats and history events: an instant and an id, newest first. */
  datatype Stamp = Stamp(at: Time, id: string)

  predicate Newest(a: Stamp, b: Stamp) {
    a.at > b.at || (a.at == b.at && TextLess(b.id, a.id))
  }

  lemma NewestStrictTotal()
    ensures StrictTotal(Newest)
  {
    TextStrictTotal();
    hide TextLess;
  }

  /** The sort key of the address book: the lower-cased name, then the id. */
  datatype NameKey = NameKey(name: string, id: string)

  predicate ByName(a: NameKey, b: NameKey) {
    TextLess(a.name, b.name) || (a.name == b.name && TextLess(a.id, b.id))
  }

  lemma ByNameStrictTotal()
    ensures StrictTotal(ByName)
  {
    TextStrictTotal();
    hide TextLess;
  }

  // ---- cursors ----

  function Decimal(n: nat): (s: string)
    ensures s != "" && forall c :: c in s ==> IsDigit(c)
  {
    var d := ['0' + (n % 10) as char];
    if n < 10 then d else Decimal(n / 10) + d
  }

  function ShowTime(t: Time): string {
    if t < 0 then "-" + Decimal(-t) else Decimal(t)
  }

  predicate AllDigits(s: string) {
    s != "" && forall c :: c in s ==> IsDigit(c)
  }

  /** Plain decimal integers; the other spellings Number() accepts never leave encodeCursor. */
  function ReadTime(s: string): Option<Time> {
    if s != "" && s[0] == '-' && AllDigits(s[1..]) then
      var n: int := DigitsValue(s[1..]);
      Some(-n)
    else if AllDigits(s) then Some(DigitsValue(s)) else None
  }

  function Find(s: string, c: char): (n: nat)
    ensures n <= |s| && (n < |s| ==> s[n] == c) && forall i :: 0 <= i < n ==> s[i] != c
  {
    if s == "" || s[0] == c then 0 else 1 + Find(s[1..], c)
  }

  /** `${time}:${id}` for messages and chats, `${time}_${id}` for history events. */
  function EncodeCursor(k: Stamp, sep: char): string {
    ShowTime(k.at) + [sep] + k.id
  }

  function DecodeCursor(s: string, sep: char): Option<Stamp> {
    var n := Find(s, sep);
    if n == 0 || n >= |s| then None
    else
      var at, id := ReadTime(s[..n]), s[n + 1..];
      if at.None? || id == "" then None else Some(Stamp(at.value, id))
  }

  lemma {:induction false} DecimalReads(n: nat)
    ensures DigitsValue(Decimal(n)) == n
  {
    var s := Decimal(n);
    if n < 10 {
      assert s[..0] == "";
    } else {
      DecimalReads(n / 10);
      assert s[..|s| - 1] == Decimal(n / 10);
    }
  }

  lemma TimeReads(t: Time)
    ensures ReadTime(ShowTime(t)) == Some(t)
    ensures ShowTime(t) != "" && forall c :: c in ShowTime(t) ==> c == '-' || IsDigit(c)
  {
    if t < 0 {
      DecimalReads(-t);
      assert ShowTime(t)[1..] == Decimal(-t);
    } else {
      DecimalReads(t);
      var s := Decimal(t);
      assert s[0] in s;
    }
  }

  /** A cursor reads back as the key it was made from. */
  lemma CursorRoundTrip(k: Stamp, sep: char)
    requires k.id != "" && sep != '-' && !('0' <= sep <= '9')
    ensures DecodeCursor(EncodeCursor(k, sep), sep) == Some(k)
  {
    var t, s := ShowTime(k.at), EncodeCursor(k, sep);
    TimeReads(k.at);
    var n := Find(s, sep);
    assert s[|t|] == sep;
    assert forall i :: 0 <= i < |t| ==> s[i] == t[i] && t[i] in t;
    assert n == |t| && s[..n] == t && s[n + 1..] == k.id;
  }

  // ---- transcripts over a changing archive ----

  /** What a list sorts by: an instant, and an id whose order is any strict total one. */
  datatype Dated<+I> = Dated(at: Time, id: I)

  /** Newest first, ties by id. */
  ghost function DatedOrder<I(!new)>(ids: (I, I) -> bool): (Dated<I>, Dated<I>) -> bool {
    (a: Dated<I>, b: Dated<I>) => a.at > b.at || (a.at == b.at && ids(b.id, a.id))
  }

  lemma DatedStrictTotal<I(!new)>(ids: (I, I) -> bool)
    requires StrictTotal(ids)
    ensures StrictTotal(DatedOrder(ids))
  {
    var lt := DatedOrder(ids);
    forall a: Dated<I> ensures !lt(a, a) {
      assert !ids(a.id, a.id);
    }
    forall a: Dated<I>, b: Dated<I> | a != b ensures lt(a, b) || lt(b, a) {
      assert a.at == b.at ==> a.id != b.id;
      assert a.id != b.id ==> ids(a.id, b.id) || ids(b.id, a.id);
    }
    forall a: Dated<I>, b: Dated<I>, c: Dated<I> | lt(a, b) && lt(b, c) ensures lt(a, c) {
      assert ids(c.id, b.id) && ids(b.id, a.id) ==> ids(c.id, a.id);
    }
  }

  /** A line of a transcript. */
  type Line = Dated<MessageId>

  /** getMessages' options: one chat, between two instants if given. */
  datatype Window = Window(room: ChatKey, before: Option<Time>, after: Option<Time>)

  predicate InWindow(w: Window, p: Place, row: Row) {
    p.Room() == w.room && row.deletedAt.None? &&
    (w.before.Some? ==> row.body.sentAt < w.before.value) && (w.after.Some? ==> row.body.sentAt > w.after.value)
  }

  function Lines(st: State, w: Window): set<Line> {
    set p | p in st.messages && InWindow(w, p, st.messages[p].row) ::
      Dated(st.messages[p].row.body.sentAt, MessageId(p, st.messages[p].row.serial))
  }

  /** The archive as page i finds it, any steps having happened since page i - 1. */
  ghost predicate ReadsOf(start: seq<Step>, gaps: seq<seq<Step>>, views: seq<State>) {
    && |views| == |gaps| + 1 && views[0] == Run(EMPTY, start)
    && (forall i :: 0 <= i < |gaps| ==> views[i + 1] == Run(views[i], gaps[i]))
  }

  ghost predicate LiveAt(st: State, w: Window, id: MessageId) {
    id.at in st.messages && st.messages[id.at].row.serial == id.serial && InWindow(w, id.at, st.messages[id.at].row)
  }

  lemma {:induction false} ReadsKeep(start: seq<Step>, gaps: seq<seq<Step>>, views: seq<State>, i: nat)
    requires ReadsOf(start, gaps, views) && i < |views|
    ensures Inv(views[i])
  {
    hide Run, Inv;
    if i == 0 {
      ReachableConsistent(start);
    } else {
      ReadsKeep(start, gaps, views, i - 1);
      assert views[i - 1 + 1] == Run(views[i - 1], gaps[i - 1]);
      RunKeeps(views[i - 1], gaps[i - 1]);
    }
  }

  lemma {:induction false} ReadsGrow(start: seq<Step>, gaps: seq<seq<Step>>, views: seq<State>, i: nat, j: nat)
    requires ReadsOf(start, gaps, views) && i <= j < |views|
    ensures Grows(views[i], views[j], None)
  {
    hide Run, Grows;
    if i == j {
      GrowsWhenKept(views[i], views[i], None);
    } else {
      ReadsGrow(start, gaps, views, i, j - 1);
      assert views[j - 1 + 1] == Run(views[j - 1], gaps[j - 1]);
      RunGrows(views[j - 1], gaps[j - 1], None);
      GrowsTrans(views[i], views[j - 1], views[j], None);
    }
  }

  /** A message keeps its instant, so it is the same line at every read. */
  lemma SameLine(start: seq<Step>, gaps: seq<seq<Step>>, views: seq<State>, w: Window, i: nat, j: nat, k: Line, l: Line)
    requires ReadsOf(start, gaps, views) && i < |views| && j < |views| && k in Lines(views[i], w) && l in Lines(views[j], w)
    requires k.id == l.id
    ensures k == l
    decreases if i <= j then 0 else 1
  {
    if i <= j {
      ReadsKeep(start, gaps, views, i);
      assert SlotOk(views[i].messages[k.id.at], views[i].serial);
      ReadsGrow(start, gaps, views, i, j);
      assert GrowsAt(views[i], views[j], k.id.at, None);
      hide Run, Inv, Grows;
    } else {
      SameLine(start, gaps, views, w, j, i, l, k);
    }
  }

  /** The pages of a transcript, for ids that sort by some strict total order. */
  ghost predicate TranscriptRead(ids: (MessageId, MessageId) -> bool, tables: seq<set<Line>>, limit: nat, pages: seq<Page<Line>>)
    requires StrictTotal(ids)
  {
    DatedStrictTotal(ids);
    Complete(DatedOrder(ids), tables, limit, pages)
  }

  lemma LiveLine(st: State, w: Window, id: MessageId)
    ensures LiveAt(st, w, id) <==> id.at in st.messages && Dated(st.messages[id.at].row.body.sentAt, id) in Lines(st, w)
    ensures forall l :: l in Lines(st, w) && l.id == id ==> LiveAt(st, w, id)
  {
  }

  lemma ShownAtSomeRead(
      views: seq<State>, w: Window, ids: (MessageId, MessageId) -> bool, tables: seq<set<Line>>, limit: nat,
      pages: seq<Page<Line>>, l: Line)
    returns (i: nat)
    requires StrictTotal(ids) && TranscriptRead(ids, tables, limit, pages) && l in Shown(pages)
    requires |tables| == |views| && (forall i :: 0 <= i < |tables| ==> tables[i] == Lines(views[i], w))
    ensures i < |views| && l in Lines(views[i], w)
  {
    hide StrictTotal, PageOf, InWindow;
    DatedStrictTotal(ids);
    assert pages[..|pages|] == pages;
    ShownWasThere(DatedOrder(ids), tables, limit, pages, |pages|, l);
    i :| 0 <= i < |pages| && l in tables[i];
  }

  /** No message is returned twice, not even with another instant. */
  lemma NoIdTwice(
      start: seq<Step>, gaps: seq<seq<Step>>, views: seq<State>, w: Window, ids: (MessageId, MessageId) -> bool,
      tables: seq<set<Line>>, limit: nat, pages: seq<Page<Line>>, i: nat, j: nat)
    requires ReadsOf(start, gaps, views) && StrictTotal(ids) && TranscriptRead(ids, tables, limit, pages)
    requires |tables| == |views| && (forall i :: 0 <= i < |tables| ==> tables[i] == Lines(views[i], w))
    requires i < j < |Shown(pages)|
    ensures Shown(pages)[i].id != Shown(pages)[j].id
  {
    hide Run, PageOf, StrictTotal, Lines;
    DatedStrictTotal(ids);
    NothingTwice(DatedOrder(ids), tables, limit, pages);
    assert pages[..|pages|] == pages;
    var k, l := Shown(pages)[i], Shown(pages)[j];
    assert k != l;
    var m := ShownAtSomeRead(views, w, ids, tables, limit, pages, k);
    var n := ShownAtSomeRead(views, w, ids, tables, limit, pages, l);
    hide DatedOrder, Shown, ReadsOf, TranscriptRead;
    if k.id == l.id {
      SameLine(start, gaps, views, w, m, n, k, l);
    }
  }

  /**
    * Messages inserted, edited, buried or purged between the pages: whatever is live at every read is returned exactly
    * once, no message is returned twice, and none that was live at no read is returned.
    */
  lemma TranscriptPages(
      start: seq<Step>, gaps: seq<seq<Step>>, views: seq<State>, w: Window, ids: (MessageId, MessageId) -> bool,
      tables: seq<set<Line>>, limit: nat, pages: seq<Page<Line>>, id: MessageId)
    requires ReadsOf(start, gaps, views) && StrictTotal(ids) && TranscriptRead(ids, tables, limit, pages)
    requires |tables| == |views| && (forall i :: 0 <= i < |tables| ==> tables[i] == Lines(views[i], w))
    ensures forall i, j :: 0 <= i < j < |Shown(pages)| ==> Shown(pages)[i].id != Shown(pages)[j].id
    ensures forall l :: l in Shown(pages) ==> exists i :: 0 <= i < |views| && LiveAt(views[i], w, l.id)
    ensures (forall i :: 0 <= i < |views| ==> LiveAt(views[i], w, id)) ==>
      Dated(views[0].messages[id.at].row.body.sentAt, id) in Shown(pages)
  {
    hide Run, PageOf, StrictTotal, LiveAt, Lines, TranscriptRead, ReadsOf;
    forall i, j | 0 <= i < j < |Shown(pages)| ensures Shown(pages)[i].id != Shown(pages)[j].id {
      NoIdTwice(start, gaps, views, w, ids, tables, limit, pages, i, j);
    }
    forall l | l in Shown(pages) ensures exists i :: 0 <= i < |views| && LiveAt(views[i], w, l.id) {
      var i := ShownAtSomeRead(views, w, ids, tables, limit, pages, l);
      LiveLine(views[i], w, l.id);
    }
    if forall i :: 0 <= i < |views| ==> LiveAt(views[i], w, id) {
      LiveShown(start, gaps, views, w, ids, tables, limit, pages, id);
    }
  }

  lemma LiveShown(
      start: seq<Step>, gaps: seq<seq<Step>>, views: seq<State>, w: Window, ids: (MessageId, MessageId) -> bool,
      tables: seq<set<Line>>, limit: nat, pages: seq<Page<Line>>, id: MessageId)
    requires ReadsOf(start, gaps, views) && StrictTotal(ids) && TranscriptRead(ids, tables, limit, pages)
    requires |tables| == |views| && (forall i :: 0 <= i < |tables| ==> tables[i] == Lines(views[i], w))
    requires forall i :: 0 <= i < |views| ==> LiveAt(views[i], w, id)
    ensures id.at in views[0].messages && Dated(views[0].messages[id.at].row.body.sentAt, id) in Shown(pages)
  {
    hide Run, PageOf, StrictTotal, Lines, LiveAt;
    DatedStrictTotal(ids);
    LiveLine(views[0], w, id);
    var l := Dated(views[0].messages[id.at].row.body.sentAt, id);
    forall i | 0 <= i < |tables| ensures l in tables[i] {
      LiveLine(views[i], w, id);
      SameLine(start, gaps, views, w, 0, i, l, Dated(views[i].messages[id.at].row.body.sentAt, id));
    }
    LiveThroughoutShown(DatedOrder(ids), tables, limit, pages, l);
  }

  // ---- the history and its export ----

  /** Events not newer than the first one exported. */
  function Until(events: set<Stamp>, until: Option<Stamp>): set<Stamp> {
    set e | e in events && (until.None? || !Newest(e, until.value))
  }

  const EXPORT_PAGE := 200

  /** The plain sorted list, and its pages. */
  ghost function InOrder(events: set<Stamp>): seq<Stamp> {
    NewestStrictTotal();
    Sorted(Newest, events)
  }

  ghost function PageOfEvents(events: set<Stamp>, cursor: Option<Stamp>, limit: nat): Page<Stamp> {
    NewestStrictTotal();
    PageOf(Newest, events, cursor, limit)
  }

  /** The newest of some events. */
  method NewestOf(events: set<Stamp>) returns (first: Stamp)
    requires events != {}
    ensures InOrder(events) == [first] + InOrder(events - {first}) && first in events
  {
    NewestStrictTotal();
    hide StrictTotal, Newest;
    first :| first in events;
    var todo := events - {first};
    ghost var seen := {first};
    while todo != {}
      invariant todo !! seen && todo + seen == events && IsFirst(Newest, seen, first)
      decreases |todo|
    {
      var e :| e in todo;
      StillFirst(seen, first, e);
      if Newest(e, first) {
        first := e;
      }
      todo, seen := todo - {e}, seen + {e};
    }
    assert seen == events;
    FirstLeads(events, first);
  }

  lemma StillFirst(seen: set<Stamp>, first: Stamp, e: Stamp)
    requires IsFirst(Newest, seen, first) && e !in seen
    ensures IsFirst(Newest, seen + {e}, if Newest(e, first) then e else first)
  {
    NewestStrictTotal();
    hide Newest;
  }

  lemma FirstLeads(events: set<Stamp>, first: Stamp)
    requires IsFirst(Newest, events, first)
    ensures InOrder(events) == [first] + InOrder(events - {first})
  {
    NewestStrictTotal();
    hide Newest;
    assert First(Newest, events) == first;
  }

  /** ORDER BY newest first, LIMIT n. */
  method NewestFew(events: set<Stamp>, n: nat) returns (rows: seq<Stamp>)
    ensures rows == Take(InOrder(events), n)
  {
    hide Newest, InOrder;
    var rest := events;
    rows := [];
    while rest != {} && |rows| < n
      invariant |rows| <= n && rows + InOrder(rest) == InOrder(events)
      decreases |rest|
    {
      var e := NewestOf(rest);
      assert rows + [e] + InOrder(rest - {e}) == rows + ([e] + InOrder(rest - {e}));
      rows := rows + [e];
      rest := rest - {e};
    }
    NothingInOrder();
    HeadTaken(rows, InOrder(rest), InOrder(events), n);
  }

  /** historyPage: one row more than the page holds says that there is another page. */
  method HistoryPage(events: set<Stamp>, cursor: Option<Stamp>, until: Option<Stamp>, limit: nat) returns (page: Page<Stamp>)
    ensures page == PageOfEvents(Until(events, until), cursor, if limit < MAX_LIMIT then limit else MAX_LIMIT)
  {
    hide Newest, InOrder, Until, PageOfEvents, Take;
    var size := if limit < MAX_LIMIT then limit else MAX_LIMIT;
    var beyond := set e | e in Until(events, until) && (cursor.None? || Newest(cursor.value, e));
    var rows := NewestFew(beyond, size + 1);
    var items := Take(rows, size);
    page := Page(items, if |rows| > |items| && |items| > 0 then Some(items[|items| - 1]) else None);
    HistoryPageIs(Until(events, until), beyond, cursor, size);
  }

  lemma HeadTaken(rows: seq<Stamp>, rest: seq<Stamp>, all: seq<Stamp>, n: nat)
    requires rows + rest == all && |rows| <= n && (rest == [] || |rows| == n)
    ensures rows == Take(all, n)
  {
  }

  lemma NothingInOrder()
    ensures InOrder({}) == []
  {
    NewestStrictTotal();
  }

  lemma HistoryPageIs(events: set<Stamp>, beyond: set<Stamp>, cursor: Option<Stamp>, size: nat)
    requires beyond == set e | e in events && (cursor.None? || Newest(cursor.value, e))
    ensures var rows := Take(InOrder(beyond), size + 1); var items := Take(rows, size);
      PageOfEvents(events, cursor, size) ==
        Page(items, if |rows| > |items| && |items| > 0 then Some(items[|items| - 1]) else None)
  {
    NewestStrictTotal();
    hide Newest, Sorted, StrictTotal;
    assert beyond == Later(Newest, events, cursor);
  }

  /** The first event of the unbounded page bounds nothing out. */
  lemma UntilFirst(events: set<Stamp>)
    ensures Until(events, None) == events
    ensures var head := PageOfEvents(events, None, 1);
      if head.items == [] then InOrder(events) == [] else Until(events, Some(head.items[0])) == events
  {
    NewestStrictTotal();
    PageIs(Newest, events, None, 1);
    hide Newest, PageOf;
    assert Later(Newest, events, None) == events;
    var all := Sorted(Newest, events);
    if all != [] {
      forall e | e in events ensures !Newest(e, all[0]) {
        var i :| 0 <= i < |all| && all[i] == e;
      }
    }
  }

  lemma NextExport(events: set<Stamp>, rows: seq<Stamp>, cursor: Option<Stamp>, n: nat)
    requires ListedTo(InOrder(events), rows, cursor, n, EXPORT_PAGE) && (n > 0 ==> cursor.Some?) && (n == 0 ==> cursor.None?)
    ensures var p := PageOfEvents(events, cursor, EXPORT_PAGE);
      ListedTo(InOrder(events), rows + p.items, p.next, n + 1, EXPORT_PAGE) && (p.next.Some? ==> |p.items| == EXPORT_PAGE)
  {
    NewestStrictTotal();
    hide Newest, PageOf, StrictTotal, Sorted;
    PageAfter(Newest, events, cursor, EXPORT_PAGE, |rows|);
    ListStep(InOrder(events), rows, cursor, PageOfEvents(events, cursor, EXPORT_PAGE), n, EXPORT_PAGE);
  }

  /** historyCsv: the newest event fixes the upper end, then page after page to the end. */
  method HistoryCsv(events: set<Stamp>) returns (rows: seq<Stamp>)
    ensures rows == InOrder(events)
  {
    hide InOrder, PageOfEvents, Until;
    UntilFirst(events);
    var head := HistoryPage(events, None, None, 1);
    rows := [];
    if head.items == [] {
      return;
    }
    var until := head.items[0];
    var cursor: Option<Stamp> := None;
    var more := true;
    ghost var n := 0;
    while more
      invariant ListedTo(InOrder(events), rows, cursor, n, EXPORT_PAGE)
      invariant (n > 0 ==> more == cursor.Some?) && (n == 0 ==> more && cursor.None?)
      decreases |InOrder(events)| - |rows|, more
    {
      NextExport(events, rows, cursor, n);
      var page := HistoryPage(events, cursor, Some(until), EXPORT_PAGE);
      rows := rows + page.items;
      cursor := page.next;
      more := cursor.Some?;
      n := n + 1;
    }
  }

  /** The export's pages, while events come and go, under the first event as their upper end. */
  ghost predicate ExportRead(tables: seq<set<Stamp>>, first: Stamp, pages: seq<Page<Stamp>>) {
    NewestStrictTotal();
    Complete(Newest, seq(|tables|, i requires 0 <= i < |tables| => Until(tables[i], Some(first))), EXPORT_PAGE, pages)
  }

  /** While events come and go between two pages: none is exported twice, and none newer than the first. */
  lemma ExportBounded(tables: seq<set<Stamp>>, first: Stamp, pages: seq<Page<Stamp>>, e: Stamp)
    requires ExportRead(tables, first, pages)
    ensures Distinct(Shown(pages)) && (e in Shown(pages) ==> !Newest(e, first))
    ensures (forall i :: 0 <= i < |tables| ==> e in tables[i]) && !Newest(e, first) ==> e in Shown(pages)
  {
    NewestStrictTotal();
    hide Newest, PageOf, StrictTotal;
    var upto := seq(|tables|, i requires 0 <= i < |tables| => Until(tables[i], Some(first)));
    NothingTwice(Newest, upto, EXPORT_PAGE, pages);
    assert pages[..|pages|] == pages;
    if e in Shown(pages) {
      ShownWasThere(Newest, upto, EXPORT_PAGE, pages, |pages|, e);
    }
    if (forall i :: 0 <= i < |tables| ==> e in tables[i]) && !Newest(e, first) {
      LiveThroughoutShown(Newest, upto, EXPORT_PAGE, pages, e);
    }
  }
}
