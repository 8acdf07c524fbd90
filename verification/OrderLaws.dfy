/** What a listing shows, and in which order, told in instants, names and columns. */
module OrderLaws {
  import opened Prelude
  import opened ArchiveTypes
  import opened Runs
  import opened Paging
  import opened Listings
  import opened ChatPages

  /** One text stands before another where they first differ, or where it ends first. */
  ghost predicate DiffersAt(a: string, b: string, n: nat) {
    n <= |a| && n < |b| && a[..n] == b[..n] && (n == |a| || a[n] < b[n])
  }

  ghost predicate TextBefore(a: string, b: string) {
    exists n: nat :: DiffersAt(a, b, n)
  }

  lemma {:induction false} TextLessIff(a: string, b: string)
    ensures TextLess(a, b) <==> TextBefore(a, b)
  {
    if b != "" && (a == "" || a[0] < b[0]) {
      assert DiffersAt(a, b, 0);
    } else if a != "" && b != "" && a[0] == b[0] {
      TextLessIff(a[1..], b[1..]);
      if n: nat :| DiffersAt(a[1..], b[1..], n) {
        assert a[..n + 1] == [a[0]] + a[1..][..n] && b[..n + 1] == [b[0]] + b[1..][..n];
        assert DiffersAt(a, b, n + 1);
      }
      if n: nat :| DiffersAt(a, b, n) {
        assert n > 0 && a[1..][..n - 1] == a[..n][1..] && b[1..][..n - 1] == b[..n][1..];
        assert DiffersAt(a[1..], b[1..], n - 1);
      }
    } else {
      forall n: nat ensures !DiffersAt(a, b, n) {
        if n > 0 && n <= |a| && n < |b| {
          assert a[..n][0] == a[0] && b[..n][0] == b[0];
        }
      }
    }
  }

  /** Later, or at the same instant with the greater id. */
  ghost predicate Sooner(a: Stamp, b: Stamp) {
    a.at > b.at || (a.at == b.at && TextBefore(b.id, a.id))
  }

  ghost predicate NewestFirst(s: seq<Stamp>) {
    forall i, j :: 0 <= i < j < |s| ==> Sooner(s[i], s[j])
  }

  lemma NewestIs(a: Stamp, b: Stamp)
    ensures Newest(a, b) <==> Sooner(a, b)
  {
    TextLessIff(b.id, a.id);
  }

  lemma StampsDescend(s: seq<Stamp>)
    requires Increasing(Newest, s)
    ensures NewestFirst(s) && Distinct(s)
  {
    NewestStrictTotal();
    forall i, j | 0 <= i < j < |s| ensures s[i] != s[j] && Sooner(s[i], s[j]) {
      assert Newest(s[i], s[j]);
      NewestIs(s[i], s[j]);
    }
  }

  /** The history lists every event once, newest first. */
  lemma HistoryInOrder(events: set<Stamp>)
    ensures NewestFirst(InOrder(events)) && Distinct(InOrder(events)) && forall e :: e in InOrder(events) <==> e in events
  {
    NewestStrictTotal();
    StampsDescend(InOrder(events));
    hide Newest, StrictTotal, NewestFirst;
  }

  /** A page of the history holds nothing newer than its upper end, and nothing at or before its cursor. */
  lemma HistoryWithin(events: set<Stamp>, cursor: Option<Stamp>, until: Option<Stamp>, limit: nat, e: Stamp)
    requires limit >= 1 && e in PageOfEvents(Until(events, until), cursor, limit).items
    ensures e in events
    ensures until.Some? ==> !Sooner(e, until.value)
    ensures cursor.Some? ==> Sooner(cursor.value, e)
  {
    NewestStrictTotal();
    PageIs(Newest, Until(events, until), cursor, limit);
    hide Newest, PageOf, Sorted, StrictTotal, Sooner;
    assert e in Later(Newest, Until(events, until), cursor);
    NewestIs(e, if until.Some? then until.value else e);
    NewestIs(if cursor.Some? then cursor.value else e, e);
  }

  ghost function ByNames(people: set<NameKey>): seq<NameKey> {
    ByNameStrictTotal();
    Sorted(ByName, people)
  }

  /** By name, and by id within one name. */
  ghost predicate NameBefore(a: NameKey, b: NameKey) {
    TextBefore(a.name, b.name) || (a.name == b.name && TextBefore(a.id, b.id))
  }

  ghost predicate NamesAscend(s: seq<NameKey>) {
    forall i, j :: 0 <= i < j < |s| ==> NameBefore(s[i], s[j])
  }

  lemma NamesDiffer(s: seq<NameKey>)
    requires Increasing(ByName, s)
    ensures NamesAscend(s) && Distinct(s)
  {
    ByNameStrictTotal();
    forall i, j | 0 <= i < j < |s| ensures s[i] != s[j] && NameBefore(s[i], s[j]) {
      assert ByName(s[i], s[j]);
      TextLessIff(s[i].name, s[j].name);
      TextLessIff(s[i].id, s[j].id);
    }
  }

  /** The address book runs by name, and by id within one name, through everyone in it once. */
  lemma AddressBookInOrder(people: set<NameKey>)
    ensures NamesAscend(ByNames(people)) && Distinct(ByNames(people)) && forall k :: k in ByNames(people) <==> k in people
  {
    ByNameStrictTotal();
    NamesDiffer(ByNames(people));
    hide ByName, StrictTotal, NamesAscend;
  }

  // ---- transcripts ----

  /** The message is stored in the chat, not deleted, and sent strictly between the two instants. */
  predicate Visible(st: State, w: Window, id: MessageId) {
    && id.at in st.messages && st.messages[id.at].row.serial == id.serial && st.messages[id.at].row.deletedAt == None
    && id.at.source == w.room.source && id.at.chat == w.room.chat
    && (w.before == None || st.messages[id.at].row.body.sentAt < w.before.value)
    && (w.after == None || w.after.value < st.messages[id.at].row.body.sentAt)
  }

  lemma VisibleIs(st: State, w: Window, id: MessageId)
    ensures Visible(st, w, id) <==> LiveAt(st, w, id)
  {
  }

  ghost predicate DatedNewestFirst<I(!new)>(ids: (I, I) -> bool, s: seq<Dated<I>>) {
    forall i, j :: 0 <= i < j < |s| ==> s[i].at > s[j].at || (s[i].at == s[j].at && ids(s[j].id, s[i].id))
  }

  lemma InDatedOrder<I(!new)>(ids: (I, I) -> bool, s: seq<Dated<I>>)
    requires Increasing(DatedOrder(ids), s)
    ensures DatedNewestFirst(ids, s)
  {
    forall i, j | 0 <= i < j < |s| ensures s[i].at > s[j].at || (s[i].at == s[j].at && ids(s[j].id, s[i].id)) {
      assert DatedOrder(ids)(s[i], s[j]);
    }
  }

  lemma TranscriptOrdered(ids: (MessageId, MessageId) -> bool, tables: seq<set<Line>>, limit: nat, pages: seq<Page<Line>>)
    requires StrictTotal(ids) && TranscriptRead(ids, tables, limit, pages)
    ensures DatedNewestFirst(ids, Shown(pages))
  {
    hide StrictTotal, DatedOrder, PageOf;
    DatedStrictTotal(ids);
    NothingTwice(DatedOrder(ids), tables, limit, pages);
    InDatedOrder(ids, Shown(pages));
  }

  /** Visible at the read, and sent at the instant the line shows. */
  ghost predicate VisibleLine(st: State, w: Window, l: Line) {
    Visible(st, w, l.id) && l.at == st.messages[l.id.at].row.body.sentAt
  }

  lemma ShownVisible(
      views: seq<State>, w: Window, ids: (MessageId, MessageId) -> bool, tables: seq<set<Line>>, limit: nat,
      pages: seq<Page<Line>>, l: Line)
    requires StrictTotal(ids) && TranscriptRead(ids, tables, limit, pages)
    requires |tables| == |views| && (forall i :: 0 <= i < |tables| ==> tables[i] == Lines(views[i], w))
    requires l in Shown(pages)
    ensures exists i :: 0 <= i < |views| && VisibleLine(views[i], w, l)
  {
    hide StrictTotal, TranscriptRead, Shown;
    var i := ShownAtSomeRead(views, w, ids, tables, limit, pages, l);
    VisibleIs(views[i], w, l.id);
    assert VisibleLine(views[i], w, l);
  }

  /**
    * The pages of a transcript run newest first through messages of the chat that were visible, at the instant they were
    * sent, when some page was read; and whatever is visible throughout is among them.
    */
  lemma TranscriptOrder(
      start: seq<Step>, gaps: seq<seq<Step>>, views: seq<State>, w: Window, ids: (MessageId, MessageId) -> bool,
      tables: seq<set<Line>>, limit: nat, pages: seq<Page<Line>>, id: MessageId)
    requires ReadsOf(start, gaps, views) && StrictTotal(ids) && TranscriptRead(ids, tables, limit, pages)
    requires |tables| == |views| && (forall i :: 0 <= i < |tables| ==> tables[i] == Lines(views[i], w))
    ensures DatedNewestFirst(ids, Shown(pages))
    ensures forall l :: l in Shown(pages) ==> exists i :: 0 <= i < |views| && VisibleLine(views[i], w, l)
    ensures (forall i :: 0 <= i < |views| ==> Visible(views[i], w, id)) ==> exists l :: l in Shown(pages) && l.id == id
  {
    hide StrictTotal, ReadsOf, Visible, VisibleLine, LiveAt, TranscriptRead, Shown, Lines, DatedNewestFirst;
    TranscriptOrdered(ids, tables, limit, pages);
    forall l | l in Shown(pages) ensures exists i :: 0 <= i < |views| && VisibleLine(views[i], w, l) {
      ShownVisible(views, w, ids, tables, limit, pages, l);
    }
    if forall i :: 0 <= i < |views| ==> Visible(views[i], w, id) {
      forall i | 0 <= i < |views| ensures LiveAt(views[i], w, id) {
        VisibleIs(views[i], w, id);
      }
      LiveShown(start, gaps, views, w, ids, tables, limit, pages, id);
    }
  }

  // ---- the chat list ----

  /** A chat of the archive that the filters let pass, each by its column. */
  predicate PassesAll(st: State, f: Filter, room: ChatKey) {
    && room in st.chats
    && (f.channel == None || f.channel == Some(st.chats[room].channel))
    && (f.kind == None || f.kind == Some(st.chats[room].kind))
    && (f.source == None || f.source == Some(room.source))
  }

  /** Each page of the chat list runs newest activity first through chats that passed the filters when it was read. */
  lemma ChatListOrder(
      start: seq<Step>, gaps: seq<seq<Step>>, views: seq<State>, f: Filter, ids: (ChatKey, ChatKey) -> bool,
      tables: seq<set<Item>>, limit: nat, pages: seq<Page<Item>>, i: nat)
    requires ReadsOfList(start, gaps, views, f, ids, tables, limit, pages) && i < |pages|
    ensures i < |views| && DatedNewestFirst(ids, pages[i].items)
    ensures forall k :: k in pages[i].items ==> PassesAll(views[i], f, k.id) && k.at == views[i].chats[k.id].lastMessageAt
  {
    ListFacts(start, gaps, views, f, ids, tables, limit, pages);
    forall k | k in pages[i].items ensures PassesAll(views[i], f, k.id) && k.at == views[i].chats[k.id].lastMessageAt {
      OnPageIsListed(start, gaps, views, f, ids, tables, limit, pages, i, k);
    }
    PageInOrder(DatedOrder(ids), tables, limit, pages, i);
    hide ReadsOfList, StrictTotal, DatedOrder;
    InDatedOrder(ids, pages[i].items);
  }

  lemma PageInOrder<K(!new)>(lt: (K, K) -> bool, tables: seq<set<K>>, limit: nat, pages: seq<Page<K>>, i: nat)
    requires StrictTotal(lt) && Complete(lt, tables, limit, pages) && i < |pages|
    ensures Increasing(lt, pages[i].items)
  {
    PageCovers(lt, tables[i], CursorAt(pages, i), limit);
    hide StrictTotal, PageOf;
  }
}
