/** The chat list while the archive moves on: a chat's activity only moves forward, so it can jump over a cursor. */
module ChatPages {
  import opened Prelude
  import opened ArchiveTypes
  import opened Runs
  import opened ChatActivity
  import opened Paging
  import opened Listings

  /** pageChats' filters on stored columns. */
  datatype Filter = Filter(channel: Option<string>, kind: Option<ChatKind>, source: Option<SourceId>)

  predicate Passes(f: Filter, room: ChatKey, c: Chat) {
    (f.channel.None? || c.channel == f.channel.value) && (f.kind.None? || c.kind == f.kind.value) &&
    (f.source.None? || room.source == f.source.value)
  }

  predicate InList(st: State, f: Filter, room: ChatKey) {
    room in st.chats && Passes(f, room, st.chats[room])
  }

  type Item = Dated<ChatKey>

  function ItemOf(st: State, room: ChatKey): Item {
    Dated(if room in st.chats then st.chats[room].lastMessageAt else 0, room)
  }

  function Items(st: State, f: Filter): set<Item> {
    set room | room in st.chats && InList(st, f, room) :: ItemOf(st, room)
  }

  /** The pages of the chat list, for ids that sort by some strict total order. */
  ghost predicate ChatsRead(ids: (ChatKey, ChatKey) -> bool, tables: seq<set<Item>>, limit: nat, pages: seq<Page<Item>>)
    requires StrictTotal(ids)
  {
    DatedStrictTotal(ids);
    Complete(DatedOrder(ids), tables, limit, pages)
  }

  lemma {:induction false} ReadsMove(start: seq<Step>, gaps: seq<seq<Step>>, views: seq<State>, i: nat, j: nat)
    requires ReadsOf(start, gaps, views) && i <= j < |views|
    ensures RoomsMove(views[i], views[j])
  {
    hide Run, RoomsMove, Inv;
    if i == j {
      StaysPut(views[i]);
    } else {
      ReadsMove(start, gaps, views, i, j - 1);
      assert views[j - 1 + 1] == Run(views[j - 1], gaps[j - 1]);
      ReadsKeep(start, gaps, views, i);
      ReadsKeep(start, gaps, views, j - 1);
      ReadsKeep(start, gaps, views, j);
      RunMoves(views[j - 1], gaps[j - 1]);
      RoomsMoveTrans(views[i], views[j - 1], views[j]);
    }
  }

  /** A chat listed at two reads is at the same place or nearer the front at the later one. */
  lemma ItemMoves(start: seq<Step>, gaps: seq<seq<Step>>, views: seq<State>, ids: (ChatKey, ChatKey) -> bool, i: nat, j: nat, room: ChatKey)
    requires ReadsOf(start, gaps, views) && i <= j < |views| && room in views[i].chats && room in views[j].chats
    ensures var k, l := ItemOf(views[i], room), ItemOf(views[j], room); l == k || DatedOrder(ids)(l, k)
  {
    ReadsMove(start, gaps, views, i, j);
    hide ReadsOf;
  }

  ghost predicate ReadsOfList(
      start: seq<Step>, gaps: seq<seq<Step>>, views: seq<State>, f: Filter, ids: (ChatKey, ChatKey) -> bool,
      tables: seq<set<Item>>, limit: nat, pages: seq<Page<Item>>)
  {
    && ReadsOf(start, gaps, views) && StrictTotal(ids) && ChatsRead(ids, tables, limit, pages)
    && |tables| == |views| && (forall i :: 0 <= i < |tables| ==> tables[i] == Items(views[i], f))
  }

  lemma {:induction false} ShownOnPage<K>(pages: seq<Page<K>>, k: K) returns (i: nat)
    requires k in Shown(pages)
    ensures i < |pages| && k in pages[i].items
  {
    var n := |pages| - 1;
    if k in pages[n].items {
      i := n;
    } else {
      i := ShownOnPage(pages[..n], k);
    }
  }

  lemma OnPageIsListed(
      start: seq<Step>, gaps: seq<seq<Step>>, views: seq<State>, f: Filter, ids: (ChatKey, ChatKey) -> bool,
      tables: seq<set<Item>>, limit: nat, pages: seq<Page<Item>>, i: nat, k: Item)
    requires ReadsOfList(start, gaps, views, f, ids, tables, limit, pages) && i < |pages| && k in pages[i].items
    ensures i < |views| && InList(views[i], f, k.id) && k == ItemOf(views[i], k.id)
  {
    hide PageOf, StrictTotal, Passes, ReadsOf;
    DatedStrictTotal(ids);
    PageCovers(DatedOrder(ids), tables[i], CursorAt(pages, i), limit);
    assert k in Items(views[i], f);
  }

  lemma ListFacts(
      start: seq<Step>, gaps: seq<seq<Step>>, views: seq<State>, f: Filter, ids: (ChatKey, ChatKey) -> bool,
      tables: seq<set<Item>>, limit: nat, pages: seq<Page<Item>>)
    requires ReadsOfList(start, gaps, views, f, ids, tables, limit, pages)
    ensures ReadsOf(start, gaps, views) && |pages| == |views| && |tables| == |views|
    ensures StrictTotal(DatedOrder(ids)) && Complete(DatedOrder(ids), tables, limit, pages)
  {
    hide ReadsOf, DatedOrder, StrictTotal, PageOf;
    DatedStrictTotal(ids);
  }

  /** Two different lines of one chat are not both shown. */
  lemma NotTwice(
      start: seq<Step>, gaps: seq<seq<Step>>, views: seq<State>, f: Filter, ids: (ChatKey, ChatKey) -> bool,
      tables: seq<set<Item>>, limit: nat, pages: seq<Page<Item>>, i: nat, j: nat, k: Item, l: Item)
    requires ReadsOfList(start, gaps, views, f, ids, tables, limit, pages) && i <= j < |pages|
    requires k in pages[i].items && l in pages[j].items && k.id == l.id
    ensures k == l
  {
    hide PageOf, StrictTotal, Passes, DatedOrder, ReadsOfList, ReadsOf, ItemOf, Session;
    ListFacts(start, gaps, views, f, ids, tables, limit, pages);
    OnPageIsListed(start, gaps, views, f, ids, tables, limit, pages, i, k);
    OnPageIsListed(start, gaps, views, f, ids, tables, limit, pages, j, l);
    hide InList;
    if i < j {
      ItemMoves(start, gaps, views, ids, i, j, k.id) by { Listed(views[i], f, k.id); Listed(views[j], f, k.id); }
      if l != k {
        MovedNotShownAgain(DatedOrder(ids), tables, limit, pages, i, j, k, l);
      }
    }
  }

  lemma Listed(st: State, f: Filter, room: ChatKey)
    requires InList(st, f, room)
    ensures room in st.chats
  {
  }

  ghost predicate ListedThroughout(views: seq<State>, f: Filter, room: ChatKey) {
    forall i :: 0 <= i < |views| ==> InList(views[i], f, room)
  }

  /** Where a chat stands at each read. */
  function ItemsOf(views: seq<State>, room: ChatKey): seq<Item> {
    seq(|views|, i requires 0 <= i < |views| => ItemOf(views[i], room))
  }

  /**
    * Over any run of archive steps between the pages: no chat is returned twice, only chats listed at the read of their
    * page are returned, and a chat listed at every read is missed if and only if, between two reads, its activity moved
    * from behind the cursor to it or before it.
    */
  lemma ChatListPages(
      start: seq<Step>, gaps: seq<seq<Step>>, views: seq<State>, f: Filter, ids: (ChatKey, ChatKey) -> bool,
      tables: seq<set<Item>>, limit: nat, pages: seq<Page<Item>>, room: ChatKey)
    requires ReadsOfList(start, gaps, views, f, ids, tables, limit, pages)
    ensures forall i, j :: 0 <= i < j < |Shown(pages)| ==> Shown(pages)[i].id != Shown(pages)[j].id
    ensures forall i, k :: 0 <= i < |pages| && k in pages[i].items ==> i < |views| && InList(views[i], f, k.id)
    ensures |pages| == |views|
    ensures ListedThroughout(views, f, room) ==>
      ((forall k :: k in Shown(pages) ==> k.id != room) <==>
       exists i :: JumpsAt(DatedOrder(ids), pages, ItemsOf(views, room), i))
  {
    hide PageOf, StrictTotal, Passes, JumpsAt, DatedOrder, ReadsOf;
    DatedStrictTotal(ids);
    forall i, j | 0 <= i < j < |Shown(pages)| ensures Shown(pages)[i].id != Shown(pages)[j].id {
      ShownIdsDiffer(start, gaps, views, f, ids, tables, limit, pages, i, j);
    }
    forall i, k | 0 <= i < |pages| && k in pages[i].items ensures i < |views| && InList(views[i], f, k.id) {
      OnPageIsListed(start, gaps, views, f, ids, tables, limit, pages, i, k);
    }
    if ListedThroughout(views, f, room) {
      MissedIffJumps(start, gaps, views, f, ids, tables, limit, pages, room);
    }
  }

  lemma ShownIdsDiffer(
      start: seq<Step>, gaps: seq<seq<Step>>, views: seq<State>, f: Filter, ids: (ChatKey, ChatKey) -> bool,
      tables: seq<set<Item>>, limit: nat, pages: seq<Page<Item>>, i: nat, j: nat)
    requires ReadsOfList(start, gaps, views, f, ids, tables, limit, pages) && i < j < |Shown(pages)|
    ensures Shown(pages)[i].id != Shown(pages)[j].id
  {
    hide PageOf, StrictTotal, DatedOrder, ReadsOf;
    DatedStrictTotal(ids);
    NothingTwice(DatedOrder(ids), tables, limit, pages);
    var k, l := Shown(pages)[i], Shown(pages)[j];
    assert k != l;
    var m := ShownOnPage(pages, k);
    var n := ShownOnPage(pages, l);
    hide Shown, ReadsOfList;
    if k.id == l.id {
      if m <= n {
        NotTwice(start, gaps, views, f, ids, tables, limit, pages, m, n, k, l);
      } else {
        NotTwice(start, gaps, views, f, ids, tables, limit, pages, n, m, l, k);
      }
    }
  }

  lemma {:induction false} OnPageIsShown<K>(pages: seq<Page<K>>, i: nat, k: K)
    requires i < |pages| && k in pages[i].items
    ensures k in Shown(pages)
  {
    var n := |pages| - 1;
    if i < n {
      OnPageIsShown(pages[..n], i, k);
    }
  }

  lemma ListedMovesForward(
      start: seq<Step>, gaps: seq<seq<Step>>, views: seq<State>, f: Filter, ids: (ChatKey, ChatKey) -> bool,
      tables: seq<set<Item>>, limit: nat, pages: seq<Page<Item>>, room: ChatKey)
    requires ReadsOfList(start, gaps, views, f, ids, tables, limit, pages)
    requires ListedThroughout(views, f, room)
    ensures MovesForward(DatedOrder(ids), tables, ItemsOf(views, room))
  {
    hide StrictTotal, Passes, DatedOrder, ReadsOf, ChatsRead;
    var keys := ItemsOf(views, room);
    forall i | 0 <= i < |keys| ensures keys[i] in tables[i] {
      assert keys[i] == ItemOf(views[i], room);
    }
    forall i, j | 0 <= i < j < |keys| ensures keys[j] == keys[i] || DatedOrder(ids)(keys[j], keys[i]) {
      ItemMoves(start, gaps, views, ids, i, j, room);
    }
  }

  /** The chat is on no page, seen line by line or read by read. */
  lemma NowhereShown(
      start: seq<Step>, gaps: seq<seq<Step>>, views: seq<State>, f: Filter, ids: (ChatKey, ChatKey) -> bool,
      tables: seq<set<Item>>, limit: nat, pages: seq<Page<Item>>, room: ChatKey)
    requires ReadsOfList(start, gaps, views, f, ids, tables, limit, pages) && |pages| == |views|
    requires ListedThroughout(views, f, room)
    ensures (forall k :: k in Shown(pages) ==> k.id != room) <==>
      forall i :: 0 <= i < |pages| ==> ItemOf(views[i], room) !in pages[i].items
  {
    hide ReadsOfList, Passes, Shown;
    if k :| k in Shown(pages) && k.id == room {
      var i := ShownOnPage(pages, k);
      OnPageIsListed(start, gaps, views, f, ids, tables, limit, pages, i, k);
    }
    forall i | 0 <= i < |pages| && ItemOf(views[i], room) in pages[i].items ensures ItemOf(views[i], room) in Shown(pages) {
      OnPageIsShown(pages, i, ItemOf(views[i], room));
    }
  }

  lemma MissedIffJumps(
      start: seq<Step>, gaps: seq<seq<Step>>, views: seq<State>, f: Filter, ids: (ChatKey, ChatKey) -> bool,
      tables: seq<set<Item>>, limit: nat, pages: seq<Page<Item>>, room: ChatKey)
    requires ReadsOfList(start, gaps, views, f, ids, tables, limit, pages)
    requires ListedThroughout(views, f, room)
    ensures |pages| == |views|
    ensures (forall k :: k in Shown(pages) ==> k.id != room) <==> exists i :: JumpsAt(DatedOrder(ids), pages, ItemsOf(views, room), i)
  {
    hide PageOf, StrictTotal, Passes, JumpsAt, DatedOrder, ReadsOf, Shown, MovesForward, ListedThroughout, ItemOf;
    DatedStrictTotal(ids);
    ListedMovesForward(start, gaps, views, f, ids, tables, limit, pages, room);
    MissedIff(DatedOrder(ids), tables, limit, pages, ItemsOf(views, room));
    NowhereShown(start, gaps, views, f, ids, tables, limit, pages, room);
  }
}
