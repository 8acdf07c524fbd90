/** The number that bridges the two channels: how it is stored, and that whoever shares it becomes one person. */
module PhoneBridge {
  import opened Prelude
  import opened People
  import opened PhoneMerge
  import opened Populate

  // ---- one shape for a number ----

  /** A nonempty string of digits. */
  predicate Numeral(d: string) {
    d != "" && forall i :: 0 <= i < |d| ==> '0' <= d[i] <= '9'
  }

  /** The digits of a number as typed, from the front. */
  function DigitsOf(s: string): string {
    if s == "" then "" else (if '0' <= s[0] <= '9' then [s[0]] else "") + DigitsOf(s[1..])
  }

  lemma {:induction false} DigitsConcat(a: string, b: string)
    ensures Digits(a + b) == Digits(a) + Digits(b)
  {
    if b == "" {
      assert a + b == a;
    } else {
      assert (a + b)[..|a + b| - 1] == a + b[..|b| - 1];
      DigitsConcat(a, b[..|b| - 1]);
    }
  }

  lemma {:induction false} DigitsAgree(s: string)
    ensures Digits(s) == DigitsOf(s)
  {
    if s != "" {
      DigitsAgree(s[1..]);
      DigitsConcat([s[0]], s[1..]);
      assert [s[0]] + s[1..] == s;
      DigitsOfOne(s[0]);
      hide Digits;
    }
  }

  lemma DigitsOfOne(c: char)
    ensures Digits([c]) == if '0' <= c <= '9' then [c] else ""
  {
    assert [c][..0] == "";
  }

  lemma {:induction false} DigitsOfNumeral(d: string)
    requires forall i :: 0 <= i < |d| ==> '0' <= d[i] <= '9'
    ensures Digits(d) == d
  {
    if d != "" {
      DigitsOfNumeral(d[..|d| - 1]);
      assert d[..|d| - 1] + [d[|d| - 1]] == d;
    }
  }

  lemma TrimsToItself(s: string)
    requires s != "" && !IsSpace(s[0]) && !IsSpace(s[|s| - 1])
    ensures Trim(s) == s
  {
  }

  lemma JidCarries(d: string)
    requires Numeral(d)
    ensures PhoneFromJid(d + "@s.whatsapp.net") == Some("+" + d) && Trim(d + "@s.whatsapp.net") == d + "@s.whatsapp.net"
  {
    var ext := d + "@s.whatsapp.net";
    var n := |ext| - |JID_SUFFIX|;
    assert ext[n..] == "@s.whatsapp.net" && ext[..n] == d;
    DigitsOfNumeral(d);
    assert ext[|ext| - 1] == 't' && ext[0] == d[0];
    TrimsToItself(ext);
  }

  /** The link is made, to this person, with this number, and touches nothing else. */
  ghost predicate LinksWith(b: Book, b1: Book, r: LinkResult, p: PersonId, key: IdKey, phone: string) {
    && r == LinkOk && b1.people == b.people && b1.ids.Keys == b.ids.Keys + {key}
    && (forall i :: i in b.ids ==> b1.ids[i] == b.ids[i]) && b1.ids[key].person == p && b1.ids[key].phone == Some(phone)
  }

  /** A WhatsApp id of digits alone, linked without a number, stores the number the id is. */
  lemma JidStoresNumber(b: Book, p: PersonId, d: string, name: Option<string>, now: Time)
    requires p in b.people && Numeral(d) && IdKey(WhatsApp, d + "@s.whatsapp.net") !in b.ids
    ensures var key := IdKey(WhatsApp, d + "@s.whatsapp.net"); var (b1, r) := LinkIdentity(b, p, key, name, None, now);
      LinksWith(b, b1, r, p, key, "+" + d)
  {
    JidCarries(d);
    hide Trim, PhoneFromJid, Digits;
  }

  /** Any other WhatsApp id, linked without a number, stores none. */
  lemma OtherIdsStoreNone(b: Book, p: PersonId, ext: string, name: Option<string>, now: Time)
    requires p in b.people && IdKey(WhatsApp, ext) !in b.ids && ext != "" && Trim(ext) == ext
    requires forall d :: Numeral(d) ==> ext != d + "@s.whatsapp.net"
    ensures var (b1, r) := LinkIdentity(b, p, IdKey(WhatsApp, ext), name, None, now);
      r == LinkOk && IdKey(WhatsApp, ext) in b1.ids && b1.ids[IdKey(WhatsApp, ext)].phone == None
  {
    OnlyNumeralsCarry(ext);
    hide Trim, PhoneFromJid, Digits, CleanText;
  }

  lemma OnlyNumeralsCarry(ext: string)
    ensures PhoneFromJid(ext).Some? ==> exists d :: Numeral(d) && ext == d + "@s.whatsapp.net"
  {
    if PhoneFromJid(ext).Some? {
      var d := ext[..|ext| - |JID_SUFFIX|];
      DigitsAreNumeral(d);
      assert Numeral(d) && ext == d + JID_SUFFIX;
    }
  }

  lemma {:induction false} DigitsAreNumeral(s: string)
    ensures forall i :: 0 <= i < |Digits(s)| ==> '0' <= Digits(s)[i] <= '9'
  {
    if s != "" {
      DigitsAreNumeral(s[..|s| - 1]);
    }
  }

  /** Any id linked with a number whose digits are d stores the same. */
  lemma TypedNumberStores(b: Book, p: PersonId, key: IdKey, name: Option<string>, phone: string, d: string, now: Time)
    requires p in b.people && key !in b.ids && key.ext != "" && Trim(key.ext) == key.ext
    requires DigitsOf(phone) == d && d != ""
    ensures var (b1, r) := LinkIdentity(b, p, key, name, Some(phone), now); LinksWith(b, b1, r, p, key, "+" + d)
  {
    DigitsAgree(phone);
    hide Trim, PhoneFromJid, Digits;
  }

  // ---- whoever shares it becomes one person ----

  /** Held by someone visible who is not the owner. */
  predicate HeldByContact(b: Book, i: IdKey) {
    i in b.ids && b.ids[i].person in b.people && !b.people[b.ids[i].person].archived && !b.people[b.ids[i].person].isOwner
  }

  /** One identity on each channel, the same number on both, and both held by someone who may be merged. */
  predicate Bridge(b: Book, i: IdKey, j: IdKey, x: string) {
    i.network == Telegram && j.network == WhatsApp && HeldByContact(b, i) && HeldByContact(b, j) &&
    x != "" && b.ids[i].phone == Some(x) && b.ids[j].phone == Some(x)
  }

  /** One of this person's identities has the number. */
  predicate HasNumber(b: Book, m: IdKey, p: PersonId, x: string) {
    HeldByContact(b, m) && b.ids[m].person == p && b.ids[m].phone == Some(x)
  }

  ghost predicate ShareBridge(b: Book, p: PersonId, q: PersonId) {
    exists x, i, j, m, n :: Bridge(b, i, j, x) && HasNumber(b, m, p, x) && HasNumber(b, n, q, x)
  }

  lemma EdgeShares(b: Book, p: PersonId, q: PersonId)
    requires Edge(b, p, q)
    ensures ShareBridge(b, p, q)
  {
    var x :| CrossChannel(b, x) && p in Holders(b, x) && q in Holders(b, x);
    var t :| t in HoldersOn(b, Telegram, x);
    var w :| w in HoldersOn(b, WhatsApp, x);
    hide HoldersOn;
    var i := Holding(b, Telegram, x, t);
    var j := Holding(b, WhatsApp, x, w);
    var m := Holding(b, if p in HoldersOn(b, Telegram, x) then Telegram else WhatsApp, x, p);
    var n := Holding(b, if q in HoldersOn(b, Telegram, x) then Telegram else WhatsApp, x, q);
    assert Bridge(b, i, j, x) && HasNumber(b, m, p, x) && HasNumber(b, n, q, x);
  }

  lemma SharesEdge(b: Book, p: PersonId, q: PersonId)
    requires ShareBridge(b, p, q)
    ensures Edge(b, p, q)
  {
    var x, i, j, m, n :| Bridge(b, i, j, x) && HasNumber(b, m, p, x) && HasNumber(b, n, q, x);
    hide HoldersOn;
    HoldsOn(b, i, x);
    HoldsOn(b, j, x);
    HoldsOn(b, m, x);
    HoldsOn(b, n, x);
    assert p in Holders(b, x) && q in Holders(b, x) && CrossChannel(b, x);
  }

  /** Two people are merged on account of a number exactly if each has it and it is on both channels. */
  lemma EdgeIsBridge(b: Book, p: PersonId, q: PersonId)
    ensures Edge(b, p, q) <==> ShareBridge(b, p, q)
  {
    hide Edge, ShareBridge;
    if Edge(b, p, q) {
      EdgeShares(b, p, q);
    }
    if ShareBridge(b, p, q) {
      SharesEdge(b, p, q);
    }
  }

  lemma Holding(b: Book, network: Network, x: string, p: PersonId) returns (i: IdKey)
    requires p in HoldersOn(b, network, x)
    ensures i.network == network && HeldByContact(b, i) && b.ids[i].person == p && b.ids[i].phone == Some(x) && x != ""
  {
    i :| i in b.ids && i.network == network && HasPhone(b.ids[i], x) && Contact(b, b.ids[i].person) && b.ids[i].person == p;
  }

  lemma HoldsOn(b: Book, i: IdKey, x: string)
    requires HeldByContact(b, i) && b.ids[i].phone == Some(x) && x != ""
    ensures b.ids[i].person in HoldersOn(b, i.network, x)
  {
    assert HasPhone(b.ids[i], x);
  }

  /** Passes that end closed leave both ends of a bridge with one person. */
  lemma BridgedMeet(books: seq<Book>, orders: seq<seq<string>>, i: IdKey, j: IdKey, x: string)
    requires PassRun(books, orders) && Linked(books[0]) && Closed(books[|books| - 1]) && Bridge(books[0], i, j, x)
    ensures var end := books[|books| - 1]; i in end.ids && j in end.ids && end.ids[i].person == end.ids[j].person
  {
    var b := books[0];
    assert HasNumber(b, i, b.ids[i].person, x) && HasNumber(b, j, b.ids[j].person, x);
    SharesEdge(b, b.ids[i].person, b.ids[j].person);
    MergingReachesClosure(books, orders);
    hide PassRun, Closed, Linked, Edge, Represents, IsOldest, Component, HeldByContact;
    ConnectedEdge(b, b.ids[i].person, b.ids[j].person);
  }

  /** Two people linked to the two ids of one number: passes that end closed make them one. */
  lemma LinkedPairMeets(b: Book, p: PersonId, q: PersonId, d: string, tele: IdKey, phone: string, name: Option<string>, now: Time,
                        books: seq<Book>, orders: seq<seq<string>>)
    requires Linked(b) && p in b.people && q in b.people
    requires !b.people[p].archived && !b.people[p].isOwner && !b.people[q].archived && !b.people[q].isOwner
    requires Numeral(d) && DigitsOf(phone) == d
    requires tele.network == Telegram && tele !in b.ids && tele.ext != "" && Trim(tele.ext) == tele.ext
    requires IdKey(WhatsApp, d + "@s.whatsapp.net") !in b.ids
    requires var b1 := LinkIdentity(b, p, tele, name, Some(phone), now).0;
      PassRun(books, orders) && books[0] == LinkIdentity(b1, q, IdKey(WhatsApp, d + "@s.whatsapp.net"), name, None, now).0
    requires Closed(books[|books| - 1])
    ensures var end := books[|books| - 1]; var jid := IdKey(WhatsApp, d + "@s.whatsapp.net");
      tele in end.ids && jid in end.ids && end.ids[tele].person == end.ids[jid].person
  {
    var jid := IdKey(WhatsApp, d + "@s.whatsapp.net");
    assert d != "" && |books| > 0;
    hide PassRun, Closed, LinkIdentity, Numeral, Trim, DigitsOf;
    TypedNumberStores(b, p, tele, name, phone, d, now);
    var b1 := LinkIdentity(b, p, tele, name, Some(phone), now).0;
    JidStoresNumber(b1, q, d, name, now);
    LinkedAfter(b, p, tele, name, Some(phone), now);
    LinkedAfter(b1, q, jid, name, None, now);
    assert Bridge(books[0], tele, jid, "+" + d);
    hide Bridge, Linked, LinksWith;
    BridgedMeet(books, orders, tele, jid, "+" + d);
  }

  lemma LinkedAfter(b: Book, p: PersonId, key: IdKey, name: Option<string>, phone: Option<string>, now: Time)
    requires Linked(b)
    ensures Linked(LinkIdentity(b, p, key, name, phone, now).0)
  {
    hide Trim, NormalizePhone, PhoneFromJid;
  }
}
