/** lib/services/people.ts: the unattended half of the address book, one contact sync at a time. */
module Populate {
  import opened Prelude
  import opened People

  // ---- text ----

  /** What String.prototype.trim removes. */
  predicate IsSpace(c: char) {
    '\t' <= c <= '\r' || c == ' ' || c == '\U{A0}' || c == '\U{1680}' || '\U{2000}' <= c <= '\U{200A}' ||
    c == '\U{2028}' || c == '\U{2029}' || c == '\U{202F}' || c == '\U{205F}' || c == '\U{3000}' || c == '\U{FEFF}'
  }

  function TrimStart(s: string): string {
    if s != "" && IsSpace(s[0]) then TrimStart(s[1..]) else s
  }

  function TrimEnd(s: string): string {
    if s != "" && IsSpace(s[|s| - 1]) then TrimEnd(s[..|s| - 1]) else s
  }

  function Trim(s: string): string {
    TrimEnd(TrimStart(s))
  }

  const MAX_NAME := 100

  function ClampName(s: string): string {
    var t := Trim(s);
    if |t| <= MAX_NAME then t else t[..MAX_NAME]
  }

  function CleanText(s: Option<string>): Option<string> {
    if s.Some? && Trim(s.value) != "" then Some(Trim(s.value)) else None
  }

  function Digits(s: string): string {
    if s == "" then ""
    else Digits(s[..|s| - 1]) + if '0' <= s[|s| - 1] <= '9' then [s[|s| - 1]] else ""
  }

  function NormalizePhone(s: Option<string>): Option<string> {
    if s.Some? && Digits(s.value) != "" then Some("+" + Digits(s.value)) else None
  }

  const JID_SUFFIX := "@s.whatsapp.net"

  /** A WhatsApp id is a number followed by the suffix; anything else carries none. */
  function PhoneFromJid(ext: string): Option<string> {
    var n := |ext| - |JID_SUFFIX|;
    if n > 0 && ext[n..] == JID_SUFFIX && Digits(ext[..n]) == ext[..n] then Some("+" + ext[..n]) else None
  }

  // ---- linking ----

  datatype LinkResult = LinkOk | AlreadyLinked | NoPerson

  function LinkIdentity(b: Book, p: PersonId, key: IdKey, displayName: Option<string>, phone: Option<string>, now: Time)
    : (Book, LinkResult)
  {
    var ext := Trim(key.ext);
    if p !in b.people then (b, NoPerson)
    else if ext == "" || IdKey(key.network, ext) in b.ids then (b, AlreadyLinked)
    else
      var number := if NormalizePhone(phone).Some? then NormalizePhone(phone)
                    else if key.network == WhatsApp then PhoneFromJid(ext) else None;
      (b.(ids := b.ids[IdKey(key.network, ext) := Identity(p, CleanText(displayName), number, now, b.serial)],
          serial := b.serial + 1),
       LinkOk)
  }

  function CreatePerson(b: Book, name: string, source: NameSource, isOwner: bool, now: Time): (Book, PersonId) {
    (b.(people := b.people[b.serial := Person(name, source, None, isOwner, false, now)], serial := b.serial + 1), b.serial)
  }

  // ---- the owner's own row ----

  datatype Kind = ContactRow | DmRow | SenderRow

  datatype Candidate = Candidate(ext: string, displayName: Option<string>, phone: Option<string>, kind: Kind)

  datatype Synced = Synced(displayName: Option<string>, phone: Option<string>)

  /**
    * What one sync finds: the account ids of the live archive connections, the name they give the owner, the candidates
    * of each channel, and the contact rows of every identity, newest sync first. `usable` is the letter-or-digit test.
    */
  datatype World = World(
    accounts: seq<IdKey>, ownerName: string, telegram: seq<Candidate>, whatsapp: seq<Candidate>,
    contacts: map<IdKey, seq<Synced>>, usable: string -> bool)

  ghost function OwnerOf(b: Book): Option<PersonId> {
    if p :| p in b.people && b.people[p].isOwner then Some(p) else None
  }

  /** Visible people who hold one of the owner's own account ids. */
  function AccountHolders(b: Book, accounts: seq<IdKey>): seq<PersonId> {
    if accounts == [] then []
    else
      var some, a := AccountHolders(b, accounts[..|accounts| - 1]), accounts[|accounts| - 1];
      if a in b.ids && Contact(b, b.ids[a].person) && b.ids[a].person !in some then some + [b.ids[a].person] else some
  }

  function FoldInto(b: Book, holders: seq<PersonId>, row: PersonId): Book {
    if holders == [] then b
    else MergePeople(FoldInto(b, holders[..|holders| - 1], row), holders[|holders| - 1], row).0
  }

  function LinkAll(b: Book, row: PersonId, accounts: seq<IdKey>, now: Time): Book {
    if accounts == [] then b
    else LinkIdentity(LinkAll(b, row, accounts[..|accounts| - 1], now), row, accounts[|accounts| - 1], None, None, now).0
  }

  function Known(b: Book, holders: seq<PersonId>): set<PersonId> {
    set p | p in holders && p in b.people
  }

  ghost function OwnerRow(b: Book, holders: seq<PersonId>, name: string, now: Time): (Book, PersonId) {
    match OwnerOf(b)
    case Some(p) => (b, p)
    case None =>
      var known := Known(b, holders);
      if known == {} then CreatePerson(b, ClampName(name), FromChannel, true, now)
      else
        var o := Oldest(b, known);
        (b.(people := b.people[o := b.people[o].(isOwner := true)]), o)
  }

  ghost function EnsureOwner(b: Book, w: World, now: Time): Book {
    if w.accounts == [] then b
    else
      var holders := AccountHolders(b, w.accounts);
      var (b1, row) := OwnerRow(b, holders, w.ownerName, now);
      LinkAll(FoldInto(b1, holders, row), row, w.accounts, now)
  }

  // ---- the candidates ----

  predicate HidesPhone(b: Book, phone: string, p: PersonId) {
    p in b.people && b.people[p].archived && phone != "" && exists i :: i in b.ids && b.ids[i].person == p && b.ids[i].phone == Some(phone)
  }

  function HiddenHolders(b: Book, phone: string): set<PersonId> {
    set p | p in b.people && HidesPhone(b, phone, p)
  }

  /** The oldest hidden person with that number. */
  ghost function HiddenByPhone(b: Book, phone: Option<string>): Option<PersonId> {
    if phone.Some? && HiddenHolders(b, phone.value) != {} then Some(Oldest(b, HiddenHolders(b, phone.value))) else None
  }

  /** A contact or a direct chat with a name to call it by. */
  predicate Nameable(c: Candidate, usable: string -> bool) {
    c.kind != SenderRow && c.displayName.Some? && Trim(c.displayName.value) != "" && usable(Trim(c.displayName.value))
  }

  /** `listed` is the table as it was when the candidates were listed, `before` as it was when the hidden were read. */
  ghost function OneCandidate(b: Book, listed: Book, before: Book, network: Network, c: Candidate, w: World, now: Time): (Book, nat) {
    var key := IdKey(network, c.ext);
    if key in listed.ids || !Nameable(c, w.usable) then (b, 0)
    else
      match HiddenByPhone(before, c.phone)
      case Some(h) => (LinkIdentity(b, h, key, c.displayName, c.phone, now).0, 0)
      case None =>
        var (b1, p) := CreatePerson(b, Trim(ClampName(c.displayName.value)), FromChannel, false, now);
        var (b2, linked) := LinkIdentity(b1, p, key, c.displayName, c.phone, now);
        if linked.LinkOk? then (b2, 1) else (b2.(people := b2.people - {p}), 0)
  }

  ghost function Candidates(b: Book, before: Book, network: Network, cs: seq<Candidate>, w: World, now: Time): (Book, nat) {
    if cs == [] then (b, 0)
    else
      var (b1, n) := Candidates(b, before, network, cs[..|cs| - 1], w, now);
      var (b2, m) := OneCandidate(b1, b, before, network, cs[|cs| - 1], w, now);
      (b2, n + m)
  }

  ghost function BothChannels(b: Book, w: World, now: Time): (Book, nat) {
    var (b1, n) := Candidates(b, b, Telegram, w.telegram, w, now);
    var (b2, m) := Candidates(b1, b, WhatsApp, w.whatsapp, w, now);
    (b2, n + m)
  }

  // ---- following the contact list ----

  function Refreshed(i: Identity, row: Synced): Identity {
    var name := CleanText(row.displayName);
    i.(displayName := if name.Some? then name else i.displayName,
       phone := if row.phone.Some? && row.phone.value != "" then row.phone else i.phone)
  }

  function RefreshIdentities(b: Book, contacts: map<IdKey, seq<Synced>>): Book {
    b.(ids := map i | i in b.ids :: if i in contacts && contacts[i] != [] then Refreshed(b.ids[i], contacts[i][0]) else b.ids[i])
  }

  /** The newest contact row that carries a name. */
  function FirstName(rows: seq<Synced>): Option<string> {
    if rows == [] then None
    else if rows[0].displayName.Some? && Trim(rows[0].displayName.value) != "" then Some(ClampName(rows[0].displayName.value))
    else FirstName(rows[1..])
  }

  predicate Named(ids: map<IdKey, Identity>, contacts: map<IdKey, seq<Synced>>, p: PersonId, i: IdKey) {
    i in ids && ids[i].person == p && i in contacts && FirstName(contacts[i]).Some?
  }

  /** By channel, then by the order the identities were linked in. */
  predicate Precedes(ids: map<IdKey, Identity>, i: IdKey, j: IdKey)
    requires i in ids && j in ids
  {
    if i.network != j.network then i.network == Telegram
    else if ids[i].created != ids[j].created then ids[i].created < ids[j].created
    else ids[i].serial < ids[j].serial
  }

  ghost predicate NamesFirst(ids: map<IdKey, Identity>, contacts: map<IdKey, seq<Synced>>, p: PersonId, i: IdKey) {
    Named(ids, contacts, p, i) && forall j :: Named(ids, contacts, p, j) && j != i ==> Precedes(ids, i, j)
  }

  ghost function ChannelName(ids: map<IdKey, Identity>, contacts: map<IdKey, seq<Synced>>, p: PersonId): Option<string> {
    if i :| NamesFirst(ids, contacts, p, i) then FirstName(contacts[i]) else None
  }

  ghost predicate Renames(b: Book, w: World, p: PersonId) {
    Contact(b, p) && b.people[p].nameSource == FromChannel &&
    var next := ChannelName(b.ids, w.contacts, p);
    next.Some? && next.value != "" && next.value != b.people[p].name && w.usable(next.value)
  }

  ghost function Renamed(b: Book, w: World): set<PersonId> {
    set p | p in b.people && Renames(b, w, p)
  }

  ghost function RefreshNames(b: Book, w: World): (Book, nat) {
    (b.(people := map p | p in b.people ::
          if Renames(b, w, p) then b.people[p].(name := ChannelName(b.ids, w.contacts, p).value) else b.people[p]),
     |Renamed(b, w)|)
  }

  // ---- the whole pass ----

  datatype Counts = Counts(created: nat, merged: nat, renamed: nat)

  /** The book as the merge by phone finds it. */
  ghost function BeforeMerging(b: Book, w: World, now: Time): Book {
    RefreshIdentities(BothChannels(EnsureOwner(b, w, now), w, now).0, w.contacts)
  }

  ghost function PopulatePeople(b: Book, w: World, now: Time, phones: seq<string>): (Book, Counts) {
    var created := BothChannels(EnsureOwner(b, w, now), w, now).1;
    var (b1, merged) := MergeByPhone(BeforeMerging(b, w, now), phones);
    var (b2, renamed) := RefreshNames(b1, w);
    (b2, Counts(created, merged, renamed))
  }
}
