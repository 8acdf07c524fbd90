/** lib/services/people.ts: the address book and its merge of two people into one. */
module People {
  import opened Prelude

  // Ids are fresh serial numbers; ties between two birthdays are broken by id.
  type PersonId = nat

  // The two channels whose contact lists feed the address book.
  datatype Network = Telegram | WhatsApp

  datatype NameSource = FromChannel | FromOwner

  datatype Person = Person(
    name: string, nameSource: NameSource, notes: Option<string>, isOwner: bool, archived: bool, created: Time)

  /** The unique index on (channel, external_id). */
  datatype IdKey = IdKey(network: Network, ext: string)

  datatype Identity = Identity(
    person: PersonId, displayName: Option<string>, phone: Option<string>, created: Time, serial: nat)

  datatype Book = Book(people: map<PersonId, Person>, ids: map<IdKey, Identity>, serial: nat)

  /** person_identities.person_id references people.id, and ids are handed out once. */
  predicate Linked(b: Book) {
    && (forall i :: i in b.ids ==> b.ids[i].person in b.people)
    && (forall p :: p in b.people ==> p < b.serial)
  }

  /** Every identity has its own primary key. */
  ghost predicate OwnSerials(ids: map<IdKey, Identity>) {
    forall i, j :: i in ids && j in ids && i != j ==> ids[i].serial != ids[j].serial
  }

  ghost predicate Keyed(b: Book) {
    OwnSerials(b.ids) && forall i :: i in b.ids ==> b.ids[i].serial < b.serial
  }

  predicate Present(b: Book, p: PersonId) {
    p in b.people && !b.people[p].archived
  }

  /** People the merge by phone considers: not hidden, and not the owner. */
  predicate Contact(b: Book, p: PersonId) {
    Present(b, p) && !b.people[p].isOwner
  }

  predicate HasNotes(p: Person) {
    p.notes.Some? && p.notes.value != ""
  }

  function Absorb(t: Person, f: Person): Person {
    var named := t.nameSource == FromChannel && f.nameSource == FromOwner;
    t.(name := if named then f.name else t.name, nameSource := if named then FromOwner else t.nameSource,
       notes := if !HasNotes(t) && HasNotes(f) then f.notes else t.notes)
  }

  function Repoint(ids: map<IdKey, Identity>, from: PersonId, into: PersonId): map<IdKey, Identity> {
    map i | i in ids :: if ids[i].person == from then ids[i].(person := into) else ids[i]
  }

  function MergePeople(b: Book, from: PersonId, into: PersonId): (Book, bool) {
    if from == into || !Present(b, from) || !Present(b, into) || b.people[from].isOwner then (b, false)
    else
      (Book((b.people - {from})[into := Absorb(b.people[into], b.people[from])], Repoint(b.ids, from, into), b.serial), true)
  }

  // ---- the merge by phone ----

  predicate HasPhone(i: Identity, phone: string) {
    i.phone == Some(phone) && phone != ""
  }

  function HoldersOn(b: Book, network: Network, phone: string): set<PersonId> {
    set i | i in b.ids && i.network == network && HasPhone(b.ids[i], phone) && Contact(b, b.ids[i].person) :: b.ids[i].person
  }

  function Holders(b: Book, phone: string): (s: set<PersonId>)
    ensures s <= b.people.Keys
  {
    HoldersOn(b, Telegram, phone) + HoldersOn(b, WhatsApp, phone)
  }

  /** The identities the query of the merging pass returns. */
  predicate Selected(b: Book, i: IdKey) {
    i in b.ids && b.ids[i].phone.Some? && b.ids[i].phone.value != "" && Contact(b, b.ids[i].person)
  }

  /** Held on both channels: the only number that bridges two people. */
  predicate CrossChannel(b: Book, phone: string) {
    HoldersOn(b, Telegram, phone) != {} && HoldersOn(b, WhatsApp, phone) != {}
  }

  predicate Bridges(b: Book, phone: string) {
    CrossChannel(b, phone) && |Holders(b, phone)| >= 2
  }

  predicate Older(b: Book, p: PersonId, q: PersonId)
    requires p in b.people && q in b.people
  {
    b.people[p].created < b.people[q].created || (b.people[p].created == b.people[q].created && p < q)
  }

  ghost predicate IsOldest(b: Book, s: set<PersonId>, p: PersonId)
    requires s <= b.people.Keys
  {
    p in s && forall q :: q in s && q != p ==> Older(b, p, q)
  }

  lemma {:induction false} OldestExists(b: Book, s: set<PersonId>)
    requires s != {} && s <= b.people.Keys
    ensures exists p :: IsOldest(b, s, p)
  {
    var x :| x in s;
    if s == {x} {
      assert IsOldest(b, s, x);
    } else {
      assert s <= s - {x} + {x};
      OldestExists(b, s - {x});
      var y :| IsOldest(b, s - {x}, y);
      var z := if Older(b, x, y) then x else y;
      forall q | q in s && q != z ensures Older(b, z, q) {
        assert q == x || q in s - {x};
      }
      assert IsOldest(b, s, z);
    }
  }

  ghost function Oldest(b: Book, s: set<PersonId>): (p: PersonId)
    requires s != {} && s <= b.people.Keys
    ensures IsOldest(b, s, p)
  {
    OldestExists(b, s);
    var p :| IsOldest(b, s, p);
    p
  }

  /** People in the order of their age, oldest first. */
  ghost function Ranked(b: Book, s: set<PersonId>): (r: seq<PersonId>)
    requires s <= b.people.Keys
    ensures (forall p :: p in r <==> p in s) && Distinct(r)
    decreases |s|
  {
    if s == {} then []
    else
      var p := Oldest(b, s);
      [p] + Ranked(b, s - {p})
  }

  /** One after the other into the survivor; a person already merged away is skipped. */
  function MergeInto(b: Book, rest: seq<PersonId>, survivor: PersonId): (Book, nat) {
    if rest == [] then (b, 0)
    else
      var (b1, n) := MergeInto(b, rest[..|rest| - 1], survivor);
      var (b2, ok) := MergePeople(b1, rest[|rest| - 1], survivor);
      (b2, n + if ok then 1 else 0)
  }

  ghost function MergeGroup(b: Book, snapshot: Book, phone: string): (Book, nat) {
    if !Bridges(snapshot, phone) then (b, 0)
    else
      var group := Holders(snapshot, phone);
      var survivor := Oldest(snapshot, group);
      MergeInto(b, Ranked(snapshot, group - {survivor}), survivor)
  }

  /** The groups were read once, before the first merge. */
  ghost function MergeGroups(b: Book, snapshot: Book, phones: seq<string>): (Book, nat) {
    if phones == [] then (b, 0)
    else
      var (b1, n) := MergeGroups(b, snapshot, phones[..|phones| - 1]);
      var (b2, m) := MergeGroup(b1, snapshot, phones[|phones| - 1]);
      (b2, n + m)
  }

  /** The numbers of the identities the query returns. */
  function Numbers(b: Book): set<string> {
    set i | i in b.ids && Selected(b, i) :: b.ids[i].phone.value
  }

  /** The keys of the groups, in the order they were first met: each number of the query's rows, once. */
  ghost predicate Lists(b: Book, phones: seq<string>) {
    Distinct(phones) && forall x :: x in phones <==> x in Numbers(b)
  }

  ghost function MergeByPhone(b: Book, phones: seq<string>): (Book, nat) {
    MergeGroups(b, b, phones)
  }
}
