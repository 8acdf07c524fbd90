/** What a sync makes of a new contact: a visible person with its name and number, joined across the channels. */
module SyncLaws {
  import opened Prelude
  import opened People
  import opened PhoneMerge
  import opened Populate
  import opened Hidden
  import opened PopulateAgain
  import opened PhoneBridge

  // ---- the loops only add ----

  ghost predicate Extends(b: Book, b1: Book) {
    && (forall i :: i in b.ids ==> i in b1.ids && b1.ids[i] == b.ids[i])
    && (forall p :: p in b.people ==> p in b1.people && b1.people[p] == b.people[p])
  }

  lemma OneCandidateExtends(b: Book, listed: Book, before: Book, network: Network, c: Candidate, w: World, now: Time)
    requires Linked(b)
    ensures Extends(b, OneCandidate(b, listed, before, network, c, w, now).0)
  {
    hide Trim, ClampName, NormalizePhone, PhoneFromJid, HiddenByPhone, Nameable, CleanText;
  }

  lemma {:induction false} PrefixExtends(b: Book, before: Book, network: Network, cs: seq<Candidate>, w: World, now: Time, k: nat)
    requires Linked(b) && k <= |cs|
    ensures Extends(Candidates(b, before, network, cs[..k], w, now).0, Candidates(b, before, network, cs, w, now).0)
  {
    hide OneCandidate, Linked;
    if k == |cs| {
      assert cs[..k] == cs;
    } else {
      var front := cs[..|cs| - 1];
      assert front[..k] == cs[..k];
      PrefixExtends(b, before, network, front, w, now, k);
      CandidatesKeep(b, before, network, front, w, now);
      var mid := Candidates(b, before, network, front, w, now).0;
      KeepsLinked(b, mid);
      OneCandidateExtends(mid, b, before, network, cs[|cs| - 1], w, now);
    }
  }

  // ---- one new contact ----

  /** A contact or direct chat with a name that can be shown. */
  predicate HasName(c: Candidate, w: World) {
    c.kind != SenderRow && c.displayName != None && Trim(c.displayName.value) != "" && w.usable(Trim(c.displayName.value))
  }

  /** Nobody hidden has the candidate's number. */
  ghost predicate NobodyHides(b: Book, phone: Option<string>) {
    forall i :: i in b.ids && b.ids[i].person in b.people && b.ids[i].phone == phone && phone != None ==> !b.people[b.ids[i].person].archived
  }

  /** The stored name: what was given, or its first hundred characters. */
  predicate NamedAfter(name: string, given: string) {
    name == Trim(if |Trim(given)| <= 100 then Trim(given) else Trim(given)[..100])
  }

  /** The candidate has become a new person of its own, and this is its identity. */
  ghost predicate MadeAnew(b: Book, b1: Book, key: IdKey, c: Candidate, now: Time) {
    key in b1.ids && c.displayName != None &&
    var p := b1.ids[key].person;
    && p !in b.people && p in b1.people
    && !b1.people[p].archived && !b1.people[p].isOwner && b1.people[p].nameSource == FromChannel && b1.people[p].notes == None
    && b1.people[p].created == now && NamedAfter(b1.people[p].name, c.displayName.value)
  }

  /** A nameable candidate nobody holds and whose number nobody hidden has becomes a new visible person. */
  lemma CandidateMakesPerson(b: Book, listed: Book, before: Book, network: Network, c: Candidate, w: World, now: Time)
    requires Linked(b) && Trim(c.ext) == c.ext && c.ext != "" && HasName(c, w) && NobodyHides(before, c.phone)
    requires IdKey(network, c.ext) !in listed.ids && IdKey(network, c.ext) !in b.ids
    ensures var b1 := OneCandidate(b, listed, before, network, c, w, now).0; var key := IdKey(network, c.ext);
      && MadeAnew(b, b1, key, c, now)
      && (c.phone != None && DigitsOf(c.phone.value) != "" ==> b1.ids[key].phone == Some("+" + DigitsOf(c.phone.value)))
      && (c.phone == None && network == WhatsApp ==>
            forall d :: Numeral(d) && c.ext == d + "@s.whatsapp.net" ==> b1.ids[key].phone == Some("+" + d))
  {
    var key := IdKey(network, c.ext);
    NotHidden(before, c.phone);
    var (b1, p) := CreatePerson(b, Trim(ClampName(c.displayName.value)), FromChannel, false, now);
    NameKept(c.displayName.value);
    if c.phone != None && DigitsOf(c.phone.value) != "" {
      TypedNumberStores(b1, p, key, c.displayName, c.phone.value, DigitsOf(c.phone.value), now);
    }
    if c.phone == None && network == WhatsApp {
      forall d | Numeral(d) && c.ext == d + "@s.whatsapp.net"
        ensures var (b2, r) := LinkIdentity(b1, p, key, c.displayName, None, now); LinksWith(b1, b2, r, p, key, "+" + d)
      {
        JidStoresNumber(b1, p, d, c.displayName, now);
      }
    }
    LinkAdds(b1, p, key, c.displayName, c.phone, now);
    LinkedOk(b1, p, key, c.displayName, c.phone, now);
    hide LinkIdentity, Trim, ClampName, Numeral, DigitsOf, HiddenByPhone, NamedAfter, CleanText;
  }

  lemma NameKept(given: string)
    ensures NamedAfter(Trim(ClampName(given)), given)
  {
    hide Trim;
  }

  lemma LinkedOk(b: Book, p: PersonId, key: IdKey, name: Option<string>, phone: Option<string>, now: Time)
    requires p in b.people && Trim(key.ext) == key.ext && key.ext != "" && key !in b.ids
    ensures LinkIdentity(b, p, key, name, phone, now).1 == LinkOk && LinkIdentity(b, p, key, name, phone, now).0.people == b.people
  {
    hide Trim, NormalizePhone, PhoneFromJid, CleanText;
  }

  lemma NotHidden(b: Book, phone: Option<string>)
    requires NobodyHides(b, phone)
    ensures HiddenByPhone(b, phone) == None
  {
    if phone.Some? {
      assert forall p :: p in b.people ==> !HidesPhone(b, phone.value, p);
    }
  }

  // ---- one contact through the loops ----

  /** After one channel's loop the candidate is a visible person who is not the owner, with the number it came with. */
  lemma LoopMakesPerson(b: Book, before: Book, network: Network, cs: seq<Candidate>, w: World, now: Time, k: nat, x: string)
    requires Linked(b) && Keeps(before, b) && Listing(cs) && k < |cs| && HasName(cs[k], w) && NobodyHides(before, cs[k].phone)
    requires IdKey(network, cs[k].ext) !in b.ids && ComesWith(network, cs[k], x)
    ensures var b1 := Candidates(b, before, network, cs, w, now).0; var key := IdKey(network, cs[k].ext);
      HeldByContact(b1, key) && b1.ids[key].phone == Some(x) && NamedAfter(b1.people[b1.ids[key].person].name, cs[k].displayName.value)
  {
    hide OneCandidate, Keeps, Linked, Trim, Extends, NamedAfter;
    var c, front := cs[k], cs[..k];
    var key := IdKey(network, c.ext);
    var mid := Candidates(b, before, network, front, w, now).0;
    assert c in cs && forall y :: y in front ==> y in cs;
    CandidatesKeep(b, before, network, front, w, now);
    KeepsLinked(b, mid);
    CandidatesIds(b, before, network, front, w, now);
    assert key !in mid.ids;
    CandidateMakesPerson(mid, b, before, network, c, w, now);
    var next := OneCandidate(mid, b, before, network, c, w, now).0;
    assert cs[..k + 1][..k] == front && cs[..k + 1][k] == c;
    assert next == Candidates(b, before, network, cs[..k + 1], w, now).0;
    PrefixExtends(b, before, network, cs, w, now, k + 1);
    hide Candidates, HasName, NobodyHides, Listing;
    ExtendsHolds(next, Candidates(b, before, network, cs, w, now).0, key);
  }

  lemma ExtendsHolds(b: Book, b1: Book, key: IdKey)
    requires Extends(b, b1) && HeldByContact(b, key)
    ensures HeldByContact(b1, key) && b1.ids[key] == b.ids[key] && b1.people[b1.ids[key].person] == b.people[b.ids[key].person]
  {
  }

  /** The number a candidate comes with: the digits of its phone, or those its WhatsApp id is made of. */
  ghost predicate ComesWith(network: Network, c: Candidate, x: string) {
    if c.phone != None then DigitsOf(c.phone.value) != "" && x == "+" + DigitsOf(c.phone.value)
    else network == WhatsApp && exists d :: Numeral(d) && c.ext == d + "@s.whatsapp.net" && x == "+" + d
  }

  /** No contact row says otherwise. */
  predicate SaysNothingElse(w: World, key: IdKey, x: string) {
    key in w.contacts && w.contacts[key] != [] ==>
      w.contacts[key][0].phone == None || w.contacts[key][0].phone == Some("") || w.contacts[key][0].phone == Some(x)
  }

  lemma RefreshedHolds(b: Book, w: World, key: IdKey, x: string)
    requires HeldByContact(b, key) && b.ids[key].phone == Some(x) && SaysNothingElse(w, key, x)
    ensures var r := RefreshIdentities(b, w.contacts); HeldByContact(r, key) && r.ids[key].phone == Some(x)
  {
    hide CleanText;
  }

  /** Both loops: a candidate of each channel with the same number. */
  lemma BothMade(e: Book, w: World, now: Time, j: nat, k: nat, x: string)
    requires Linked(e) && Listing(w.telegram) && Listing(w.whatsapp) && j < |w.telegram| && k < |w.whatsapp|
    requires HasName(w.telegram[j], w) && HasName(w.whatsapp[k], w)
    requires NobodyHides(e, w.telegram[j].phone) && NobodyHides(e, w.whatsapp[k].phone)
    requires IdKey(Telegram, w.telegram[j].ext) !in e.ids && IdKey(WhatsApp, w.whatsapp[k].ext) !in e.ids
    requires ComesWith(Telegram, w.telegram[j], x) && ComesWith(WhatsApp, w.whatsapp[k], x)
    ensures var u := BothChannels(e, w, now).0; var tele, whats := IdKey(Telegram, w.telegram[j].ext), IdKey(WhatsApp, w.whatsapp[k].ext);
      && HeldByContact(u, tele) && u.ids[tele].phone == Some(x) && HeldByContact(u, whats) && u.ids[whats].phone == Some(x)
  {
    var tele, whats := IdKey(Telegram, w.telegram[j].ext), IdKey(WhatsApp, w.whatsapp[k].ext);
    assert Keeps(e, e);
    hide Candidates, HasName, NobodyHides, ComesWith, Keeps, NamedAfter, Trim, Extends, HeldByContact;
    var t := Candidates(e, e, Telegram, w.telegram, w, now).0;
    CandidatesKeep(e, e, Telegram, w.telegram, w, now);
    KeepsLinked(e, t);
    CandidatesIds(e, e, Telegram, w.telegram, w, now);
    hide Listing, Linked;
    LoopMakesPerson(e, e, Telegram, w.telegram, w, now, j, x);
    LoopMakesPerson(t, e, WhatsApp, w.whatsapp, w, now, k, x);
    PrefixExtends(t, e, WhatsApp, w.whatsapp, w, now, 0);
    assert w.whatsapp[..0] == [];
    NoCandidates(t, e, w, now);
    var u := BothChannels(e, w, now).0;
    assert u == Candidates(t, e, WhatsApp, w.whatsapp, w, now).0;
    ExtendsHolds(t, u, tele);
  }

  lemma NoCandidates(t: Book, e: Book, w: World, now: Time)
    ensures Candidates(t, e, WhatsApp, [], w, now).0 == t
  {
  }

  /**
    * A sync of two new contacts, one on each channel, whose numbers have the same digits (the WhatsApp one may carry its
    * number in its id alone): if the book ends closed, they are one person.
    */
  lemma SyncJoins(b: Book, w: World, now: Time, phones: seq<string>, j: nat, k: nat, x: string)
    requires Linked(b) && Listing(w.telegram) && Listing(w.whatsapp) && j < |w.telegram| && k < |w.whatsapp|
    requires HasName(w.telegram[j], w) && HasName(w.whatsapp[k], w)
    requires var e := EnsureOwner(b, w, now);
      && NobodyHides(e, w.telegram[j].phone) && NobodyHides(e, w.whatsapp[k].phone)
      && IdKey(Telegram, w.telegram[j].ext) !in e.ids && IdKey(WhatsApp, w.whatsapp[k].ext) !in e.ids
    requires ComesWith(Telegram, w.telegram[j], x) && ComesWith(WhatsApp, w.whatsapp[k], x)
    requires SaysNothingElse(w, IdKey(Telegram, w.telegram[j].ext), x) && SaysNothingElse(w, IdKey(WhatsApp, w.whatsapp[k].ext), x)
    requires Lists(BeforeMerging(b, w, now), phones) && Closed(PopulatePeople(b, w, now, phones).0)
    ensures var end := PopulatePeople(b, w, now, phones).0;
      var tele, whats := IdKey(Telegram, w.telegram[j].ext), IdKey(WhatsApp, w.whatsapp[k].ext);
      tele in end.ids && whats in end.ids && end.ids[tele].person == end.ids[whats].person
  {
    var tele, whats := IdKey(Telegram, w.telegram[j].ext), IdKey(WhatsApp, w.whatsapp[k].ext);
    var e := EnsureOwner(b, w, now);
    EnsureOwnerKeeps(b, w, now);
    KeepsLinked(b, e);
    hide EnsureOwner, BothChannels, MergeByPhone, RefreshNames, RefreshIdentities, Lists, Closed, Listing, Keeps, Linked;
    hide HasName, NobodyHides, SaysNothingElse;
    BothMade(e, w, now, j, k, x);
    var u := BothChannels(e, w, now).0;
    RefreshedHolds(u, w, tele, x);
    RefreshedHolds(u, w, whats, x);
    var r := BeforeMerging(b, w, now);
    assert x != "" by { PlusFirst(w.telegram[j], x); }
    assert Bridge(r, tele, whats, x);
    hide ComesWith, HeldByContact, Bridge;
    BeforeMergingKeeps(b, w, now);
    KeepsLinked(b, r);
    var m := MergeByPhone(r, phones).0;
    NamesCloseNothing(m, w);
    NamesIdle(m, w);
    OnePassRun(r, phones);
    BridgedMeet([r, m], [phones], tele, whats, x);
  }

  lemma PlusFirst(c: Candidate, x: string)
    requires ComesWith(Telegram, c, x)
    ensures x != ""
  {
  }

  lemma OnePassRun(r: Book, phones: seq<string>)
    requires Lists(r, phones)
    ensures PassRun([r, MergeByPhone(r, phones).0], [phones])
  {
    hide Lists, MergeByPhone;
  }

  // ---- the counters ----

  lemma LinkKeepsPeople(b: Book, p: PersonId, key: IdKey, name: Option<string>, phone: Option<string>, now: Time)
    ensures LinkIdentity(b, p, key, name, phone, now).0.people == b.people
  {
    hide Trim, NormalizePhone, PhoneFromJid, CleanText;
  }

  lemma OneMore(people: map<PersonId, Person>, id: PersonId, p: Person)
    requires id !in people
    ensures |people[id := p]| == |people| + 1 && people[id := p] - {id} == people
  {
    assert people[id := p].Keys == people.Keys + {id};
    assert people[id := p] - {id} == people;
  }

  lemma OneCandidateCounts(b: Book, listed: Book, before: Book, network: Network, c: Candidate, w: World, now: Time)
    requires Linked(b)
    ensures var (b1, n) := OneCandidate(b, listed, before, network, c, w, now); |b1.people| == |b.people| + n
  {
    var key := IdKey(network, c.ext);
    assert b.serial !in b.people;
    hide Linked, Trim, ClampName, LinkIdentity, HiddenByPhone;
    if !(key in listed.ids) && Nameable(c, w.usable) {
      var hidden := HiddenByPhone(before, c.phone);
      if hidden.Some? {
        LinkKeepsPeople(b, hidden.value, key, c.displayName, c.phone, now);
      } else {
        var name := Trim(ClampName(c.displayName.value));
        OneMore(b.people, b.serial, Person(name, FromChannel, None, false, false, now));
        LinkKeepsPeople(CreatePerson(b, name, FromChannel, false, now).0, b.serial, key, c.displayName, c.phone, now);
      }
    }
  }

  lemma {:induction false} CandidatesCount(b: Book, before: Book, network: Network, cs: seq<Candidate>, w: World, now: Time)
    requires Linked(b)
    ensures var (b1, n) := Candidates(b, before, network, cs, w, now); |b1.people| == |b.people| + n
  {
    hide OneCandidate, Linked;
    if cs != [] {
      var front := cs[..|cs| - 1];
      CandidatesCount(b, before, network, front, w, now);
      CandidatesKeep(b, before, network, front, w, now);
      var mid := Candidates(b, before, network, front, w, now).0;
      KeepsLinked(b, mid);
      OneCandidateCounts(mid, b, before, network, cs[|cs| - 1], w, now);
    }
  }

  /** A sync counts the people it adds to the owner's own and takes off again; what is left is the difference. */
  lemma SyncCounts(b: Book, w: World, now: Time, phones: seq<string>)
    requires Linked(b)
    ensures var e := EnsureOwner(b, w, now); var (end, n) := PopulatePeople(b, w, now, phones);
      && |BeforeMerging(b, w, now).people| == |e.people| + n.created
      && |end.people| == |e.people| + n.created - n.merged
  {
    var e := EnsureOwner(b, w, now);
    EnsureOwnerKeeps(b, w, now);
    KeepsLinked(b, e);
    hide EnsureOwner, Candidates, MergeGroups, Linked, Keeps;
    CandidatesCount(e, e, Telegram, w.telegram, w, now);
    CandidatesKeep(e, e, Telegram, w.telegram, w, now);
    var b1 := Candidates(e, e, Telegram, w.telegram, w, now).0;
    KeepsLinked(e, b1);
    CandidatesCount(b1, e, WhatsApp, w.whatsapp, w, now);
    var r := BeforeMerging(b, w, now);
    MergeGroupsCount(r, r, phones);
    RenamesKeepCount(MergeByPhone(r, phones).0, w);
  }

  lemma RenamesKeepCount(b: Book, w: World)
    ensures |RefreshNames(b, w).0.people| == |b.people|
  {
    hide Renames;
    assert RefreshNames(b, w).0.people.Keys == b.people.Keys;
  }
}
