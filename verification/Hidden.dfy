/** Hidden stays hidden: no populating pass unhides a person, takes an identity from one, or makes a second, visible one. */
module Hidden {
  import opened Prelude
  import opened People
  import opened PhoneMerge
  import opened Populate

  /** Ids are never dropped, and hidden people keep their row and every identity they hold. */
  ghost predicate Keeps(b: Book, b1: Book) {
    && Linked(b1)
    && (forall p :: p in b.people && b.people[p].archived ==> p in b1.people && b1.people[p] == b.people[p])
    && (forall i :: i in b.ids ==> i in b1.ids)
    && (forall i :: i in b.ids && b.ids[i].person in b.people && b.people[b.ids[i].person].archived ==>
          b1.ids[i].person == b.ids[i].person)
  }

  lemma KeepsTrans(b: Book, b1: Book, b2: Book)
    requires Keeps(b, b1) && Keeps(b1, b2)
    ensures Keeps(b, b2)
  {
  }

  lemma LinkKeeps(b: Book, p: PersonId, key: IdKey, name: Option<string>, phone: Option<string>, now: Time)
    requires Linked(b)
    ensures Keeps(b, LinkIdentity(b, p, key, name, phone, now).0)
  {
    hide Trim, NormalizePhone, PhoneFromJid;
  }

  lemma CreateKeeps(b: Book, name: string, source: NameSource, isOwner: bool, now: Time)
    requires Linked(b)
    ensures Keeps(b, CreatePerson(b, name, source, isOwner, now).0)
    ensures CreatePerson(b, name, source, isOwner, now).1 !in b.people
  {
  }

  lemma MergeKeeps(b: Book, from: PersonId, into: PersonId)
    requires Linked(b)
    ensures Keeps(b, MergePeople(b, from, into).0)
  {
  }

  lemma {:induction false} FoldKeeps(b: Book, holders: seq<PersonId>, row: PersonId)
    requires Linked(b)
    ensures Keeps(b, FoldInto(b, holders, row))
  {
    if holders != [] {
      var mid := FoldInto(b, holders[..|holders| - 1], row);
      FoldKeeps(b, holders[..|holders| - 1], row);
      hide Keeps;
      assert Linked(mid) by { KeepsLinked(b, mid); }
      MergeKeeps(mid, holders[|holders| - 1], row);
      KeepsTrans(b, mid, FoldInto(b, holders, row));
    }
  }

  lemma KeepsLinked(b: Book, b1: Book)
    requires Keeps(b, b1)
    ensures Linked(b1)
  {
  }

  lemma {:induction false} LinkAllKeeps(b: Book, row: PersonId, accounts: seq<IdKey>, now: Time)
    requires Linked(b)
    ensures Keeps(b, LinkAll(b, row, accounts, now))
  {
    if accounts != [] {
      hide LinkIdentity;
      var mid := LinkAll(b, row, accounts[..|accounts| - 1], now);
      LinkAllKeeps(b, row, accounts[..|accounts| - 1], now);
      LinkKeeps(mid, row, accounts[|accounts| - 1], None, None, now);
      KeepsTrans(b, mid, LinkAll(b, row, accounts, now));
    }
  }

  lemma {:induction false} HoldersVisible(b: Book, accounts: seq<IdKey>)
    ensures forall p :: p in AccountHolders(b, accounts) ==> Contact(b, p)
    ensures forall p :: p in AccountHolders(b, accounts) ==> exists a :: a in accounts && a in b.ids && b.ids[a].person == p
  {
    if accounts != [] {
      HoldersVisible(b, accounts[..|accounts| - 1]);
      assert accounts[|accounts| - 1] in accounts && forall a :: a in accounts[..|accounts| - 1] ==> a in accounts;
    }
  }

  lemma OwnerRowKeeps(b: Book, holders: seq<PersonId>, name: string, now: Time)
    requires Linked(b) && forall p :: p in holders ==> Contact(b, p)
    ensures var (b1, row) := OwnerRow(b, holders, name, now);
      Keeps(b, b1) && row in b1.people && b1.people[row].isOwner && b1.ids == b.ids
  {
    hide ClampName;
    CreateKeeps(b, ClampName(name), FromChannel, true, now);
  }

  lemma EnsureOwnerKeeps(b: Book, w: World, now: Time)
    requires Linked(b)
    ensures Keeps(b, EnsureOwner(b, w, now))
  {
    if w.accounts != [] {
      hide Linked, LinkAll, FoldInto, OwnerRow, AccountHolders, Contact;
      var holders := AccountHolders(b, w.accounts);
      HoldersVisible(b, w.accounts);
      OwnerRowKeeps(b, holders, w.ownerName, now);
      var (b1, row) := OwnerRow(b, holders, w.ownerName, now);
      FoldKeeps(b1, holders, row);
      var b2 := FoldInto(b1, holders, row);
      LinkAllKeeps(b2, row, w.accounts, now);
      hide Keeps;
      KeepsTrans(b, b1, b2);
      KeepsTrans(b, b2, EnsureOwner(b, w, now));
    }
  }

  lemma OneCandidateKeeps(b: Book, listed: Book, before: Book, network: Network, c: Candidate, w: World, now: Time)
    requires Linked(b)
    ensures Keeps(b, OneCandidate(b, listed, before, network, c, w, now).0)
  {
    hide LinkIdentity, Trim, ClampName, HiddenByPhone;
    var key := IdKey(network, c.ext);
    match HiddenByPhone(before, c.phone)
    case Some(h) => LinkKeeps(b, h, key, c.displayName, c.phone, now);
    case None =>
      if key !in listed.ids && Nameable(c, w.usable) {
        var name := Trim(ClampName(c.displayName.value));
        var (b1, p) := CreatePerson(b, name, FromChannel, false, now);
        CreateKeeps(b, name, FromChannel, false, now);
        LinkKeeps(b1, p, key, c.displayName, c.phone, now);
        LinkFails(b1, p, key, c.displayName, c.phone, now);
      }
  }

  lemma LinkFails(b: Book, p: PersonId, key: IdKey, name: Option<string>, phone: Option<string>, now: Time)
    ensures var (b1, r) := LinkIdentity(b, p, key, name, phone, now);
      (!r.LinkOk? ==> b1 == b) && b1.people == b.people
  {
    hide Trim, NormalizePhone, PhoneFromJid;
  }

  lemma {:induction false} CandidatesKeep(b: Book, before: Book, network: Network, cs: seq<Candidate>, w: World, now: Time)
    requires Linked(b)
    ensures Keeps(b, Candidates(b, before, network, cs, w, now).0)
  {
    hide OneCandidate;
    if cs != [] {
      var mid := Candidates(b, before, network, cs[..|cs| - 1], w, now).0;
      CandidatesKeep(b, before, network, cs[..|cs| - 1], w, now);
      OneCandidateKeeps(mid, b, before, network, cs[|cs| - 1], w, now);
      KeepsTrans(b, mid, Candidates(b, before, network, cs, w, now).0);
    }
  }

  lemma RefreshKeeps(b: Book, contacts: map<IdKey, seq<Synced>>)
    requires Linked(b)
    ensures Keeps(b, RefreshIdentities(b, contacts))
  {
    hide Trim;
  }

  lemma {:induction false} MergeIntoKeeps(b: Book, rest: seq<PersonId>, survivor: PersonId)
    requires Linked(b)
    ensures Keeps(b, MergeInto(b, rest, survivor).0)
  {
    hide MergePeople;
    if rest != [] {
      var mid := MergeInto(b, rest[..|rest| - 1], survivor).0;
      MergeIntoKeeps(b, rest[..|rest| - 1], survivor);
      MergeKeeps(mid, rest[|rest| - 1], survivor);
      KeepsTrans(b, mid, MergeInto(b, rest, survivor).0);
    }
  }

  lemma {:induction false} MergeGroupsKeep(b: Book, snapshot: Book, phones: seq<string>)
    requires Linked(b)
    ensures Keeps(b, MergeGroups(b, snapshot, phones).0)
  {
    hide MergeInto, Bridges, Holders;
    if phones != [] {
      var front, x := phones[..|phones| - 1], phones[|phones| - 1];
      var mid := MergeGroups(b, snapshot, front).0;
      MergeGroupsKeep(b, snapshot, front);
      if Bridges(snapshot, x) {
        var s := SurvivorOf(snapshot, x);
        MergeIntoKeeps(mid, Ranked(snapshot, Holders(snapshot, x) - {s}), s);
        KeepsTrans(b, mid, MergeGroups(b, snapshot, phones).0);
      }
    }
  }

  lemma NamesKeep(b: Book, w: World)
    requires Linked(b)
    ensures Keeps(b, RefreshNames(b, w).0)
  {
    hide ChannelName;
  }

  lemma BeforeMergingKeeps(b: Book, w: World, now: Time)
    requires Linked(b)
    ensures Keeps(b, BeforeMerging(b, w, now))
  {
    hide EnsureOwner, Candidates, RefreshIdentities;
    var e := EnsureOwner(b, w, now);
    EnsureOwnerKeeps(b, w, now);
    CandidatesKeep(e, e, Telegram, w.telegram, w, now);
    var t := Candidates(e, e, Telegram, w.telegram, w, now).0;
    CandidatesKeep(t, e, WhatsApp, w.whatsapp, w, now);
    var u := BothChannels(e, w, now).0;
    RefreshKeeps(u, w.contacts);
    hide Keeps, Linked;
    KeepsTrans(b, e, t);
    KeepsTrans(b, t, u);
    KeepsTrans(b, u, BeforeMerging(b, w, now));
  }

  /** In every pass: hidden people stay exactly as they are, and keep every identity they hold. */
  lemma HiddenStaysHidden(b: Book, w: World, now: Time, phones: seq<string>)
    requires Linked(b)
    ensures Keeps(b, PopulatePeople(b, w, now, phones).0)
  {
    hide BeforeMerging, MergeGroups, BothChannels, EnsureOwner, RefreshNames;
    BeforeMergingKeeps(b, w, now);
    var r := BeforeMerging(b, w, now);
    MergeGroupsKeep(r, r, phones);
    var m := MergeByPhone(r, phones).0;
    NamesKeep(m, w);
    hide Keeps, Linked;
    KeepsTrans(b, r, m);
    KeepsTrans(b, m, PopulatePeople(b, w, now, phones).0);
  }

  // ---- a hidden person's number draws their other accounts in ----

  /** What the candidate list guarantees: one entry per id, and every id trimmed. */
  ghost predicate Listing(cs: seq<Candidate>) {
    (forall c :: c in cs ==> Trim(c.ext) == c.ext && c.ext != "") &&
    forall j, k :: 0 <= j < k < |cs| ==> cs[j].ext != cs[k].ext
  }

  lemma LinkAdds(b: Book, p: PersonId, key: IdKey, name: Option<string>, phone: Option<string>, now: Time)
    requires Trim(key.ext) == key.ext && key.ext != "" && p in b.people
    ensures var b1 := LinkIdentity(b, p, key, name, phone, now).0;
      b1.ids.Keys == b.ids.Keys + {key} && (key !in b.ids ==> b1.ids[key].person == p)
  {
    hide NormalizePhone, PhoneFromJid;
  }

  lemma HiddenIsThere(before: Book, b: Book, phone: Option<string>)
    requires Keeps(before, b) && HiddenByPhone(before, phone).Some?
    ensures var h := HiddenByPhone(before, phone).value;
      h in b.people && b.people[h].archived && HidesPhone(before, phone.value, h)
  {
  }

  /** One candidate adds its own id at most, and does add it when it is nameable and new. */
  lemma OneCandidateIds(b: Book, listed: Book, before: Book, network: Network, c: Candidate, w: World, now: Time)
    requires Trim(c.ext) == c.ext && c.ext != "" && Keeps(before, b)
    ensures var b1 := OneCandidate(b, listed, before, network, c, w, now).0; var key := IdKey(network, c.ext);
      b.ids.Keys <= b1.ids.Keys <= b.ids.Keys + {key} &&
      (key !in listed.ids && Nameable(c, w.usable) ==> key in b1.ids) &&
      (key !in listed.ids && Nameable(c, w.usable) && key !in b.ids && HiddenByPhone(before, c.phone).Some? ==>
         b1.ids[key].person == HiddenByPhone(before, c.phone).value)
  {
    hide LinkIdentity, Trim, ClampName, HiddenByPhone, Linked;
    var key := IdKey(network, c.ext);
    if key !in listed.ids && Nameable(c, w.usable) {
      match HiddenByPhone(before, c.phone)
      case Some(h) =>
        HiddenIsThere(before, b, c.phone);
        LinkAdds(b, h, key, c.displayName, c.phone, now);
      case None =>
        var (b1, p) := CreatePerson(b, Trim(ClampName(c.displayName.value)), FromChannel, false, now);
        LinkAdds(b1, p, key, c.displayName, c.phone, now);
    }
  }

  lemma {:induction false} CandidatesIds(b: Book, before: Book, network: Network, cs: seq<Candidate>, w: World, now: Time)
    requires Linked(b) && Keeps(before, b) && forall c :: c in cs ==> Trim(c.ext) == c.ext && c.ext != ""
    ensures var b1 := Candidates(b, before, network, cs, w, now).0;
      && b.ids.Keys <= b1.ids.Keys
      && (forall i :: i in b1.ids && i !in b.ids ==> exists c :: c in cs && i == IdKey(network, c.ext))
      && (forall c :: c in cs && Nameable(c, w.usable) ==> IdKey(network, c.ext) in b1.ids)
  {
    hide OneCandidate, Keeps, Trim, Linked, Nameable;
    if cs != [] {
      var front, c := cs[..|cs| - 1], cs[|cs| - 1];
      assert c in cs && forall x :: x in front ==> x in cs;
      assert forall x :: x in cs ==> x in front || x == c;
      var mid := Candidates(b, before, network, front, w, now).0;
      CandidatesIds(b, before, network, front, w, now);
      CandidatesKeep(b, before, network, front, w, now);
      KeepsTrans(before, b, mid);
      OneCandidateIds(mid, b, before, network, c, w, now);
    }
  }

  lemma {:induction false} PrefixKeeps(b: Book, before: Book, network: Network, cs: seq<Candidate>, w: World, now: Time, k: nat)
    requires Linked(b) && k <= |cs|
    ensures Keeps(Candidates(b, before, network, cs[..k], w, now).0, Candidates(b, before, network, cs, w, now).0)
  {
    hide OneCandidate, Linked;
    CandidatesKeep(b, before, network, cs[..k], w, now);
    if k == |cs| {
      assert cs[..k] == cs;
    } else {
      var front := cs[..|cs| - 1];
      assert front[..k] == cs[..k];
      PrefixKeeps(b, before, network, front, w, now, k);
      CandidatesKeep(b, before, network, front, w, now);
      var mid := Candidates(b, before, network, front, w, now).0;
      OneCandidateKeeps(mid, b, before, network, cs[|cs| - 1], w, now);
      hide Keeps;
      KeepsTrans(Candidates(b, before, network, cs[..k], w, now).0, mid, Candidates(b, before, network, cs, w, now).0);
    }
  }

  lemma KeepsHeld(b: Book, b1: Book, i: IdKey)
    requires Keeps(b, b1) && i in b.ids && b.ids[i].person in b.people && b.people[b.ids[i].person].archived
    ensures i in b1.ids && b1.ids[i].person == b.ids[i].person && b1.ids[i].person in b1.people &&
      b1.people[b1.ids[i].person].archived
  {
  }

  /** Through the loop of one channel: the candidate ends with the hidden person. */
  lemma LoopAttaches(b: Book, before: Book, network: Network, cs: seq<Candidate>, w: World, now: Time, k: nat)
    requires Linked(b) && Keeps(before, b) && Listing(cs) && k < |cs| && Nameable(cs[k], w.usable)
    requires IdKey(network, cs[k].ext) !in b.ids && HiddenByPhone(before, cs[k].phone).Some?
    ensures var b1 := Candidates(b, before, network, cs, w, now).0; var key := IdKey(network, cs[k].ext);
      var h := HiddenByPhone(before, cs[k].phone).value;
      key in b1.ids && b1.ids[key].person == h && h in b1.people && b1.people[h].archived
  {
    hide OneCandidate, Keeps, Linked, Trim, Nameable, HiddenByPhone;
    var c, front := cs[k], cs[..k];
    var key := IdKey(network, c.ext);
    var mid := Candidates(b, before, network, front, w, now).0;
    assert c in cs && forall x :: x in front ==> x in cs;
    CandidatesKeep(b, before, network, front, w, now);
    KeepsTrans(before, b, mid);
    CandidatesIds(b, before, network, front, w, now);
    assert key !in mid.ids;
    OneCandidateIds(mid, b, before, network, c, w, now);
    var next := OneCandidate(mid, b, before, network, c, w, now).0;
    assert cs[..k + 1][..k] == front;
    assert next == Candidates(b, before, network, cs[..k + 1], w, now).0;
    OneCandidateKeepsLinked(mid, b, before, network, c, w, now);
    HiddenIsThere(before, next, c.phone) by { KeepsTrans(before, mid, next); }
    PrefixKeeps(b, before, network, cs, w, now, k + 1);
    KeepsHeld(next, Candidates(b, before, network, cs, w, now).0, key);
  }

  lemma OneCandidateKeepsLinked(b: Book, listed: Book, before: Book, network: Network, c: Candidate, w: World, now: Time)
    requires Keeps(before, b)
    ensures Keeps(b, OneCandidate(b, listed, before, network, c, w, now).0)
  {
    KeepsLinked(before, b);
    OneCandidateKeeps(b, listed, before, network, c, w, now);
  }

  lemma {:induction false} FoldPhones(b: Book, holders: seq<PersonId>, row: PersonId)
    ensures var b1 := FoldInto(b, holders, row);
      b1.ids.Keys == b.ids.Keys && forall i :: i in b.ids ==> b1.ids[i] == b.ids[i].(person := b1.ids[i].person)
  {
    if holders != [] {
      FoldPhones(b, holders[..|holders| - 1], row);
    }
  }

  lemma {:induction false} LinkAllPhones(b: Book, row: PersonId, accounts: seq<IdKey>, now: Time)
    ensures var b1 := LinkAll(b, row, accounts, now); forall i :: i in b.ids ==> i in b1.ids && b1.ids[i] == b.ids[i]
  {
    hide Trim;
    if accounts != [] {
      LinkAllPhones(b, row, accounts[..|accounts| - 1], now);
    }
  }

  /** Making the owner's row never takes a number from a hidden person. */
  lemma StillHides(b: Book, w: World, now: Time, phone: string, p: PersonId)
    requires Linked(b) && HidesPhone(b, phone, p)
    ensures HidesPhone(EnsureOwner(b, w, now), phone, p)
  {
    if w.accounts != [] {
      var i :| i in b.ids && b.ids[i].person == p && b.ids[i].phone == Some(phone);
      EnsureOwnerKeeps(b, w, now);
      hide Linked, LinkAll, FoldInto, OwnerRow, AccountHolders, Contact;
      var holders := AccountHolders(b, w.accounts);
      HoldersVisible(b, w.accounts);
      OwnerRowKeeps(b, holders, w.ownerName, now);
      var (b1, row) := OwnerRow(b, holders, w.ownerName, now);
      FoldPhones(b1, holders, row);
      LinkAllPhones(FoldInto(b1, holders, row), row, w.accounts, now);
      assert EnsureOwner(b, w, now).ids[i].phone == Some(phone);
    }
  }

  function Of(w: World, network: Network): seq<Candidate> {
    if network == Telegram then w.telegram else w.whatsapp
  }

  lemma AfterCandidatesKeeps(u: Book, w: World, phones: seq<string>)
    requires Linked(u)
    ensures Keeps(u, RefreshNames(MergeByPhone(RefreshIdentities(u, w.contacts), phones).0, w).0)
  {
    hide MergeGroups, RefreshNames, RefreshIdentities;
    RefreshKeeps(u, w.contacts);
    var r := RefreshIdentities(u, w.contacts);
    MergeGroupsKeep(r, r, phones);
    var m := MergeByPhone(r, phones).0;
    NamesKeep(m, w);
    hide Keeps, Linked;
    KeepsTrans(u, r, m);
    KeepsTrans(u, m, RefreshNames(m, w).0);
  }

  /** After both loops: a candidate with a hidden person's number is the hidden person's. */
  lemma LoopsAttach(e: Book, w: World, now: Time, network: Network, k: nat)
    requires Linked(e) && Listing(w.telegram) && Listing(w.whatsapp) && k < |Of(w, network)|
    requires Nameable(Of(w, network)[k], w.usable) && IdKey(network, Of(w, network)[k].ext) !in e.ids
    requires HiddenByPhone(e, Of(w, network)[k].phone).Some?
    ensures var u := BothChannels(e, w, now).0; var key := IdKey(network, Of(w, network)[k].ext);
      Linked(u) && key in u.ids && u.ids[key].person == HiddenByPhone(e, Of(w, network)[k].phone).value &&
      u.ids[key].person in u.people && u.people[u.ids[key].person].archived
  {
    hide Candidates, Trim, Nameable, HiddenByPhone;
    var t := Candidates(e, e, Telegram, w.telegram, w, now).0;
    assert Keeps(e, e);
    CandidatesKeep(e, e, Telegram, w.telegram, w, now);
    CandidatesIds(e, e, Telegram, w.telegram, w, now);
    CandidatesKeep(t, e, WhatsApp, w.whatsapp, w, now);
    var u := Candidates(t, e, WhatsApp, w.whatsapp, w, now).0;
    assert u == BothChannels(e, w, now).0;
    hide Keeps, Linked, Listing;
    if network == Telegram {
      LoopAttaches(e, e, Telegram, w.telegram, w, now, k);
      KeepsHeld(t, u, IdKey(network, Of(w, network)[k].ext));
    } else {
      LoopAttaches(t, e, WhatsApp, w.whatsapp, w, now, k);
    }
  }

  /**
    * A named contact or direct chat that nobody holds, with a number a hidden person held before the pass: afterwards it
    * is the identity of the oldest hidden person with that number.
    */
  lemma AttachedToHidden(b: Book, w: World, now: Time, phones: seq<string>, network: Network, k: nat, x: string, p: PersonId)
    requires Linked(b) && Listing(w.telegram) && Listing(w.whatsapp) && k < |Of(w, network)|
    requires Nameable(Of(w, network)[k], w.usable) && IdKey(network, Of(w, network)[k].ext) !in EnsureOwner(b, w, now).ids
    requires Of(w, network)[k].phone == Some(x) && HidesPhone(b, x, p)
    ensures var end := PopulatePeople(b, w, now, phones).0; var key := IdKey(network, Of(w, network)[k].ext);
      key in end.ids && end.ids[key].person in end.people && end.people[end.ids[key].person].archived &&
      HidesPhone(EnsureOwner(b, w, now), x, end.ids[key].person) &&
      HiddenByPhone(EnsureOwner(b, w, now), Some(x)) == Some(end.ids[key].person)
  {
    var e := EnsureOwner(b, w, now);
    EnsureOwnerKeeps(b, w, now);
    StillHides(b, w, now, x, p);
    assert p in HiddenHolders(e, x);
    assert Linked(e);
    HiddenIsThere(e, e, Some(x)) by { assert Keeps(e, e); }
    hide EnsureOwner, BothChannels, MergeGroups, RefreshNames, RefreshIdentities, Nameable, Linked, Keeps, HidesPhone, Listing;
    LoopsAttach(e, w, now, network, k);
    var u := BothChannels(e, w, now).0;
    AfterCandidatesKeeps(u, w, phones);
    KeepsHeld(u, PopulatePeople(b, w, now, phones).0, IdKey(network, Of(w, network)[k].ext));
  }
}
