/** Populating is idempotent exactly when everyone its merging pass could fold into someone older was folded. */
module PopulateAgain {
  import opened Prelude
  import opened People
  import opened PhoneMerge
  import opened OnePass
  import opened Populate
  import opened Hidden

  ghost predicate OneOwner(b: Book) {
    forall p, q :: p in b.people && q in b.people && b.people[p].isOwner && b.people[q].isOwner ==> p == q
  }

  predicate Trimmed(key: IdKey) {
    Trim(key.ext) == key.ext && key.ext != ""
  }

  /** The owner's accounts are spoken for: by nobody visible but the owner, unless the owner is hidden. */
  ghost predicate OwnedUp(b: Book, o: PersonId, accounts: seq<IdKey>) {
    && OneOwner(b) && o in b.people && b.people[o].isOwner
    && (forall a :: a in accounts && a in b.ids && !b.people[o].archived ==> !Contact(b, b.ids[a].person))
    && (forall a :: a in accounts ==> Trim(a.ext) == "" || IdKey(a.network, Trim(a.ext)) in b.ids)
  }

  // ---- a second look at the owner's accounts ----

  lemma {:induction false} NoHolders(b: Book, o: PersonId, accounts: seq<IdKey>)
    requires OwnedUp(b, o, accounts) && !b.people[o].archived
    ensures AccountHolders(b, accounts) == []
  {
    if accounts != [] {
      var front := accounts[..|accounts| - 1];
      assert accounts[|accounts| - 1] in accounts && forall a :: a in front ==> a in accounts;
      hide Trim, Contact;
      NoHolders(b, o, front);
    }
  }

  lemma {:induction false} FoldIdle(b: Book, holders: seq<PersonId>, row: PersonId)
    requires holders == [] || !Present(b, row)
    ensures FoldInto(b, holders, row) == b
  {
    if holders != [] {
      FoldIdle(b, holders[..|holders| - 1], row);
    }
  }

  lemma {:induction false} LinksIdle(b: Book, row: PersonId, accounts: seq<IdKey>, now: Time)
    requires row in b.people && forall a :: a in accounts ==> Trim(a.ext) == "" || IdKey(a.network, Trim(a.ext)) in b.ids
    ensures LinkAll(b, row, accounts, now) == b
  {
    hide Trim, NormalizePhone, PhoneFromJid;
    if accounts != [] {
      var front := accounts[..|accounts| - 1];
      assert accounts[|accounts| - 1] in accounts && forall a :: a in front ==> a in accounts;
      LinksIdle(b, row, front, now);
    }
  }

  lemma OwnerIdle(b: Book, w: World, now: Time, o: PersonId)
    requires OwnedUp(b, o, w.accounts)
    ensures EnsureOwner(b, w, now) == b
  {
    hide Trim, FoldInto, LinkAll, AccountHolders;
    if w.accounts != [] {
      assert OwnerOf(b) == Some(o);
      if !b.people[o].archived {
        NoHolders(b, o, w.accounts);
      }
      FoldIdle(b, AccountHolders(b, w.accounts), o);
      LinksIdle(b, o, w.accounts, now);
    }
  }

  // ---- the first look leaves the accounts owned up ----

  lemma {:induction false} HoldersComplete(b: Book, accounts: seq<IdKey>)
    ensures forall a :: a in accounts && a in b.ids && Contact(b, b.ids[a].person) ==> b.ids[a].person in AccountHolders(b, accounts)
  {
    hide Contact;
    if accounts != [] {
      HoldersComplete(b, accounts[..|accounts| - 1]);
      assert forall a :: a in accounts ==> a in accounts[..|accounts| - 1] || a == accounts[|accounts| - 1];
    }
  }

  /** Folding everyone into the owner's row: their identities become the owner's, nobody else moves. */
  lemma {:induction false} FoldGathers(b: Book, holders: seq<PersonId>, row: PersonId)
    requires Linked(b) && Present(b, row) && b.people[row].isOwner
    requires forall p :: p in holders && p != row ==> Contact(b, p)
    ensures var b1 := FoldInto(b, holders, row);
      && Linked(b1) && b1.ids.Keys == b.ids.Keys
      && (forall i :: i in b.ids ==> b1.ids[i].person == if b.ids[i].person in holders then row else b.ids[i].person)
      && (forall p :: p in b1.people <==> p in b.people && (p in holders ==> p == row))
      && (forall p :: p in b1.people ==> SameStanding(b.people[p], b1.people[p]))
  {
    if holders != [] {
      var front, last := holders[..|holders| - 1], holders[|holders| - 1];
      assert last in holders && forall p :: p in holders <==> p in front || p == last;
      FoldGathers(b, front, row);
    }
  }

  lemma {:induction false} LinkAllOwns(b: Book, row: PersonId, accounts: seq<IdKey>, now: Time)
    requires row in b.people
    ensures var b1 := LinkAll(b, row, accounts, now);
      && b1.people == b.people && b.ids.Keys <= b1.ids.Keys
      && (forall i :: i in b1.ids ==> if i in b.ids then b1.ids[i] == b.ids[i] else b1.ids[i].person == row)
      && (forall a :: a in accounts ==> Trim(a.ext) == "" || IdKey(a.network, Trim(a.ext)) in b1.ids)
  {
    hide Trim, NormalizePhone, PhoneFromJid;
    if accounts != [] {
      LinkAllOwns(b, row, accounts[..|accounts| - 1], now);
      assert forall a :: a in accounts ==> a in accounts[..|accounts| - 1] || a == accounts[|accounts| - 1];
    }
  }

  /** The row chosen or made for the owner: afterwards there is exactly one. */
  lemma OwnerRowOne(b: Book, holders: seq<PersonId>, name: string, now: Time)
    requires Linked(b) && OneOwner(b) && forall p :: p in holders ==> Contact(b, p)
    ensures var (b1, row) := OwnerRow(b, holders, name, now);
      && Linked(b1) && OneOwner(b1) && b1.ids == b.ids && row in b1.people && b1.people[row].isOwner
      && (forall p :: p in holders && p != row ==> Contact(b1, p))
      && (forall p :: Contact(b1, p) ==> Contact(b, p))
  {
    hide ClampName;
    if OwnerOf(b).None? {
      assert forall p :: p in b.people ==> !b.people[p].isOwner;
    }
  }

  lemma EnsureOwnerOwns(b: Book, w: World, now: Time) returns (o: PersonId)
    requires Linked(b) && OneOwner(b) && w.accounts != []
    ensures OwnedUp(EnsureOwner(b, w, now), o, w.accounts)
  {
    hide Trim, LinkAll, FoldInto, AccountHolders;
    var holders := AccountHolders(b, w.accounts);
    HoldersVisible(b, w.accounts);
    HoldersComplete(b, w.accounts);
    OwnerRowOne(b, holders, w.ownerName, now);
    hide OwnerRow;
    var (b1, row) := OwnerRow(b, holders, w.ownerName, now);
    o := row;
    if Present(b1, row) {
      FoldGathers(b1, holders, row);
    } else {
      FoldIdle(b1, holders, row);
    }
    var b2 := FoldInto(b1, holders, row);
    LinkAllOwns(b2, row, w.accounts, now);
    hide Linked;
    OwnedAfterLinks(b2, LinkAll(b2, row, w.accounts, now), row, w.accounts);
  }

  lemma OwnedAfterLinks(b: Book, b1: Book, row: PersonId, accounts: seq<IdKey>)
    requires OneOwner(b) && row in b.people && b.people[row].isOwner && b1.people == b.people && b.ids.Keys <= b1.ids.Keys
    requires forall i :: i in b1.ids ==> if i in b.ids then b1.ids[i] == b.ids[i] else b1.ids[i].person == row
    requires forall a :: a in accounts ==> Trim(a.ext) == "" || IdKey(a.network, Trim(a.ext)) in b1.ids
    requires forall a :: a in accounts && a in b.ids && !b.people[row].archived ==> !Contact(b, b.ids[a].person)
    ensures OwnedUp(b1, row, accounts)
  {
    hide Trim;
  }

  // ---- the rest of the pass leaves them so ----

  /** What every step after the owner's row keeps. */
  ghost predicate Steady(b: Book, b1: Book) {
    && (forall i :: i in b.ids ==> i in b1.ids && (!Contact(b, b.ids[i].person) ==> b1.ids[i].person == b.ids[i].person))
    && (forall i :: i in b1.ids && i !in b.ids ==> Trimmed(i))
    && (forall p :: p in b.people && !Contact(b, p) ==> p in b1.people && SameStanding(b.people[p], b1.people[p]))
    && (forall p :: p in b1.people && b1.people[p].isOwner ==> p in b.people && b.people[p].isOwner)
  }

  lemma SteadyTrans(b: Book, b1: Book, b2: Book)
    requires Linked(b) && Steady(b, b1) && Steady(b1, b2)
    ensures Steady(b, b2)
  {
    hide Trimmed;
  }

  lemma SteadyOwns(b: Book, b1: Book, o: PersonId, accounts: seq<IdKey>)
    requires Linked(b) && OwnedUp(b, o, accounts) && Steady(b, b1)
    ensures OwnedUp(b1, o, accounts)
  {
    hide Trim;
  }

  lemma MergeSteady(b: Book, from: PersonId, into: PersonId)
    requires Linked(b)
    ensures Steady(b, MergePeople(b, from, into).0)
  {
    hide Trimmed;
  }

  lemma {:induction false} MergeIntoSteady(b: Book, rest: seq<PersonId>, survivor: PersonId)
    requires Linked(b)
    ensures Steady(b, MergeInto(b, rest, survivor).0)
  {
    hide MergePeople, Trimmed, Linked;
    if rest != [] {
      var mid := MergeInto(b, rest[..|rest| - 1], survivor).0;
      MergeIntoSteady(b, rest[..|rest| - 1], survivor);
      MergeIntoCounts(b, rest[..|rest| - 1], survivor);
      MergeSteady(mid, rest[|rest| - 1], survivor);
      hide Steady;
      SteadyTrans(b, mid, MergeInto(b, rest, survivor).0);
    }
  }

  lemma {:induction false} MergeGroupsSteady(b: Book, snapshot: Book, phones: seq<string>)
    requires Linked(b)
    ensures Steady(b, MergeGroups(b, snapshot, phones).0)
  {
    hide MergeInto, Bridges, Holders, Trimmed, Linked;
    if phones != [] {
      var front, x := phones[..|phones| - 1], phones[|phones| - 1];
      var mid := MergeGroups(b, snapshot, front).0;
      MergeGroupsSteady(b, snapshot, front);
      MergeGroupsCount(b, snapshot, front);
      if Bridges(snapshot, x) {
        var s := SurvivorOf(snapshot, x);
        MergeIntoSteady(mid, Ranked(snapshot, Holders(snapshot, x) - {s}), s);
        SteadyTrans(b, mid, MergeGroups(b, snapshot, phones).0);
      }
    }
  }

  lemma LinkSteady(b: Book, p: PersonId, key: IdKey, name: Option<string>, phone: Option<string>, now: Time)
    requires Trimmed(key)
    ensures Steady(b, LinkIdentity(b, p, key, name, phone, now).0)
  {
    hide Trim, NormalizePhone, PhoneFromJid;
  }

  lemma OneCandidateSteady(b: Book, listed: Book, before: Book, network: Network, c: Candidate, w: World, now: Time)
    requires Linked(b) && Trim(c.ext) == c.ext && c.ext != ""
    ensures Steady(b, OneCandidate(b, listed, before, network, c, w, now).0)
  {
    hide LinkIdentity, Trim, ClampName, HiddenByPhone;
    var key := IdKey(network, c.ext);
    match HiddenByPhone(before, c.phone)
    case Some(h) => LinkSteady(b, h, key, c.displayName, c.phone, now);
    case None =>
      if key !in listed.ids && Nameable(c, w.usable) {
        var (b1, p) := CreatePerson(b, Trim(ClampName(c.displayName.value)), FromChannel, false, now);
        LinkSteady(b1, p, key, c.displayName, c.phone, now);
        LinkFails(b1, p, key, c.displayName, c.phone, now);
        hide Trimmed;
      }
  }

  lemma {:induction false} CandidatesSteady(b: Book, before: Book, network: Network, cs: seq<Candidate>, w: World, now: Time)
    requires Linked(b) && forall c :: c in cs ==> Trim(c.ext) == c.ext && c.ext != ""
    ensures Steady(b, Candidates(b, before, network, cs, w, now).0)
  {
    hide OneCandidate, Trim, Linked;
    if cs != [] {
      var front := cs[..|cs| - 1];
      assert cs[|cs| - 1] in cs && forall c :: c in front ==> c in cs;
      var mid := Candidates(b, before, network, front, w, now).0;
      CandidatesSteady(b, before, network, front, w, now);
      CandidatesKeep(b, before, network, front, w, now);
      KeepsLinked(b, mid);
      OneCandidateSteady(mid, b, before, network, cs[|cs| - 1], w, now);
      hide Steady;
      SteadyTrans(b, mid, Candidates(b, before, network, cs, w, now).0);
    }
  }

  lemma RefreshSteady(b: Book, w: World)
    ensures Steady(b, RefreshIdentities(b, w.contacts))
    ensures Steady(b, RefreshNames(b, w).0)
  {
    hide Trim, ChannelName;
  }

  /** From the owner's row to the end of the pass. */
  lemma RestSteady(e: Book, w: World, now: Time, phones: seq<string>)
    requires Linked(e) && Listing(w.telegram) && Listing(w.whatsapp)
    ensures var u := BothChannels(e, w, now).0; var r := RefreshIdentities(u, w.contacts); var m := MergeByPhone(r, phones).0;
      Linked(u) && Linked(r) && Linked(m) && Steady(e, u) && Steady(u, r) && Steady(r, m) && Steady(m, RefreshNames(m, w).0)
  {
    hide Candidates, MergeGroups, RefreshNames, RefreshIdentities, Trim, Steady, Trimmed;
    var t := Candidates(e, e, Telegram, w.telegram, w, now).0;
    CandidatesSteady(e, e, Telegram, w.telegram, w, now);
    CandidatesKeep(e, e, Telegram, w.telegram, w, now);
    CandidatesSteady(t, e, WhatsApp, w.whatsapp, w, now);
    CandidatesKeep(t, e, WhatsApp, w.whatsapp, w, now);
    var u := BothChannels(e, w, now).0;
    SteadyTrans(e, t, u);
    RefreshSteady(u, w);
    RefreshKeeps(u, w.contacts);
    var r := RefreshIdentities(u, w.contacts);
    MergeGroupsSteady(r, r, phones);
    MergeGroupsCount(r, r, phones);
    RefreshSteady(MergeByPhone(r, phones).0, w);
  }

  lemma StillOwned(e: Book, w: World, now: Time, phones: seq<string>, o: PersonId)
    requires Linked(e) && Listing(w.telegram) && Listing(w.whatsapp) && OwnedUp(e, o, w.accounts)
    ensures var m := MergeByPhone(RefreshIdentities(BothChannels(e, w, now).0, w.contacts), phones).0;
      OwnedUp(RefreshNames(m, w).0, o, w.accounts)
  {
    hide BothChannels, MergeByPhone, RefreshNames, RefreshIdentities, Steady, OwnedUp, Linked, Listing;
    RestSteady(e, w, now, phones);
    var u := BothChannels(e, w, now).0;
    var r := RefreshIdentities(u, w.contacts);
    var m := MergeByPhone(r, phones).0;
    SteadyOwns(e, u, o, w.accounts);
    SteadyOwns(u, r, o, w.accounts);
    SteadyOwns(r, m, o, w.accounts);
    SteadyOwns(m, RefreshNames(m, w).0, o, w.accounts);
  }

  // ---- a second look at the candidates, the contact rows and the names ----

  ghost predicate AllListed(b: Book, network: Network, cs: seq<Candidate>, w: World) {
    forall c :: c in cs && Nameable(c, w.usable) ==> IdKey(network, c.ext) in b.ids
  }

  lemma {:induction false} CandidatesIdle(b: Book, before: Book, network: Network, cs: seq<Candidate>, w: World, now: Time)
    requires AllListed(b, network, cs, w)
    ensures Candidates(b, before, network, cs, w, now) == (b, 0)
  {
    hide Nameable;
    if cs != [] {
      assert cs[|cs| - 1] in cs && forall c :: c in cs[..|cs| - 1] ==> c in cs;
      CandidatesIdle(b, before, network, cs[..|cs| - 1], w, now);
    }
  }

  ghost predicate Fresh(b: Book, contacts: map<IdKey, seq<Synced>>) {
    forall i :: i in b.ids && i in contacts && contacts[i] != [] ==> Refreshed(b.ids[i], contacts[i][0]) == b.ids[i]
  }

  lemma RefreshIdle(b: Book, contacts: map<IdKey, seq<Synced>>)
    requires Fresh(b, contacts)
    ensures RefreshIdentities(b, contacts) == b
  {
    hide Refreshed;
    assert RefreshIdentities(b, contacts).ids == b.ids;
  }

  lemma RefreshFresh(b: Book, contacts: map<IdKey, seq<Synced>>)
    ensures Fresh(RefreshIdentities(b, contacts), contacts)
  {
    hide Trim;
  }

  lemma FreshMoves(b: Book, b1: Book, contacts: map<IdKey, seq<Synced>>)
    requires Fresh(b, contacts) && b1.ids.Keys == b.ids.Keys
    requires forall i :: i in b.ids ==> b1.ids[i] == b.ids[i].(person := b1.ids[i].person)
    ensures Fresh(b1, contacts)
  {
    hide Trim;
  }

  lemma NamesIdle(b: Book, w: World)
    ensures var b1 := RefreshNames(b, w).0; RefreshNames(b1, w) == (b1, 0)
    ensures RefreshNames(b, w).0.ids == b.ids
  {
    hide ChannelName;
    var b1 := RefreshNames(b, w).0;
    assert forall p :: p in b1.people ==> !Renames(b1, w, p);
    assert Renamed(b1, w) == {};
    assert RefreshNames(b1, w).0.people == b1.people;
  }

  lemma NamesCloseNothing(b: Book, w: World)
    ensures Closed(RefreshNames(b, w).0) <==> Closed(b)
  {
    hide ChannelName, CrossChannel;
    var b1 := RefreshNames(b, w).0;
    forall x ensures Bridges(b1, x) <==> Bridges(b, x) {
      SameHolders(b, b1, x);
      hide Holders;
    }
    hide Bridges;
  }

  lemma SameHolders(b: Book, b1: Book, x: string)
    requires b1.ids == b.ids && b1.people.Keys == b.people.Keys
    requires forall p :: p in b.people ==> SameStanding(b.people[p], b1.people[p])
    ensures Holders(b1, x) == Holders(b, x) && (CrossChannel(b1, x) <==> CrossChannel(b, x))
  {
    assert HoldersOn(b1, Telegram, x) == HoldersOn(b, Telegram, x);
    assert HoldersOn(b1, WhatsApp, x) == HoldersOn(b, WhatsApp, x);
  }

  // ---- the two passes ----

  /** Nothing is left for the owner's row, the candidates or the contact rows to do. */
  ghost predicate Settled(b: Book, w: World) {
    && (w.accounts == [] || exists o :: OwnedUp(b, o, w.accounts))
    && AllListed(b, Telegram, w.telegram, w) && AllListed(b, WhatsApp, w.whatsapp, w)
    && Fresh(b, w.contacts)
  }

  lemma SettledIdle(b: Book, w: World, now: Time)
    requires Settled(b, w)
    ensures BeforeMerging(b, w, now) == b && EnsureOwner(b, w, now) == b && BothChannels(b, w, now) == (b, 0)
  {
    hide Candidates, AllListed, Fresh, OwnedUp, RefreshIdentities;
    if w.accounts != [] {
      var o :| OwnedUp(b, o, w.accounts);
      OwnerIdle(b, w, now, o);
    }
    hide EnsureOwner;
    assert EnsureOwner(b, w, now) == b by { if w.accounts == [] { NoAccounts(b, w, now); } }
    CandidatesIdle(b, b, Telegram, w.telegram, w, now);
    CandidatesIdle(b, b, WhatsApp, w.whatsapp, w, now);
    RefreshIdle(b, w.contacts);
  }

  lemma NoAccounts(b: Book, w: World, now: Time)
    requires w.accounts == []
    ensures EnsureOwner(b, w, now) == b
  {
  }

  lemma AllListedGrows(b: Book, b1: Book, network: Network, cs: seq<Candidate>, w: World)
    requires AllListed(b, network, cs, w) && b.ids.Keys <= b1.ids.Keys
    ensures AllListed(b1, network, cs, w)
  {
  }

  lemma LoopsList(e: Book, w: World, now: Time)
    requires Linked(e) && Listing(w.telegram) && Listing(w.whatsapp)
    ensures var u := BothChannels(e, w, now).0; Linked(u) && AllListed(u, Telegram, w.telegram, w) && AllListed(u, WhatsApp, w.whatsapp, w)
  {
    hide Candidates, Trim, Nameable;
    assert Keeps(e, e);
    var t := Candidates(e, e, Telegram, w.telegram, w, now).0;
    CandidatesIds(e, e, Telegram, w.telegram, w, now);
    CandidatesKeep(e, e, Telegram, w.telegram, w, now);
    CandidatesIds(t, e, WhatsApp, w.whatsapp, w, now);
    CandidatesKeep(t, e, WhatsApp, w.whatsapp, w, now);
  }

  lemma MergeFresh(r: Book, phones: seq<string>, contacts: map<IdKey, seq<Synced>>)
    requires Linked(r) && Fresh(r, contacts)
    ensures Fresh(MergeByPhone(r, phones).0, contacts)
  {
    hide MergeByPhone, Fresh, Derived, Linked;
    var m := MergeByPhone(r, phones).0;
    var rep := PassDerived(r, phones);
    MergeGroupsCount(r, r, phones);
    assert m.ids.Keys == r.ids.Keys by { PassKeys(r, phones); }
    forall i | i in r.ids ensures m.ids[i] == r.ids[i].(person := m.ids[i].person) {
      IdentityKept(r, m, rep, i);
    }
    FreshMoves(r, m, contacts);
  }

  lemma PassKeys(r: Book, phones: seq<string>)
    ensures MergeByPhone(r, phones).0.ids.Keys == r.ids.Keys
  {
    MergeGroupsCount(r, r, phones);
  }

  lemma PassSettles(b: Book, w: World, now: Time, phones: seq<string>)
    requires Linked(b) && OneOwner(b) && Listing(w.telegram) && Listing(w.whatsapp)
    ensures Settled(PopulatePeople(b, w, now, phones).0, w)
  {
    hide MergeByPhone, BothChannels, EnsureOwner, RefreshNames, RefreshIdentities, Listing, AllListed, Fresh, OwnedUp, OneOwner;
    var e := EnsureOwner(b, w, now);
    EnsureOwnerKeeps(b, w, now);
    KeepsLinked(b, e);
    hide Keeps, Linked;
    var u := BothChannels(e, w, now).0;
    var r := RefreshIdentities(u, w.contacts);
    var m := MergeByPhone(r, phones).0;
    var end := RefreshNames(m, w).0;
    if w.accounts != [] {
      var o := EnsureOwnerOwns(b, w, now);
      StillOwned(e, w, now, phones, o);
    }
    LoopsList(e, w, now);
    RefreshFresh(u, w.contacts);
    RefreshKeeps(u, w.contacts);
    assert Linked(r) by { KeepsLinked(u, r); }
    MergeFresh(r, phones, w.contacts);
    PassKeys(r, phones);
    NamesIdle(m, w);
    RefreshKeys(u, w.contacts);
    AllListedGrows(u, end, Telegram, w.telegram, w);
    AllListedGrows(u, end, WhatsApp, w.whatsapp, w);
    FreshSame(m, end, w.contacts);
  }

  lemma RefreshKeys(b: Book, contacts: map<IdKey, seq<Synced>>)
    ensures RefreshIdentities(b, contacts).ids.Keys == b.ids.Keys
  {
  }

  lemma FreshSame(b: Book, b1: Book, contacts: map<IdKey, seq<Synced>>)
    requires Fresh(b, contacts) && b1.ids == b.ids
    ensures Fresh(b1, contacts)
  {
    hide Refreshed;
  }

  /** Whether the pass leaves the book closed can be read off the book its merging starts from. */
  lemma PopulateCloses(b: Book, w: World, now: Time, phones: seq<string>)
    requires Linked(b)
    ensures Closed(PopulatePeople(b, w, now, phones).0) <==> OneRound(BeforeMerging(b, w, now), phones)
  {
    hide MergeByPhone, BeforeMerging, RefreshNames, OneRound, Closed;
    var r := BeforeMerging(b, w, now);
    BeforeMergingKeeps(b, w, now);
    KeepsLinked(b, r);
    hide Keeps, Linked;
    PassClosesIff(r, phones);
    NamesCloseNothing(MergeByPhone(r, phones).0, w);
  }

  /**
    * Over an unchanged archive the second pass creates nobody. It changes nothing at all if and only if the first one
    * merged away everyone with an older person to be merged into.
    */
  lemma PopulateTwice(b: Book, w: World, now: Time, phones: seq<string>, later: Time, again: seq<string>)
    requires Linked(b) && OneOwner(b) && Listing(w.telegram) && Listing(w.whatsapp)
    requires Lists(PopulatePeople(b, w, now, phones).0, again)
    ensures var end := PopulatePeople(b, w, now, phones).0; var (end2, counts) := PopulatePeople(end, w, later, again);
      && counts.created == 0
      && (OneRound(BeforeMerging(b, w, now), phones) <==> counts == Counts(0, 0, 0))
      && (OneRound(BeforeMerging(b, w, now), phones) <==> end2 == end)
  {
    hide MergeByPhone, BothChannels, EnsureOwner, RefreshNames, BeforeMerging, Closed, Settled, Listing, Linked, OneOwner, Lists, OneRound;
    PassSettles(b, w, now, phones);
    PopulateCloses(b, w, now, phones);
    var m := MergeByPhone(BeforeMerging(b, w, now), phones).0;
    var end := PopulatePeople(b, w, now, phones).0;
    NamesIdle(m, w);
    SettledIdle(end, w, later);
    PassShrinksUnlessClosed(end, again);
    NamesKeepPeople(MergeByPhone(end, again).0, w);
  }

  /** Whatever the order of the numbers in the two syncs, the second one changes nothing. */
  ghost predicate SettlesAtOnce(b: Book, w: World, now: Time, later: Time) {
    forall phones, again :: Lists(BeforeMerging(b, w, now), phones) && Lists(PopulatePeople(b, w, now, phones).0, again) ==>
      PopulatePeople(PopulatePeople(b, w, now, phones).0, w, later, again) == (PopulatePeople(b, w, now, phones).0, Counts(0, 0, 0))
  }

  /**
    * The second sync changes nothing, in whatever order the queries return the numbers, if and only if everyone who is
    * not the oldest of the component shares a bridged number with the one who is when the merging starts.
    */
  lemma PopulateTwiceInEveryOrder(b: Book, w: World, now: Time, later: Time)
    requires Linked(b) && OneOwner(b) && Listing(w.telegram) && Listing(w.whatsapp)
    ensures SettlesAtOnce(b, w, now, later) <==> StarShaped(BeforeMerging(b, w, now))
  {
    hide PopulatePeople, MergeByPhone, BeforeMerging, Closed, OneRound, StarShaped, Lists, OneOwner, Listing;
    var r := BeforeMerging(b, w, now);
    BeforeMergingKeeps(b, w, now);
    KeepsLinked(b, r);
    hide Keeps, Linked;
    EveryOrderClosesIff(r);
    if StarShaped(r) {
      forall phones, again | Lists(r, phones) && Lists(PopulatePeople(b, w, now, phones).0, again)
        ensures PopulatePeople(PopulatePeople(b, w, now, phones).0, w, later, again) == (PopulatePeople(b, w, now, phones).0, Counts(0, 0, 0))
      {
        PassClosesIff(r, phones);
        PopulateTwice(b, w, now, phones, later, again);
      }
    } else {
      var phones :| Lists(r, phones) && !Closed(MergeByPhone(r, phones).0);
      var first, rest := EldestFirst(PopulatePeople(b, w, now, phones).0);
      PassClosesIff(r, phones);
      PopulateTwice(b, w, now, phones, later, first + rest);
    }
  }

  // ---- a second sync that is not idle ----

  /** No live account, no contact row, nothing to list: the sync only merges and renames. */
  function NothingNew(): World {
    World([], "", [], [], map[], (_: string) => true)
  }

  lemma NothingNewIsIdle(now: Time)
    ensures var w := NothingNew(); OneOwner(Row()) && Listing(w.telegram) && Listing(w.whatsapp) && BeforeMerging(Row(), w, now) == Row()
  {
    hide BeforeMerging, EnsureOwner, BothChannels;
    SettledIdle(Row(), NothingNew(), now);
  }

  /** The three people in a row: the second sync over an unchanged archive still merges. */
  lemma SecondSyncMerges(now: Time, later: Time) returns (again: seq<string>)
    ensures var (end, _) := PopulatePeople(Row(), NothingNew(), now, ["+1", "+2"]);
      && Linked(Row()) && Keyed(Row()) && OneOwner(Row())
      && Lists(BeforeMerging(Row(), NothingNew(), now), ["+1", "+2"]) && Lists(end, again)
      && PopulatePeople(end, NothingNew(), later, again).1 != Counts(0, 0, 0)
  {
    var phones := ["+1", "+2"];
    RowKeyed();
    RowIsListed();
    LeftOpen();
    NothingNewIsIdle(now);
    hide PopulatePeople, MergeByPhone, BeforeMerging, OneRound, Closed, Lists, Linked, OneOwner, Keyed, Listing, Row, NothingNew, EldestOfAll, Bridges;
    PassClosesIff(Row(), phones);
    var first, rest := EldestFirst(PopulatePeople(Row(), NothingNew(), now, phones).0);
    again := first + rest;
    PopulateTwice(Row(), NothingNew(), now, phones, later, again);
  }

  lemma NamesKeepPeople(b: Book, w: World)
    ensures RefreshNames(b, w).0.people.Keys == b.people.Keys
    ensures |RefreshNames(b, w).0.people| == |b.people|
  {
    hide ChannelName;
    var b1 := RefreshNames(b, w).0;
    assert |b1.people| == |b1.people.Keys| && |b.people| == |b.people.Keys|;
  }

  /** Where nobody holds two numbers when the merging starts, the second pass finds nothing to do. */
  lemma OneNumberPopulatesOnce(b: Book, w: World, now: Time, phones: seq<string>)
    requires Linked(b) && OneNumberEach(BeforeMerging(b, w, now)) && Lists(BeforeMerging(b, w, now), phones)
    ensures OneRound(BeforeMerging(b, w, now), phones) && Closed(PopulatePeople(b, w, now, phones).0)
  {
    hide MergeByPhone, BeforeMerging, OneNumberEach, Lists, Closed, OneRound;
    var r := BeforeMerging(b, w, now);
    BeforeMergingKeeps(b, w, now);
    KeepsLinked(b, r);
    PopulateCloses(b, w, now, phones);
    hide Keeps, Linked, PopulatePeople;
    OneNumberOnePass(r, phones);
    PassClosesIff(r, phones);
  }

  // ---- there is never a second owner's row ----

  ghost predicate OwnersFrom(b: Book, b1: Book) {
    forall p :: p in b1.people && b1.people[p].isOwner ==> p in b.people && b.people[p].isOwner
  }

  lemma OneCandidateOwners(b: Book, listed: Book, before: Book, network: Network, c: Candidate, w: World, now: Time)
    ensures OwnersFrom(b, OneCandidate(b, listed, before, network, c, w, now).0)
  {
    hide Trim, ClampName, NormalizePhone, PhoneFromJid, HiddenByPhone, Nameable;
  }

  lemma {:induction false} CandidatesOwners(b: Book, before: Book, network: Network, cs: seq<Candidate>, w: World, now: Time)
    ensures OwnersFrom(b, Candidates(b, before, network, cs, w, now).0)
  {
    hide OneCandidate;
    if cs != [] {
      var mid := Candidates(b, before, network, cs[..|cs| - 1], w, now).0;
      CandidatesOwners(b, before, network, cs[..|cs| - 1], w, now);
      OneCandidateOwners(mid, b, before, network, cs[|cs| - 1], w, now);
    }
  }

  lemma SteadyOwners(b: Book, b1: Book)
    requires Steady(b, b1)
    ensures OwnersFrom(b, b1)
  {
  }

  lemma OneOwnerKept(b: Book, b1: Book)
    requires OneOwner(b) && OwnersFrom(b, b1)
    ensures OneOwner(b1)
  {
  }

  lemma OneOwnerBefore(b: Book, w: World, now: Time)
    requires Linked(b) && OneOwner(b)
    ensures OneOwner(BeforeMerging(b, w, now))
  {
    hide EnsureOwner, Candidates, Trim, OneOwner, OwnedUp, Linked;
    var e := EnsureOwner(b, w, now);
    assert OneOwner(e) by {
      if w.accounts == [] {
        NoAccounts(b, w, now);
      } else {
        var o := EnsureOwnerOwns(b, w, now);
        OwnedIsOne(e, o, w.accounts);
      }
    }
    var t := Candidates(e, e, Telegram, w.telegram, w, now).0;
    CandidatesOwners(e, e, Telegram, w.telegram, w, now);
    CandidatesOwners(t, e, WhatsApp, w.whatsapp, w, now);
    OneOwnerKept(e, BeforeMerging(b, w, now));
  }

  lemma OwnedIsOne(b: Book, o: PersonId, accounts: seq<IdKey>)
    requires OwnedUp(b, o, accounts)
    ensures OneOwner(b)
  {
  }

  lemma OneOwnerStays(b: Book, w: World, now: Time, phones: seq<string>)
    requires Linked(b) && OneOwner(b)
    ensures OneOwner(PopulatePeople(b, w, now, phones).0)
  {
    hide MergeGroups, BeforeMerging, OneOwner, Steady, RefreshNames, OwnersFrom;
    var r := BeforeMerging(b, w, now);
    OneOwnerBefore(b, w, now);
    BeforeMergingKeeps(b, w, now);
    KeepsLinked(b, r);
    hide Keeps, Linked;
    var m := MergeByPhone(r, phones).0;
    MergeGroupsSteady(r, r, phones);
    RefreshSteady(m, w);
    SteadyOwners(r, m);
    OneOwnerKept(r, m);
    SteadyOwners(m, RefreshNames(m, w).0);
    OneOwnerKept(m, RefreshNames(m, w).0);
  }
}
