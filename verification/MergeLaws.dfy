/** Merging and choosing, told in columns: what one merge leaves, and that the earliest person is the one who stays. */
module MergeLaws {
  import opened Prelude
  import opened People
  import opened PhoneMerge
  import opened Populate
  import opened Hidden
  import opened PopulateAgain
  import SyncLaws

  /** Created before, or at the same instant with the smaller id. */
  predicate Earlier(b: Book, p: PersonId, q: PersonId)
    requires p in b.people && q in b.people
  {
    b.people[p].created < b.people[q].created || (b.people[p].created == b.people[q].created && p < q)
  }

  predicate Noted(p: Person) {
    p.notes != None && p.notes != Some("")
  }

  predicate Visible(b: Book, p: PersonId) {
    p in b.people && !b.people[p].archived
  }

  /**
    * A merge is refused for a person with itself, for anyone gone or hidden, and for the owner as the one that goes. Else
    * the one goes, its identities move, and the other keeps its standing, its own notes, and its name unless only the
    * name that goes was the owner's choice.
    */
  lemma MergeIsExact(b: Book, from: PersonId, into: PersonId)
    ensures var (end, ok) := MergePeople(b, from, into);
      && (ok <==> from != into && Visible(b, from) && Visible(b, into) && !b.people[from].isOwner)
      && (!ok ==> end == b)
      && (ok ==>
            var f, t, u := b.people[from], b.people[into], end.people[into];
            var named := t.nameSource == FromChannel && f.nameSource == FromOwner;
            && end.people.Keys == b.people.Keys - {from} && end.ids.Keys == b.ids.Keys && end.serial == b.serial
            && (forall p :: p in end.people && p != into ==> end.people[p] == b.people[p])
            && u.isOwner == t.isOwner && u.archived == t.archived && u.created == t.created
            && u.name == (if named then f.name else t.name)
            && (u.nameSource == FromOwner <==> t.nameSource == FromOwner || f.nameSource == FromOwner)
            && u.notes == (if Noted(t) || !Noted(f) then t.notes else f.notes)
            && (forall i :: i in b.ids ==>
                  end.ids[i] == b.ids[i].(person := if b.ids[i].person == from then into else b.ids[i].person)))
  {
  }

  /** After passes that end closed, a person is still there exactly if nobody it was connected to was earlier. */
  lemma SurvivorsAreEarliest(books: seq<Book>, orders: seq<seq<string>>, q: PersonId)
    requires PassRun(books, orders) && Linked(books[0]) && Closed(books[|books| - 1]) && q in books[0].people
    ensures q in books[|books| - 1].people <==>
      forall p :: p in books[0].people && Connected(books[0], q, p) && p != q ==> Earlier(books[0], q, p)
  {
    MergingReachesClosure(books, orders);
    ConnectedSelf(books[0], q);
    hide PassRun, Closed, Connected, Represents, Linked;
    assert IsOldest(books[0], Component(books[0], q), q) <==>
      forall p :: p in books[0].people && Connected(books[0], q, p) && p != q ==> Earlier(books[0], q, p);
  }

  /** Hidden, with an identity of that number. */
  ghost predicate HidesNumber(b: Book, x: string, h: PersonId) {
    h in b.people && b.people[h].archived && x != "" && exists i :: i in b.ids && b.ids[i].person == h && b.ids[i].phone == Some(x)
  }

  lemma HiddenIsEarliest(b: Book, x: string, h: PersonId)
    requires HiddenByPhone(b, Some(x)) == Some(h)
    ensures HidesNumber(b, x, h) && forall q :: HidesNumber(b, x, q) && q != h ==> Earlier(b, h, q)
  {
    assert forall q :: HidesNumber(b, x, q) <==> q in HiddenHolders(b, x);
    hide HidesNumber;
  }

  /** A new contact whose number someone hidden has becomes an identity of the earliest of them. */
  lemma AttachedToEarliest(b: Book, w: World, now: Time, phones: seq<string>, network: Network, k: nat, x: string, p: PersonId)
    requires Linked(b) && Listing(w.telegram) && Listing(w.whatsapp) && k < |Of(w, network)|
    requires SyncLaws.HasName(Of(w, network)[k], w) && IdKey(network, Of(w, network)[k].ext) !in EnsureOwner(b, w, now).ids
    requires Of(w, network)[k].phone == Some(x) && HidesNumber(b, x, p)
    ensures var e := EnsureOwner(b, w, now); var end := PopulatePeople(b, w, now, phones).0;
      var key := IdKey(network, Of(w, network)[k].ext);
      && key in end.ids && HidesNumber(e, x, end.ids[key].person)
      && forall q :: HidesNumber(e, x, q) && q != end.ids[key].person ==> Earlier(e, end.ids[key].person, q)
  {
    AttachedToHidden(b, w, now, phones, network, k, x, p);
    hide EnsureOwner, PopulatePeople, Linked, Listing, SyncLaws.HasName, HiddenByPhone, HidesNumber, Earlier, Trim;
    var key := IdKey(network, Of(w, network)[k].ext);
    HiddenIsEarliest(EnsureOwner(b, w, now), x, PopulatePeople(b, w, now, phones).0.ids[key].person);
  }

  // ---- whose row becomes the owner's ----

  /** Visible, not the owner, with an identity among the owner's accounts. */
  ghost predicate HoldsAccount(b: Book, accounts: seq<IdKey>, p: PersonId) {
    Visible(b, p) && !b.people[p].isOwner && exists a :: a in accounts && a in b.ids && b.ids[a].person == p
  }

  lemma HoldersAre(b: Book, accounts: seq<IdKey>, p: PersonId)
    ensures p in AccountHolders(b, accounts) <==> HoldsAccount(b, accounts, p)
  {
    HoldersComplete(b, accounts);
    HoldersVisible(b, accounts);
    HoldersHold(b, accounts, p);
    hide AccountHolders;
  }

  lemma {:induction false} HoldersHold(b: Book, accounts: seq<IdKey>, p: PersonId)
    ensures p in AccountHolders(b, accounts) ==> exists a :: a in accounts && a in b.ids && b.ids[a].person == p
  {
    hide Contact;
    if accounts != [] {
      HoldersHold(b, accounts[..|accounts| - 1], p);
      assert forall a :: a in accounts ==> a in accounts[..|accounts| - 1] || a == accounts[|accounts| - 1];
      assert forall a :: a in accounts[..|accounts| - 1] ==> a in accounts;
    }
  }

  lemma RowChosen(b: Book, holders: seq<PersonId>, name: string, now: Time)
    requires (forall p :: p in b.people ==> !b.people[p].isOwner) && forall p :: p in holders ==> p in b.people
    ensures var (b1, row) := OwnerRow(b, holders, name, now);
      if holders != [] then
        row in holders && b1 == b.(people := b.people[row := b.people[row].(isOwner := true)]) &&
        forall q :: q in holders && q != row ==> Earlier(b, row, q)
      else
        row == b.serial && row in b1.people && b1.people[row] == Person(ClampName(name), FromChannel, None, true, false, now)
  {
    hide ClampName;
    assert OwnerOf(b).None?;
    if holders != [] {
      assert holders[0] in Known(b, holders) && forall q :: q in holders ==> q in Known(b, holders);
    }
  }

  /** The others fold into the row, which stays. */
  lemma HoldersFold(b1: Book, holders: seq<PersonId>, row: PersonId, accounts: seq<IdKey>, now: Time)
    requires Linked(b1) && Present(b1, row) && b1.people[row].isOwner && forall p :: p in holders && p != row ==> Contact(b1, p)
    ensures var end := LinkAll(FoldInto(b1, holders, row), row, accounts, now);
      row in end.people && end.people[row].isOwner && forall q :: q in holders && q != row ==> q !in end.people
  {
    FoldGathers(b1, holders, row);
    LinkAllOwns(FoldInto(b1, holders, row), row, accounts, now);
    hide Linked, FoldInto, LinkAll;
  }

  /**
    * Where nobody is the owner yet, the earliest holder of an own account becomes the owner and takes the others in; where
    * nobody holds one, a new person does, under the name the account gives.
    */
  lemma OwnerIsEarliestHolder(b: Book, w: World, now: Time)
    requires Linked(b) && w.accounts != [] && forall p :: p in b.people ==> !b.people[p].isOwner
    ensures var end := EnsureOwner(b, w, now);
      if exists p :: HoldsAccount(b, w.accounts, p) then exists o :: Becomes(b, end, w.accounts, o)
      else b.serial in end.people && end.people[b.serial] == Person(ClampName(w.ownerName), FromChannel, None, true, false, now)
  {
    var holders := AccountHolders(b, w.accounts);
    forall p ensures p in holders <==> HoldsAccount(b, w.accounts, p) {
      HoldersAre(b, w.accounts, p);
    }
    HoldersVisible(b, w.accounts);
    hide AccountHolders, FoldInto, LinkAll, ClampName, OwnerRow, Linked, HoldsAccount, Earlier;
    RowChosen(b, holders, w.ownerName, now);
    OwnerRowOne(b, holders, w.ownerName, now);
    var (b1, row) := OwnerRow(b, holders, w.ownerName, now);
    if holders != [] {
      HoldersFold(b1, holders, row, w.accounts, now);
      assert HoldsAccount(b, w.accounts, holders[0]) by { assert holders[0] in holders; }
      assert Becomes(b, EnsureOwner(b, w, now), w.accounts, row);
    } else {
      NobodyFolds(b1, row, w.accounts, now);
    }
  }

  lemma NobodyFolds(b1: Book, row: PersonId, accounts: seq<IdKey>, now: Time)
    requires row in b1.people
    ensures LinkAll(FoldInto(b1, [], row), row, accounts, now).people == b1.people
  {
    LinkAllOwns(b1, row, accounts, now);
  }

  /** The earliest holder is the owner, and the other holders are gone. */
  ghost predicate Becomes(b: Book, end: Book, accounts: seq<IdKey>, o: PersonId) {
    HoldsAccount(b, accounts, o) && o in b.people && o in end.people && end.people[o].isOwner &&
    forall q :: HoldsAccount(b, accounts, q) && q in b.people && q != o ==> Earlier(b, o, q) && q !in end.people
  }
}
