/** Phone merging reaches its closure: the connected components of "share a cross-channel phone". */
module PhoneMerge {
  import opened Prelude
  import opened People

  ghost function SurvivorOf(snapshot: Book, phone: string): (p: PersonId)
    requires Bridges(snapshot, phone)
    ensures p in Holders(snapshot, phone) && p in snapshot.people
  {
    Oldest(snapshot, Holders(snapshot, phone))
  }

  // ---- a pass that merges nothing, and a pass that merges something ----

  lemma MergeCounts(b: Book, from: PersonId, into: PersonId)
    ensures var (b1, ok) := MergePeople(b, from, into);
      |b1.people| + (if ok then 1 else 0) == |b.people| && (!ok ==> b1 == b)
    ensures Linked(b) ==> Linked(MergePeople(b, from, into).0)
    ensures MergePeople(b, from, into).0.ids.Keys == b.ids.Keys && MergePeople(b, from, into).0.serial == b.serial
  {
    var (b1, ok) := MergePeople(b, from, into);
    if ok {
      assert b1.people.Keys == b.people.Keys - {from};
      assert |b.people.Keys| == |b1.people.Keys| + 1;
    }
  }

  lemma {:induction false} MergeIntoCounts(b: Book, rest: seq<PersonId>, survivor: PersonId)
    ensures var (b1, n) := MergeInto(b, rest, survivor); |b1.people| + n == |b.people| && (n == 0 ==> b1 == b)
    ensures Linked(b) ==> Linked(MergeInto(b, rest, survivor).0)
    ensures MergeInto(b, rest, survivor).0.ids.Keys == b.ids.Keys && MergeInto(b, rest, survivor).0.serial == b.serial
  {
    hide MergePeople, Linked;
    if rest != [] {
      var front := rest[..|rest| - 1];
      MergeIntoCounts(b, front, survivor);
      MergeCounts(MergeInto(b, front, survivor).0, rest[|rest| - 1], survivor);
    }
  }

  lemma {:induction false} MergeGroupsCount(b: Book, snapshot: Book, phones: seq<string>)
    ensures var (b1, n) := MergeGroups(b, snapshot, phones); |b1.people| + n == |b.people| && (n == 0 ==> b1 == b)
    ensures Linked(b) ==> Linked(MergeGroups(b, snapshot, phones).0)
    ensures var b1 := MergeGroups(b, snapshot, phones).0; b1.ids.Keys == b.ids.Keys && b1.serial == b.serial
  {
    hide MergeInto, Linked, Bridges, Holders, Ranked;
    if phones != [] {
      var front, x := phones[..|phones| - 1], phones[|phones| - 1];
      MergeGroupsCount(b, snapshot, front);
      if Bridges(snapshot, x) {
        var group := Holders(snapshot, x);
        var survivor := SurvivorOf(snapshot, x);
        MergeIntoCounts(MergeGroups(b, snapshot, front).0, Ranked(snapshot, group - {survivor}), survivor);
      }
    }
  }

  lemma {:induction false} FirstMerges(b: Book, rest: seq<PersonId>, survivor: PersonId)
    requires rest != [] && rest[0] != survivor && Contact(b, rest[0]) && Contact(b, survivor)
    ensures MergeInto(b, rest, survivor).1 >= 1
  {
    if |rest| == 1 {
      assert rest[..0] == [];
    } else {
      FirstMerges(b, rest[..|rest| - 1], survivor);
    }
  }

  lemma BridgeMerges(b: Book, phone: string)
    requires Bridges(b, phone)
    ensures MergeGroup(b, b, phone).1 >= 1
  {
    var group := Holders(b, phone);
    var survivor := SurvivorOf(b, phone);
    HoldersAreContacts(b, phone);
    assert |group - {survivor}| == |group| - 1;
    var rest := Ranked(b, group - {survivor});
    hide Holders;
    var other :| other in group - {survivor};
    assert other in rest;
    assert rest[0] in group - {survivor};
    FirstMerges(b, rest, survivor);
  }

  lemma HoldersAreContacts(b: Book, phone: string)
    ensures forall p :: p in Holders(b, phone) ==> Contact(b, p)
  {
  }

  lemma {:induction false} IdlePass(b: Book, phones: seq<string>)
    ensures MergeGroups(b, b, phones).1 == 0 <==> forall x :: x in phones ==> !Bridges(b, x)
  {
    hide MergeGroup, Bridges;
    if phones == [] {
    } else {
      var front, x := phones[..|phones| - 1], phones[|phones| - 1];
      IdlePass(b, front);
      MergeGroupsCount(b, b, front);
      var (b1, n) := MergeGroups(b, b, front);
      var m := MergeGroup(b1, b, x).1;
      assert MergeGroups(b, b, phones).1 == n + m;
      assert x in phones && forall y :: y in phones ==> y in front || y == x;
      if Bridges(b, x) {
        if n == 0 {
          BridgeMerges(b, x);
        }
      } else {
        NoBridgeIdle(b1, b, x);
        if n != 0 {
          var y :| y in front && Bridges(b, y);
          assert y in phones;
        }
      }
    }
  }

  lemma NoBridgeIdle(b: Book, snapshot: Book, phone: string)
    requires !Bridges(snapshot, phone)
    ensures MergeGroup(b, snapshot, phone) == (b, 0)
  {
  }

  lemma NumbersAreHeld(b: Book, x: string)
    ensures x in Numbers(b) <==> HoldersOn(b, Telegram, x) != {} || HoldersOn(b, WhatsApp, x) != {}
  {
    hide Contact;
    if i :| i in b.ids && Selected(b, i) && b.ids[i].phone.value == x {
      assert HasPhone(b.ids[i], x);
      assert b.ids[i].person in HoldersOn(b, i.network, x);
    }
    forall n: Network, p | p in HoldersOn(b, n, x) ensures x in Numbers(b) {
      var i :| i in b.ids && i.network == n && HasPhone(b.ids[i], x) && Contact(b, b.ids[i].person) && b.ids[i].person == p;
      assert Selected(b, i);
    }
  }

  lemma BridgesAreNumbers(b: Book, x: string)
    requires Bridges(b, x)
    ensures x in Numbers(b)
  {
    NumbersAreHeld(b, x);
    hide HoldersOn, Numbers;
  }

  lemma ListsBridges(b: Book, phones: seq<string>)
    requires Lists(b, phones)
    ensures forall x :: Bridges(b, x) ==> x in phones
  {
    hide Bridges, Numbers;
    forall x | Bridges(b, x) ensures x in phones {
      BridgesAreNumbers(b, x);
    }
  }

  /** No cross-channel phone spans two people. */
  ghost predicate Closed(b: Book) {
    forall x :: !Bridges(b, x)
  }

  /** A pass returns 0 exactly on a closed book, which it leaves alone; every other pass shrinks the address book. */
  lemma PassShrinksUnlessClosed(b: Book, phones: seq<string>)
    requires Lists(b, phones)
    ensures var (b1, n) := MergeByPhone(b, phones);
      (n == 0 <==> Closed(b)) && (n == 0 ==> b1 == b) && |b1.people| == |b.people| - n
  {
    ListsBridges(b, phones);
    IdlePass(b, phones);
    MergeGroupsCount(b, b, phones);
    hide Bridges, MergeGroups;
  }

  // ---- who belongs together ----

  /** Two people sharing a number that both channels hold. */
  ghost predicate Edge(b: Book, p: PersonId, q: PersonId) {
    exists x :: CrossChannel(b, x) && p in Holders(b, x) && q in Holders(b, x)
  }

  ghost predicate IsPath(b: Book, path: seq<PersonId>) {
    path != [] && forall k :: 0 <= k < |path| - 1 ==> Edge(b, path[k], path[k + 1])
  }

  ghost predicate Joins(b: Book, path: seq<PersonId>, p: PersonId, q: PersonId) {
    IsPath(b, path) && path[0] == p && path[|path| - 1] == q
  }

  ghost predicate Connected(b: Book, p: PersonId, q: PersonId) {
    exists path :: Joins(b, path, p, q)
  }

  lemma ConnectedSelf(b: Book, p: PersonId)
    ensures Connected(b, p, p)
  {
    assert Joins(b, [p], p, p);
  }

  lemma ConnectedEdge(b: Book, p: PersonId, q: PersonId)
    requires Edge(b, p, q)
    ensures Connected(b, p, q)
  {
    assert Joins(b, [p, q], p, q);
  }

  lemma ConnectedTrans(b: Book, p: PersonId, q: PersonId, r: PersonId)
    requires Connected(b, p, q) && Connected(b, q, r)
    ensures Connected(b, p, r)
  {
    hide Edge;
    var s :| Joins(b, s, p, q);
    var t :| Joins(b, t, q, r);
    var u := s + t[1..];
    forall k | 0 <= k < |u| - 1 ensures Edge(b, u[k], u[k + 1]) {
      if k >= |s| - 1 {
        assert u[k] == t[k - (|s| - 1)] && u[k + 1] == t[k + 1 - (|s| - 1)];
      }
    }
    assert Joins(b, u, p, r);
  }

  lemma ConnectedBack(b: Book, p: PersonId, q: PersonId)
    requires Connected(b, p, q)
    ensures Connected(b, q, p)
  {
    var s :| Joins(b, s, p, q);
    var u := seq(|s|, k requires 0 <= k < |s| => s[|s| - 1 - k]);
    forall k | 0 <= k < |u| - 1 ensures Edge(b, u[k], u[k + 1]) {
      assert Edge(b, s[|s| - 2 - k], s[|s| - 1 - k]);
    }
    assert Joins(b, u, q, p);
  }

  // ---- what merging has made of the first book ----

  /** Each person of the first book, and who stands for them now; the survivors stand for themselves. */
  ghost predicate Folds(b0: Book, b: Book, rep: map<PersonId, PersonId>) {
    && rep.Keys == b0.people.Keys && b.people.Keys <= b0.people.Keys
    && (forall p :: p in rep ==> rep[p] in b.people)
    && (forall q :: q in b.people ==> rep[q] == q)
    && (forall q :: q in b.people ==> SameStanding(b0.people[q], b.people[q]))
    && (forall p :: p in rep && rep[p] != p ==> Contact(b0, p) && Contact(b0, rep[p]))
  }

  predicate SameStanding(p: Person, q: Person) {
    q.isOwner == p.isOwner && q.archived == p.archived && q.created == p.created
  }

  /** Every (channel, external id) is kept, and points to whoever stands for its first holder. */
  ghost predicate IdsFollow(b0: Book, b: Book, rep: map<PersonId, PersonId>)
    requires rep.Keys == b0.people.Keys
  {
    b.ids.Keys == b0.ids.Keys &&
    forall i :: i in b0.ids && b0.ids[i].person in rep ==> b.ids[i] == b0.ids[i].(person := rep[b0.ids[i].person])
  }

  /** Everyone is represented by themselves or by someone older they are connected to. */
  ghost predicate Bonded(b0: Book, rep: map<PersonId, PersonId>)
    requires rep.Keys == b0.people.Keys
  {
    forall p :: p in rep ==>
      rep[p] in b0.people && Connected(b0, p, rep[p]) && (rep[p] == p || Older(b0, rep[p], p))
  }

  /** A name is the owner's choice exactly when some member's was, and then it is one of those members' names. */
  ghost predicate NameFrom(b0: Book, b: Book, rep: map<PersonId, PersonId>, q: PersonId)
    requires q in b.people && q in b0.people && rep.Keys == b0.people.Keys
  {
    if b.people[q].nameSource == FromOwner then
      exists p :: p in rep && rep[p] == q && b0.people[p].nameSource == FromOwner && b0.people[p].name == b.people[q].name
    else
      b.people[q].name == b0.people[q].name &&
      forall p :: p in rep && rep[p] == q ==> b0.people[p].nameSource == FromChannel
  }

  ghost predicate NotesFrom(b0: Book, b: Book, rep: map<PersonId, PersonId>, q: PersonId)
    requires q in b.people && q in b0.people && rep.Keys == b0.people.Keys
  {
    && (HasNotes(b0.people[q]) ==> b.people[q].notes == b0.people[q].notes)
    && (if HasNotes(b.people[q]) then
          exists p :: p in rep && rep[p] == q && HasNotes(b0.people[p]) && b0.people[p].notes == b.people[q].notes
        else forall p :: p in rep && rep[p] == q ==> !HasNotes(b0.people[p]))
  }

  ghost predicate Derived(b0: Book, b: Book, rep: map<PersonId, PersonId>) {
    Folds(b0, b, rep) && IdsFollow(b0, b, rep) && Bonded(b0, rep) &&
    forall q :: q in b.people ==> NameFrom(b0, b, rep, q) && NotesFrom(b0, b, rep, q)
  }

  function Itself(b: Book): map<PersonId, PersonId> {
    map p | p in b.people :: p
  }

  function Redirect(rep: map<PersonId, PersonId>, from: PersonId, into: PersonId): map<PersonId, PersonId> {
    map p | p in rep :: if rep[p] == from then into else rep[p]
  }

  lemma DerivedSelf(b: Book)
    requires Linked(b)
    ensures Derived(b, b, Itself(b))
  {
    hide Connected, Edge;
    forall p | p in b.people ensures Connected(b, p, p) {
      ConnectedSelf(b, p);
    }
  }

  lemma Merged(b: Book, from: PersonId, into: PersonId)
    requires from != into && Contact(b, from) && Contact(b, into)
    ensures var b1 := MergePeople(b, from, into).0;
      && b1.people == (b.people - {from})[into := Absorb(b.people[into], b.people[from])]
      && b1.ids == Repoint(b.ids, from, into)
      && SameStanding(b.people[into], b1.people[into])
  {
  }

  /** Who is left after one merge, and who stands for whom. */
  lemma MergeStandsFor(b0: Book, b: Book, rep: map<PersonId, PersonId>, from: PersonId, into: PersonId)
    requires Folds(b0, b, rep) && from != into && Contact(b, from) && Contact(b, into)
    ensures var b1 := MergePeople(b, from, into).0; var rep1 := Redirect(rep, from, into);
      && rep1.Keys == b0.people.Keys && b1.people.Keys == b.people.Keys - {from}
      && (forall p :: p in rep1 ==> rep1[p] in b1.people)
      && (forall q :: q in b1.people ==> rep1[q] == q)
  {
    Merged(b, from, into);
    hide MergePeople, Repoint, Absorb, Contact, SameStanding;
  }

  lemma MergeStanding(b0: Book, b: Book, rep: map<PersonId, PersonId>, from: PersonId, into: PersonId)
    requires Folds(b0, b, rep) && from != into && Contact(b, from) && Contact(b, into)
    ensures var b1 := MergePeople(b, from, into).0; forall q :: q in b1.people ==> q in b0.people && SameStanding(b0.people[q], b1.people[q])
  {
    Merged(b, from, into);
    hide MergePeople, Repoint, Absorb, Contact;
  }

  lemma MergeMoved(b0: Book, b: Book, rep: map<PersonId, PersonId>, from: PersonId, into: PersonId)
    requires Folds(b0, b, rep) && from != into && Contact(b, from) && Contact(b, into)
    ensures var rep1 := Redirect(rep, from, into); forall p :: p in rep1 && rep1[p] != p ==> Contact(b0, p) && Contact(b0, rep1[p])
  {
    assert Contact(b0, from) && Contact(b0, into);
    hide Contact, SameStanding;
    forall p | p in rep && Redirect(rep, from, into)[p] != p ensures Contact(b0, p) && Contact(b0, Redirect(rep, from, into)[p]) {
      assert rep[p] != p || p == from;
    }
  }

  lemma MergeFolds(b0: Book, b: Book, rep: map<PersonId, PersonId>, from: PersonId, into: PersonId)
    requires Folds(b0, b, rep) && from != into && Contact(b, from) && Contact(b, into)
    ensures Folds(b0, MergePeople(b, from, into).0, Redirect(rep, from, into))
  {
    hide MergePeople, Redirect, Contact, SameStanding;
    MergeStandsFor(b0, b, rep, from, into);
    MergeStanding(b0, b, rep, from, into);
    MergeMoved(b0, b, rep, from, into);
  }

  lemma MergeIds(b0: Book, b: Book, rep: map<PersonId, PersonId>, from: PersonId, into: PersonId)
    requires rep.Keys == b0.people.Keys && IdsFollow(b0, b, rep) && Linked(b0)
    requires from != into && Contact(b, from) && Contact(b, into)
    ensures IdsFollow(b0, MergePeople(b, from, into).0, Redirect(rep, from, into))
  {
    Merged(b, from, into);
    hide MergePeople;
  }

  lemma MergeBonds(b0: Book, rep: map<PersonId, PersonId>, from: PersonId, into: PersonId)
    requires rep.Keys == b0.people.Keys && Bonded(b0, rep) && from in b0.people && into in b0.people
    requires Connected(b0, from, into) && Older(b0, into, from)
    ensures Bonded(b0, Redirect(rep, from, into))
  {
    hide Connected;
    forall p | p in rep && rep[p] == from ensures Connected(b0, p, into) {
      ConnectedTrans(b0, p, from, into);
    }
  }

  lemma MergeNames(b0: Book, b: Book, rep: map<PersonId, PersonId>, from: PersonId, into: PersonId, q: PersonId)
    requires Folds(b0, b, rep) && from != into && Contact(b, from) && Contact(b, into) && q in b.people && q != from
    requires NameFrom(b0, b, rep, q) && NameFrom(b0, b, rep, from) && NotesFrom(b0, b, rep, q) && NotesFrom(b0, b, rep, from)
    ensures var b1 := MergePeople(b, from, into).0; var rep1 := Redirect(rep, from, into);
      q in b1.people && NameFrom(b0, b1, rep1, q) && NotesFrom(b0, b1, rep1, q)
  {
    var b1 := MergePeople(b, from, into).0;
    var rep1 := Redirect(rep, from, into);
    if b1.people[q].nameSource == FromOwner {
      var was := if q == into && b.people[into].nameSource == FromChannel then from else q;
      var p :| p in rep && rep[p] == was && b0.people[p].nameSource == FromOwner && b0.people[p].name == b.people[was].name;
      assert rep1[p] == q;
    }
    if HasNotes(b1.people[q]) {
      var was := if q == into && !HasNotes(b.people[into]) then from else q;
      var p :| p in rep && rep[p] == was && HasNotes(b0.people[p]) && b0.people[p].notes == b.people[was].notes;
      assert rep1[p] == q;
    }
  }

  lemma MergeDerived(b0: Book, b: Book, rep: map<PersonId, PersonId>, from: PersonId, into: PersonId)
    requires Linked(b0) && Derived(b0, b, rep) && from != into && Contact(b, from) && Contact(b, into)
    requires from in b0.people && into in b0.people && Connected(b0, from, into) && Older(b0, into, from)
    ensures Derived(b0, MergePeople(b, from, into).0, Redirect(rep, from, into))
  {
    hide Connected, Edge, Folds, IdsFollow, Bonded, NameFrom, NotesFrom, Linked, MergePeople;
    assert rep.Keys == b0.people.Keys by { FoldsKeys(b0, b, rep); }
    MergeFolds(b0, b, rep, from, into);
    MergeIds(b0, b, rep, from, into);
    MergeBonds(b0, rep, from, into);
    var b1 := MergePeople(b, from, into).0;
    FoldsKeys(b0, b1, Redirect(rep, from, into));
    Merged(b, from, into);
    forall q | q in b1.people ensures NameFrom(b0, b1, Redirect(rep, from, into), q) && NotesFrom(b0, b1, Redirect(rep, from, into), q) {
      MergeNames(b0, b, rep, from, into, q);
    }
  }

  lemma FoldsKeys(b0: Book, b: Book, rep: map<PersonId, PersonId>)
    requires Folds(b0, b, rep)
    ensures rep.Keys == b0.people.Keys && b.people.Keys <= b0.people.Keys
  {
  }

  ghost predicate DerivedFrom(b0: Book, b: Book) {
    exists rep :: Derived(b0, b, rep)
  }

  lemma DerivedContact(b0: Book, b: Book, rep: map<PersonId, PersonId>, p: PersonId)
    requires Folds(b0, b, rep) && Contact(b0, p) && Present(b, p)
    ensures Contact(b, p)
  {
  }

  lemma MergeStep(b0: Book, b: Book, from: PersonId, into: PersonId)
    requires Linked(b0) && DerivedFrom(b0, b) && Contact(b0, from) && Contact(b0, into)
    requires Connected(b0, from, into) && Older(b0, into, from)
    ensures DerivedFrom(b0, MergePeople(b, from, into).0)
  {
    hide Connected, Edge, Older, NameFrom, NotesFrom, IdsFollow, Bonded;
    var rep :| Derived(b0, b, rep);
    if MergePeople(b, from, into).1 {
      DerivedContact(b0, b, rep, from);
      DerivedContact(b0, b, rep, into);
      hide Derived;
      MergeDerived(b0, b, rep, from, into);
      assert Derived(b0, MergePeople(b, from, into).0, Redirect(rep, from, into));
    }
  }

  lemma {:induction false} MergeIntoDerived(b0: Book, b: Book, rest: seq<PersonId>, survivor: PersonId)
    requires Linked(b0) && DerivedFrom(b0, b) && Contact(b0, survivor)
    requires forall p :: p in rest ==> Contact(b0, p) && Connected(b0, p, survivor) && Older(b0, survivor, p)
    ensures DerivedFrom(b0, MergeInto(b, rest, survivor).0)
  {
    hide Linked, DerivedFrom, Connected, MergePeople;
    if rest != [] {
      assert rest[|rest| - 1] in rest && forall p :: p in rest[..|rest| - 1] ==> p in rest;
      MergeIntoDerived(b0, b, rest[..|rest| - 1], survivor);
      MergeStep(b0, MergeInto(b, rest[..|rest| - 1], survivor).0, rest[|rest| - 1], survivor);
    }
  }

  // ---- numbers seen through the merges ----

  /** A number's holders are the representatives of its first holders. */
  lemma HoldersFollow(b0: Book, b: Book, rep: map<PersonId, PersonId>, network: Network, x: string)
    requires Linked(b0) && Folds(b0, b, rep) && IdsFollow(b0, b, rep)
    ensures forall p :: p in HoldersOn(b0, network, x) ==> p in rep && rep[p] in HoldersOn(b, network, x)
    ensures forall q :: q in HoldersOn(b, network, x) ==> exists p :: p in HoldersOn(b0, network, x) && p in rep && rep[p] == q
  {
    forall p | p in HoldersOn(b0, network, x) ensures p in rep && rep[p] in HoldersOn(b, network, x) {
      var i :| i in b0.ids && i.network == network && HasPhone(b0.ids[i], x) && b0.ids[i].person == p;
      assert b.ids[i].person == rep[p];
      assert Contact(b, rep[p]);
    }
    forall q | q in HoldersOn(b, network, x) ensures exists p :: p in HoldersOn(b0, network, x) && p in rep && rep[p] == q {
      var i :| i in b.ids && i.network == network && HasPhone(b.ids[i], x) && b.ids[i].person == q;
      var p := b0.ids[i].person;
      assert Contact(b0, p);
      assert p in HoldersOn(b0, network, x);
    }
  }

  lemma CrossFollows(b0: Book, b: Book, rep: map<PersonId, PersonId>, x: string)
    requires Linked(b0) && Folds(b0, b, rep) && IdsFollow(b0, b, rep)
    ensures CrossChannel(b, x) <==> CrossChannel(b0, x)
    ensures forall q :: q in Holders(b, x) ==> exists p :: p in Holders(b0, x) && p in rep && rep[p] == q
    ensures forall p :: p in Holders(b0, x) ==> p in rep && rep[p] in Holders(b, x)
  {
    hide HoldersOn, Folds, IdsFollow, Linked;
    HoldersFollow(b0, b, rep, Telegram, x);
    HoldersFollow(b0, b, rep, WhatsApp, x);
    if CrossChannel(b, x) {
      var t :| t in HoldersOn(b, Telegram, x);
      var w :| w in HoldersOn(b, WhatsApp, x);
    }
    if CrossChannel(b0, x) {
      var t :| t in HoldersOn(b0, Telegram, x);
      var w :| w in HoldersOn(b0, WhatsApp, x);
    }
  }

  lemma EdgeLifts(b0: Book, b: Book, rep: map<PersonId, PersonId>, x: string, p: PersonId, q: PersonId)
    requires Linked(b0) && Derived(b0, b, rep) && CrossChannel(b, x) && p in Holders(b, x) && q in Holders(b, x)
    ensures Connected(b0, p, q)
  {
    hide HoldersOn, Holders, CrossChannel, Linked, IdsFollow, NameFrom, NotesFrom, Connected, Older, Contact;
    CrossFollows(b0, b, rep, x);
    var p0 :| p0 in Holders(b0, x) && p0 in rep && rep[p0] == p;
    var q0 :| q0 in Holders(b0, x) && q0 in rep && rep[q0] == q;
    ConnectedEdge(b0, p0, q0);
    ConnectedBack(b0, p0, p);
    ConnectedTrans(b0, p, p0, q0);
    ConnectedTrans(b0, p, q0, q);
  }

  /** Everyone in a group read from the snapshot may join its survivor. */
  lemma MayJoin(b0: Book, snapshot: Book, x: string, p: PersonId)
    requires Linked(b0) && DerivedFrom(b0, snapshot) && Bridges(snapshot, x) && p in Holders(snapshot, x)
    ensures var survivor := SurvivorOf(snapshot, x);
      Contact(b0, p) && Connected(b0, p, survivor) && survivor in b0.people && (p != survivor ==> Older(b0, survivor, p))
  {
    hide HoldersOn, Linked, IdsFollow, NameFrom, NotesFrom, Connected, Bonded;
    var rep :| Derived(b0, snapshot, rep);
    HoldersAreContacts(snapshot, x);
    EdgeLifts(b0, snapshot, rep, x, p, SurvivorOf(snapshot, x));
  }

  lemma GroupDerived(b0: Book, snapshot: Book, b: Book, x: string)
    requires Linked(b0) && DerivedFrom(b0, snapshot) && DerivedFrom(b0, b)
    ensures DerivedFrom(b0, MergeGroup(b, snapshot, x).0)
  {
    hide DerivedFrom, Connected, Linked, MergeInto, Holders, Older, Bridges;
    if Bridges(snapshot, x) {
      var survivor := SurvivorOf(snapshot, x);
      MayJoin(b0, snapshot, x, survivor);
      forall p | p in Holders(snapshot, x)
        ensures Contact(b0, p) && Connected(b0, p, survivor) && (p != survivor ==> Older(b0, survivor, p))
      {
        MayJoin(b0, snapshot, x, p);
      }
      MergeIntoDerived(b0, b, Ranked(snapshot, Holders(snapshot, x) - {survivor}), survivor);
    }
  }

  lemma {:induction false} GroupsDerived(b0: Book, snapshot: Book, b: Book, phones: seq<string>)
    requires Linked(b0) && DerivedFrom(b0, snapshot) && DerivedFrom(b0, b)
    ensures DerivedFrom(b0, MergeGroups(b, snapshot, phones).0)
  {
    hide Linked, DerivedFrom, MergeGroup;
    if phones != [] {
      GroupsDerived(b0, snapshot, b, phones[..|phones| - 1]);
      GroupDerived(b0, snapshot, MergeGroups(b, snapshot, phones[..|phones| - 1]).0, phones[|phones| - 1]);
    }
  }

  // ---- whole runs of passes ----

  /** Each book is the pass over the one before, with the numbers in some order. */
  ghost predicate PassRun(books: seq<Book>, orders: seq<seq<string>>) {
    |books| == |orders| + 1 &&
    forall k :: 0 <= k < |orders| ==> Lists(books[k], orders[k]) && books[k + 1] == MergeByPhone(books[k], orders[k]).0
  }

  lemma {:induction false} RunDerived(books: seq<Book>, orders: seq<seq<string>>, k: nat)
    requires PassRun(books, orders) && Linked(books[0]) && k < |books|
    ensures DerivedFrom(books[0], books[k])
  {
    hide Linked, MergeGroups, Lists;
    if k == 0 {
      DerivedSelf(books[0]);
      hide Derived;
    } else {
      hide DerivedFrom;
      RunDerived(books, orders, k - 1);
      assert books[k - 1 + 1] == MergeByPhone(books[k - 1], orders[k - 1]).0;
      GroupsDerived(books[0], books[k - 1], books[k - 1], orders[k - 1]);
    }
  }

  /** Iterating ends: every pass but an idle one costs at least one person. */
  lemma {:induction false} PassesEnd(books: seq<Book>, orders: seq<seq<string>>, k: nat)
    requires PassRun(books, orders) && k < |books|
    requires forall j :: 0 <= j < k ==> MergeByPhone(books[j], orders[j]).1 != 0
    ensures |books[k].people| + k <= |books[0].people|
  {
    hide MergeByPhone, Lists, Closed;
    if k > 0 {
      PassesEnd(books, orders, k - 1);
      assert Lists(books[k - 1], orders[k - 1]) && books[k - 1 + 1] == MergeByPhone(books[k - 1], orders[k - 1]).0;
      PassShrinksUnlessClosed(books[k - 1], orders[k - 1]);
    }
  }

  lemma OneHolder(b: Book, x: string, p: PersonId, q: PersonId)
    requires CrossChannel(b, x) && !Bridges(b, x) && p in Holders(b, x) && q in Holders(b, x)
    ensures p == q
  {
    if p != q {
      SubsetCardinality({p, q}, Holders(b, x));
    }
  }

  lemma EdgeMeets(b0: Book, b: Book, rep: map<PersonId, PersonId>, p: PersonId, q: PersonId)
    requires Linked(b0) && Derived(b0, b, rep) && Closed(b) && Edge(b0, p, q)
    ensures p in rep && q in rep && rep[p] == rep[q]
  {
    hide Holders, CrossChannel, Bridges, Linked, IdsFollow, NameFrom, NotesFrom, Bonded, Folds;
    var x :| CrossChannel(b0, x) && p in Holders(b0, x) && q in Holders(b0, x);
    CrossFollows(b0, b, rep, x);
    OneHolder(b, x, rep[p], rep[q]);
  }

  lemma {:induction false} PathMeets(b0: Book, b: Book, rep: map<PersonId, PersonId>, path: seq<PersonId>)
    requires Linked(b0) && Derived(b0, b, rep) && Closed(b) && IsPath(b0, path) && path[0] in rep
    ensures path[|path| - 1] in rep && rep[path[|path| - 1]] == rep[path[0]]
  {
    hide Linked, Derived, Closed, Edge;
    if |path| > 1 {
      var front := path[..|path| - 1];
      assert Edge(b0, path[|path| - 2], path[|path| - 2 + 1]);
      PathMeets(b0, b, rep, front);
      EdgeMeets(b0, b, rep, path[|path| - 2], path[|path| - 1]);
    }
  }

  lemma SameRepresentative(b0: Book, b: Book, rep: map<PersonId, PersonId>, p: PersonId, q: PersonId)
    requires Linked(b0) && Derived(b0, b, rep) && Closed(b) && p in b0.people && q in b0.people
    ensures p in rep && q in rep && (rep[p] == rep[q] <==> Connected(b0, p, q))
  {
    hide Linked, Closed, IdsFollow, NameFrom, NotesFrom, Edge, Older;
    if Connected(b0, p, q) {
      var path :| Joins(b0, path, p, q);
      PathMeets(b0, b, rep, path);
    }
    if rep[p] == rep[q] {
      ConnectedBack(b0, q, rep[q]);
      ConnectedTrans(b0, p, rep[p], q);
    }
  }

  /** The connected component of one person in the first book. */
  ghost function Component(b: Book, p: PersonId): set<PersonId> {
    set q | q in b.people && Connected(b, p, q)
  }

  /** One survivor: the oldest of its component, named and annotated by it, with the standing it had. */
  ghost predicate Represents(b0: Book, b: Book, q: PersonId)
    requires q in b.people && q in b0.people
  {
    && IsOldest(b0, Component(b0, q), q)
    && SameStanding(b0.people[q], b.people[q])
    && (b.people[q].nameSource == FromOwner <==> exists p :: p in Component(b0, q) && b0.people[p].nameSource == FromOwner)
    && (b.people[q].nameSource == FromOwner ==>
          exists p :: p in Component(b0, q) && b0.people[p].nameSource == FromOwner && b0.people[p].name == b.people[q].name)
    && (b.people[q].nameSource == FromChannel ==> b.people[q].name == b0.people[q].name)
    && (HasNotes(b.people[q]) <==> exists p :: p in Component(b0, q) && HasNotes(b0.people[p]))
    && (HasNotes(b.people[q]) ==>
          exists p :: p in Component(b0, q) && HasNotes(b0.people[p]) && b0.people[p].notes == b.people[q].notes)
    && (HasNotes(b0.people[q]) ==> b.people[q].notes == b0.people[q].notes)
  }

  lemma SurvivorRepresents(b0: Book, b: Book, rep: map<PersonId, PersonId>, q: PersonId)
    requires Linked(b0) && Derived(b0, b, rep) && Closed(b) && q in b.people
    ensures q in b0.people && Represents(b0, b, q)
  {
    hide Linked, Closed, IdsFollow, Connected;
    forall p | p in b0.people ensures p in rep && (p in Component(b0, q) <==> rep[p] == q) {
      SameRepresentative(b0, b, rep, q, p);
    }
    ConnectedSelf(b0, q);
  }

  /**
    * A run of passes that ends closed: two identities end with the same person exactly when their first holders were
    * connected by cross-channel phones; every identity is kept, on a person who exists; the survivors are the oldest of
    * each component; hidden people and the owner keep their identities.
    */
  lemma MergingReachesClosure(books: seq<Book>, orders: seq<seq<string>>)
    requires PassRun(books, orders) && Linked(books[0]) && Closed(books[|books| - 1])
    ensures var b0, b := books[0], books[|books| - 1];
      && b.ids.Keys == b0.ids.Keys && Linked(b)
      && (forall i, j :: i in b0.ids && j in b0.ids ==>
            (b.ids[i].person == b.ids[j].person <==> Connected(b0, b0.ids[i].person, b0.ids[j].person)))
      && (forall i :: i in b0.ids ==> b.ids[i] == b0.ids[i].(person := b.ids[i].person))
      && (forall i :: i in b0.ids && !Contact(b0, b0.ids[i].person) ==> b.ids[i] == b0.ids[i])
      && (forall q :: q in b0.people ==> (q in b.people <==> IsOldest(b0, Component(b0, q), q)))
      && (forall q :: q in b.people ==> q in b0.people && Represents(b0, b, q))
  {
    var b0, b := books[0], books[|books| - 1];
    RunDerived(books, orders, |books| - 1);
    RunLinked(books, orders, |books| - 1);
    var rep :| Derived(b0, b, rep);
    forall i | i in b0.ids
      ensures i in b.ids && b.ids[i] == b0.ids[i].(person := b.ids[i].person)
      ensures !Contact(b0, b0.ids[i].person) ==> b.ids[i] == b0.ids[i]
    {
      IdentityKept(b0, b, rep, i);
    }
    assert b.ids.Keys == b0.ids.Keys by { hide Linked, Connected, Folds, NameFrom, NotesFrom; }
    hide Linked, Connected, Closed, Derived, Represents, PassRun;
    forall i, j | i in b0.ids && j in b0.ids
      ensures b.ids[i].person == b.ids[j].person <==> Connected(b0, b0.ids[i].person, b0.ids[j].person)
    {
      IdentitiesMeet(b0, b, rep, i, j);
    }
    forall q | q in b0.people ensures q in b.people <==> IsOldest(b0, Component(b0, q), q) {
      SurvivorIsOldest(b0, b, rep, q);
    }
    forall q | q in b.people ensures q in b0.people && Represents(b0, b, q) {
      SurvivorRepresents(b0, b, rep, q);
    }
  }

  lemma {:induction false} RunLinked(books: seq<Book>, orders: seq<seq<string>>, k: nat)
    requires PassRun(books, orders) && Linked(books[0]) && k < |books|
    ensures Linked(books[k])
  {
    hide Linked, MergeGroups, Lists;
    if k > 0 {
      RunLinked(books, orders, k - 1);
      assert books[k - 1 + 1] == MergeByPhone(books[k - 1], orders[k - 1]).0;
      MergeGroupsCount(books[k - 1], books[k - 1], orders[k - 1]);
    }
  }

  lemma IdentityKept(b0: Book, b: Book, rep: map<PersonId, PersonId>, i: IdKey)
    requires Linked(b0) && Derived(b0, b, rep) && i in b0.ids
    ensures i in b.ids && b.ids[i] == b0.ids[i].(person := b.ids[i].person)
    ensures b0.ids[i].person in rep && b.ids[i].person == rep[b0.ids[i].person]
    ensures !Contact(b0, b0.ids[i].person) ==> b.ids[i] == b0.ids[i]
  {
    hide Connected, NameFrom, NotesFrom;
  }

  lemma IdentitiesMeet(b0: Book, b: Book, rep: map<PersonId, PersonId>, i: IdKey, j: IdKey)
    requires Linked(b0) && Derived(b0, b, rep) && Closed(b) && i in b0.ids && j in b0.ids
    ensures i in b.ids && j in b.ids
    ensures b.ids[i].person == b.ids[j].person <==> Connected(b0, b0.ids[i].person, b0.ids[j].person)
  {
    hide Connected, Derived, Closed;
    IdentityKept(b0, b, rep, i);
    IdentityKept(b0, b, rep, j);
    SameRepresentative(b0, b, rep, b0.ids[i].person, b0.ids[j].person);
  }

  lemma SurvivorIsOldest(b0: Book, b: Book, rep: map<PersonId, PersonId>, q: PersonId)
    requires Linked(b0) && Derived(b0, b, rep) && Closed(b) && q in b0.people
    ensures q in b.people <==> IsOldest(b0, Component(b0, q), q)
  {
    hide Connected, NameFrom, NotesFrom, IdsFollow, Closed, Linked;
    forall p | p in b0.people ensures p in rep && (p in Component(b0, q) <==> rep[p] == rep[q]) {
      SameRepresentative(b0, b, rep, q, p);
    }
    ConnectedSelf(b0, q);
    assert rep[q] in Component(b0, q);
  }
}
