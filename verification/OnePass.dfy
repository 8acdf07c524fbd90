/** Exactly when a single merging pass reaches the closure. */
module OnePass {
  import opened Prelude
  import opened People
  import opened PhoneMerge

  // ---- who is merged away ----

  /** The k-th group takes this person in: its oldest holder has not been merged away by an earlier group. */
  ghost predicate TakenIn(b: Book, phones: seq<string>, k: nat, p: PersonId)
    requires k < |phones|
    decreases |phones|, 0
  {
    && Bridges(b, phones[k]) && p in Holders(b, phones[k]) && p != SurvivorOf(b, phones[k])
    && !MergedAway(b, phones[..k], SurvivorOf(b, phones[k]))
  }

  /** Read off the book before the pass and the order of its groups. */
  ghost predicate MergedAway(b: Book, phones: seq<string>, p: PersonId)
    decreases |phones|, 1
  {
    exists k :: 0 <= k < |phones| && TakenIn(b, phones, k, p)
  }

  lemma OneMoreGroup(b: Book, front: seq<string>, x: string, p: PersonId)
    ensures MergedAway(b, front + [x], p) <==>
      (MergedAway(b, front, p) ||
       (Bridges(b, x) && p in Holders(b, x) && p != SurvivorOf(b, x) && !MergedAway(b, front, SurvivorOf(b, x))))
  {
    hide Bridges, Holders, SurvivorOf;
    var phones := front + [x];
    assert phones[..|front|] == front;
    forall k | 0 <= k < |front| ensures TakenIn(b, phones, k, p) <==> TakenIn(b, front, k, p) {
      assert phones[..k] == front[..k];
    }
    assert TakenIn(b, phones, |front|, p) <==>
        (Bridges(b, x) && p in Holders(b, x) && p != SurvivorOf(b, x) && !MergedAway(b, front, SurvivorOf(b, x)));
    if k :| 0 <= k < |phones| && TakenIn(b, phones, k, p) {
      assert k == |front| || TakenIn(b, front, k, p);
    }
    if k :| 0 <= k < |front| && TakenIn(b, front, k, p) {
      assert TakenIn(b, phones, k, p);
    }
  }

  lemma {:induction false} IntoGone(b: Book, rest: seq<PersonId>, survivor: PersonId)
    requires survivor !in b.people
    ensures MergeInto(b, rest, survivor).0 == b
  {
    if rest != [] {
      IntoGone(b, rest[..|rest| - 1], survivor);
    }
  }

  lemma {:induction false} IntoTakes(b: Book, rest: seq<PersonId>, survivor: PersonId)
    requires Contact(b, survivor) && survivor !in rest
    requires forall p :: p in rest && p in b.people ==> Contact(b, p)
    ensures var b1 := MergeInto(b, rest, survivor).0;
      && (forall p :: p in b1.people <==> p in b.people && p !in rest)
      && (forall p :: p in b1.people ==> SameStanding(b.people[p], b1.people[p]))
  {
    if rest != [] {
      var front, last := rest[..|rest| - 1], rest[|rest| - 1];
      assert forall p :: p in rest <==> p in front || p == last;
      IntoTakes(b, front, survivor);
    }
  }

  /** One group of the snapshot, met in the middle of the pass. */
  lemma GroupTakes(b0: Book, b: Book, x: string)
    requires forall p :: p in b.people ==> p in b0.people && SameStanding(b0.people[p], b.people[p])
    ensures var b1 := MergeGroup(b, b0, x).0;
      && (forall p :: p in b1.people <==>
            p in b.people &&
            !(Bridges(b0, x) && p in Holders(b0, x) && p != SurvivorOf(b0, x) && SurvivorOf(b0, x) in b.people))
      && (forall p :: p in b1.people ==> SameStanding(b.people[p], b1.people[p]))
  {
    if Bridges(b0, x) {
      var s := SurvivorOf(b0, x);
      HoldersAreContacts(b0, x);
      hide Bridges, Holders, MergeInto;
      var rest := Ranked(b0, Holders(b0, x) - {s});
      if s in b.people {
        IntoTakes(b, rest, s);
      } else {
        IntoGone(b, rest, s);
      }
    }
  }

  /** A pass over a stale snapshot removes exactly the people read off it. */
  lemma {:induction false} PassRemoves(b: Book, phones: seq<string>)
    ensures var b1 := MergeByPhone(b, phones).0;
      && (forall p :: p in b1.people <==> p in b.people && !MergedAway(b, phones, p))
      && (forall p :: p in b1.people ==> SameStanding(b.people[p], b1.people[p]))
  {
    hide MergeGroup, Bridges, Holders;
    if phones != [] {
      var front, x := phones[..|phones| - 1], phones[|phones| - 1];
      var b1 := MergeByPhone(b, front).0;
      assert front + [x] == phones;
      PassRemoves(b, front);
      GroupTakes(b, b1, x);
      hide SameStanding, MergedAway;
      forall p ensures MergedAway(b, phones, p) <==>
          (MergedAway(b, front, p) ||
           (Bridges(b, x) && p in Holders(b, x) && p != SurvivorOf(b, x) && !MergedAway(b, front, SurvivorOf(b, x))))
      {
        OneMoreGroup(b, front, x, p);
      }
      assert Bridges(b, x) ==> SurvivorOf(b, x) in b.people;
    }
  }

  // ---- when that is enough ----

  ghost predicate EldestOfAll(b: Book, p: PersonId)
    requires p in b.people
  {
    IsOldest(b, Component(b, p), p)
  }

  /** Whoever has an older person to be merged into is merged away. */
  ghost predicate OneRound(b: Book, phones: seq<string>) {
    forall p :: p in b.people ==> EldestOfAll(b, p) || MergedAway(b, phones, p)
  }

  lemma PassDerived(b: Book, phones: seq<string>) returns (rep: map<PersonId, PersonId>)
    requires Linked(b)
    ensures Derived(b, MergeByPhone(b, phones).0, rep)
  {
    DerivedSelf(b);
    hide Derived, MergeGroups, Linked;
    assert DerivedFrom(b, b);
    GroupsDerived(b, b, b, phones);
    rep :| Derived(b, MergeByPhone(b, phones).0, rep);
  }

  lemma TwoOf(s: set<PersonId>) returns (p: PersonId, q: PersonId)
    requires |s| >= 2
    ensures p in s && q in s && p != q
  {
    p :| p in s;
    assert |s - {p}| >= 1;
    q :| q in s - {p};
  }

  lemma OneEldest(b: Book, p: PersonId, q: PersonId)
    requires p in b.people && q in b.people && EldestOfAll(b, p) && EldestOfAll(b, q) && Connected(b, p, q)
    ensures p == q
  {
    ConnectedBack(b, p, q);
    hide Connected;
    assert q in Component(b, p) && p in Component(b, q);
  }

  /** Two people left on one bridged number cannot both be the oldest of their component. */
  lemma EldestClose(b0: Book, b: Book, rep: map<PersonId, PersonId>)
    requires Linked(b0) && Derived(b0, b, rep)
    requires forall p :: p in b.people ==> p in b0.people && EldestOfAll(b0, p)
    ensures Closed(b)
  {
    hide Holders, CrossChannel, Derived, Linked, Connected, EldestOfAll;
    if x :| Bridges(b, x) {
      var p, q := TwoOf(Holders(b, x));
      EdgeLifts(b0, b, rep, x, p, q);
      OneEldest(b0, p, q);
    }
  }

  /** One pass closes the book if and only if everyone with an older person to be merged into is merged away by it. */
  lemma PassClosesIff(b: Book, phones: seq<string>)
    requires Linked(b)
    ensures Closed(MergeByPhone(b, phones).0) <==> OneRound(b, phones)
  {
    var b1 := MergeByPhone(b, phones).0;
    var rep := PassDerived(b, phones);
    hide Linked, MergeByPhone, Derived, MergedAway, Component, IsOldest, SameStanding, Closed;
    PassRemoves(b, phones);
    if Closed(b1) {
      forall p | p in b.people ensures EldestOfAll(b, p) || MergedAway(b, phones, p) {
        SurvivorIsOldest(b, b1, rep, p);
      }
    }
    if OneRound(b, phones) {
      EldestClose(b, b1, rep);
    }
  }

  // ---- when that is enough in every order ----

  /** Shares a bridged number with the oldest of its component. */
  ghost predicate UnderEldest(b: Book, p: PersonId) {
    exists x :: Bridges(b, x) && p in Holders(b, x) && EldestOfAll(b, SurvivorOf(b, x))
  }

  ghost predicate StarShaped(b: Book) {
    forall p :: p in b.people ==> EldestOfAll(b, p) || UnderEldest(b, p)
  }

  ghost predicate ClosesInEveryOrder(b: Book) {
    forall phones :: Lists(b, phones) ==> Closed(MergeByPhone(b, phones).0)
  }

  lemma LedBy(b: Book, x: string, p: PersonId)
    requires Bridges(b, x) && p in Holders(b, x) && p != SurvivorOf(b, x)
    ensures p in b.people && SurvivorOf(b, x) in b.people && Older(b, SurvivorOf(b, x), p) && !EldestOfAll(b, p)
  {
    var s := SurvivorOf(b, x);
    assert Older(b, s, p) && !Older(b, p, s);
    hide Older, Holders, CrossChannel;
    assert Edge(b, p, s);
    ConnectedEdge(b, p, s);
    hide Connected;
    assert s in Component(b, p);
  }

  /** The oldest of a component is never merged away. */
  lemma EldestStays(b: Book, phones: seq<string>, p: PersonId)
    requires p in b.people && EldestOfAll(b, p)
    ensures !MergedAway(b, phones, p)
  {
    hide EldestOfAll, Bridges, Holders, SurvivorOf, Older;
    forall k | 0 <= k < |phones| ensures !TakenIn(b, phones, k, p) {
      if Bridges(b, phones[k]) && p in Holders(b, phones[k]) && p != SurvivorOf(b, phones[k]) {
        LedBy(b, phones[k], p);
      }
    }
  }

  /** Wherever in the order its number comes, a person under the oldest of its component is taken in by it. */
  lemma EldestTakes(b: Book, phones: seq<string>, x: string, p: PersonId)
    requires Bridges(b, x) && x in phones && p in Holders(b, x) && p != SurvivorOf(b, x) && EldestOfAll(b, SurvivorOf(b, x))
    ensures MergedAway(b, phones, p)
  {
    hide EldestOfAll, Bridges, Holders, SurvivorOf;
    var k :| 0 <= k < |phones| && phones[k] == x;
    EldestStays(b, phones[..k], SurvivorOf(b, x));
    assert TakenIn(b, phones, k, p);
  }

  lemma StarsClose(b: Book, phones: seq<string>)
    requires Linked(b) && StarShaped(b) && Lists(b, phones)
    ensures Closed(MergeByPhone(b, phones).0)
  {
    hide EldestOfAll, MergedAway, MergeByPhone, Closed, Linked, Holders, Bridges, SurvivorOf;
    ListsBridges(b, phones);
    PassClosesIff(b, phones);
    forall p | p in b.people ensures EldestOfAll(b, p) || MergedAway(b, phones, p) {
      if !EldestOfAll(b, p) {
        var x :| Bridges(b, x) && p in Holders(b, x) && EldestOfAll(b, SurvivorOf(b, x));
        EldestTakes(b, phones, x, p);
      }
    }
  }

  lemma {:induction false} Listed(s: set<string>) returns (r: seq<string>)
    ensures Distinct(r) && forall x :: x in r <==> x in s
  {
    r := [];
    if s != {} {
      var x :| x in s;
      var rest := Listed(s - {x});
      r := [x] + rest;
      assert forall y :: y in r <==> y == x || y in rest;
    }
  }

  lemma DistinctJoin(a: seq<string>, b: seq<string>)
    requires Distinct(a) && Distinct(b) && forall x :: x in b ==> x !in a
    ensures Distinct(a + b)
  {
    var c := a + b;
    forall i, j | 0 <= i < j < |c| ensures c[i] != c[j] {
      if i < |a| <= j {
        assert c[i] in a && c[j] in b;
      }
    }
  }

  /** An order that leaves nothing out: first the numbers whose oldest holder is the oldest of its component. */
  lemma EldestFirst(b: Book) returns (first: seq<string>, rest: seq<string>)
    ensures Lists(b, first + rest)
    ensures forall x :: x in first <==> Bridges(b, x) && EldestOfAll(b, SurvivorOf(b, x))
    ensures forall x :: x in rest ==> x !in first
  {
    hide Bridges, EldestOfAll;
    forall x | Bridges(b, x) ensures x in Numbers(b) {
      BridgesAreNumbers(b, x);
    }
    hide Numbers;
    first := Listed(set x | x in Numbers(b) && Bridges(b, x) && EldestOfAll(b, SurvivorOf(b, x)));
    rest := Listed(set x | x in Numbers(b) && x !in first);
    DistinctJoin(first, rest);
    assert forall x :: x in first + rest <==> x in first || x in rest;
  }

  /** In that order, the oldest person who is under nobody's eldest is not taken in. */
  lemma LeftOutStays(b: Book, first: seq<string>, rest: seq<string>, left: set<PersonId>, p: PersonId)
    requires forall x :: x in first <==> Bridges(b, x) && EldestOfAll(b, SurvivorOf(b, x))
    requires forall x :: x in rest ==> x !in first
    requires left <= b.people.Keys && forall q :: q in left <==> q in b.people && !EldestOfAll(b, q) && !UnderEldest(b, q)
    requires IsOldest(b, left, p)
    ensures !MergedAway(b, first + rest, p)
  {
    hide Bridges, Holders, SurvivorOf, EldestOfAll;
    var phones := first + rest;
    forall k | 0 <= k < |phones| ensures !TakenIn(b, phones, k, p) {
      var x := phones[k];
      if Bridges(b, x) && p in Holders(b, x) && p != SurvivorOf(b, x) {
        var s := SurvivorOf(b, x);
        LedBy(b, x, p);
        assert !EldestOfAll(b, s);
        assert x !in first && k >= |first|;
        assert !Older(b, p, s);
        assert UnderEldest(b, s);
        var y :| Bridges(b, y) && s in Holders(b, y) && EldestOfAll(b, SurvivorOf(b, y));
        assert y in phones[..k] by { assert phones[..k][..|first|] == first; }
        EldestTakes(b, phones[..k], y, s);
      }
    }
  }

  /**
    * One pass is enough in every order of the numbers if and only if everyone who is not the oldest of the component
    * shares a bridged number with the one who is.
    */
  lemma EveryOrderClosesIff(b: Book)
    requires Linked(b)
    ensures ClosesInEveryOrder(b) <==> StarShaped(b)
  {
    hide EldestOfAll, MergedAway, MergeByPhone, Closed, Linked, UnderEldest, Older, Bridges, Lists;
    if StarShaped(b) {
      forall phones | Lists(b, phones) ensures Closed(MergeByPhone(b, phones).0) {
        StarsClose(b, phones);
      }
    } else {
      var left := set p | p in b.people && !EldestOfAll(b, p) && !UnderEldest(b, p);
      assert left != {} by { var p :| p in b.people && !(EldestOfAll(b, p) || UnderEldest(b, p)); assert p in left; }
      var p := Oldest(b, left);
      var first, rest := EldestFirst(b);
      LeftOutStays(b, first, rest, left, p);
      PassClosesIff(b, first + rest);
    }
  }

  // ---- a condition on the numbers alone ----

  /** Any two bridged numbers with a holder in common have the same oldest holder. */
  ghost predicate SameElder(b: Book) {
    forall x, y, p :: Bridges(b, x) && Bridges(b, y) && p in Holders(b, x) && p in Holders(b, y) ==>
      SurvivorOf(b, x) == SurvivorOf(b, y)
  }

  ghost predicate UnderElder(b: Book, p: PersonId, s: PersonId) {
    exists x :: Bridges(b, x) && p in Holders(b, x) && SurvivorOf(b, x) == s
  }

  lemma ElderOf(b: Book, x: string)
    requires Bridges(b, x)
    ensures var s := SurvivorOf(b, x);
      s in Holders(b, x) && s in b.people && UnderElder(b, s, s) && forall p :: p in Holders(b, x) && p != s ==> Older(b, s, p)
  {
    hide Holders, Bridges, Older;
  }

  /** Along a path of shared numbers everyone has the same elder, unless the path goes nowhere. */
  lemma {:induction false} PathUnderElder(b: Book, path: seq<PersonId>)
    requires SameElder(b) && IsPath(b, path)
    ensures var p, q := path[0], path[|path| - 1]; p == q || exists s :: UnderElder(b, p, s) && UnderElder(b, q, s)
  {
    hide Holders, CrossChannel, SurvivorOf, SameElder, Bridges;
    if |path| > 1 {
      var n := |path| - 1;
      assert Edge(b, path[n - 1], path[n - 1 + 1]);
      PathUnderElder(b, path[..n]);
      var p, q, r := path[0], path[n - 1], path[n];
      if q != r {
        var x := EdgeBridges(b, q, r);
        if p == q {
          assert UnderElder(b, p, SurvivorOf(b, x)) && UnderElder(b, r, SurvivorOf(b, x));
        } else {
          var s :| UnderElder(b, p, s) && UnderElder(b, q, s);
          SharedElder(b, q, s, x);
          assert UnderElder(b, r, s);
        }
      }
    }
  }

  lemma SharedElder(b: Book, q: PersonId, s: PersonId, x: string)
    requires SameElder(b) && UnderElder(b, q, s) && Bridges(b, x) && q in Holders(b, x)
    ensures SurvivorOf(b, x) == s
  {
    hide Holders, Bridges, SurvivorOf;
  }

  lemma EdgeBridges(b: Book, q: PersonId, r: PersonId) returns (x: string)
    requires Edge(b, q, r) && q != r
    ensures Bridges(b, x) && q in Holders(b, x) && r in Holders(b, x)
  {
    hide Holders, CrossChannel;
    x :| CrossChannel(b, x) && q in Holders(b, x) && r in Holders(b, x);
    SubsetCardinality({q, r}, Holders(b, x));
  }

  lemma ElderIsEldest(b: Book, s: PersonId)
    requires SameElder(b) && s in b.people && forall t :: UnderElder(b, s, t) ==> t == s
    ensures EldestOfAll(b, s)
  {
    hide UnderElder, SameElder;
    ConnectedSelf(b, s);
    forall q | q in Component(b, s) && q != s ensures Older(b, s, q) {
      var path :| Joins(b, path, s, q);
      PathUnderElder(b, path);
      var t :| UnderElder(b, s, t) && UnderElder(b, q, t);
      UnderIsYounger(b, q, s);
    }
  }

  lemma UnderIsYounger(b: Book, q: PersonId, s: PersonId)
    requires UnderElder(b, q, s) && q != s
    ensures q in b.people && s in b.people && Older(b, s, q)
  {
    hide Older;
    var x :| Bridges(b, x) && q in Holders(b, x) && SurvivorOf(b, x) == s;
    ElderOf(b, x);
  }

  /** Whoever leads a number leads all of theirs. */
  lemma ElderLeads(b: Book, p: PersonId, s: PersonId)
    requires SameElder(b) && UnderElder(b, p, s) && p != s
    ensures UnderEldest(b, p)
  {
    hide SameElder, Bridges, Holders, SurvivorOf, EldestOfAll;
    var x :| Bridges(b, x) && p in Holders(b, x) && SurvivorOf(b, x) == s;
    ElderOf(b, x);
    forall t | UnderElder(b, s, t) ensures t == s {
      SharedElder(b, s, t, x);
    }
    ElderIsEldest(b, s);
  }

  /** One pass is enough whenever bridged numbers that share a holder share their oldest holder. */
  lemma OnePassCloses(b: Book, phones: seq<string>)
    requires Linked(b) && Lists(b, phones) && SameElder(b)
    ensures Closed(MergeByPhone(b, phones).0)
  {
    hide Linked, SameElder, Lists, MergeByPhone, UnderElder, UnderEldest, EldestOfAll, Closed;
    forall p | p in b.people ensures EldestOfAll(b, p) || UnderEldest(b, p) {
      if s :| UnderElder(b, p, s) && p != s {
        ElderLeads(b, p, s);
      } else {
        ElderIsEldest(b, p);
      }
    }
    StarsClose(b, phones);
  }

  /** Nobody who may be merged holds two different numbers. */
  ghost predicate OneNumberEach(b: Book) {
    forall i, j :: Selected(b, i) && Selected(b, j) && b.ids[i].person == b.ids[j].person ==> b.ids[i].phone == b.ids[j].phone
  }

  lemma OneNumber(b: Book, x: string, y: string, p: PersonId)
    requires OneNumberEach(b) && p in Holders(b, x) && p in Holders(b, y)
    ensures x == y
  {
    hide Contact;
    var i :| i in b.ids && HasPhone(b.ids[i], x) && Contact(b, p) && b.ids[i].person == p;
    var j :| j in b.ids && HasPhone(b.ids[j], y) && b.ids[j].person == p;
    assert Selected(b, i) && Selected(b, j);
  }

  lemma OneNumberOnePass(b: Book, phones: seq<string>)
    requires Linked(b) && Lists(b, phones) && OneNumberEach(b)
    ensures Closed(MergeByPhone(b, phones).0)
  {
    assert SameElder(b) by {
      hide Holders, OneNumberEach;
      forall x, y, p | Bridges(b, x) && Bridges(b, y) && p in Holders(b, x) && p in Holders(b, y)
        ensures SurvivorOf(b, x) == SurvivorOf(b, y)
      {
        OneNumber(b, x, y, p);
      }
    }
    hide SameElder, Lists, Linked;
    OnePassCloses(b, phones);
  }

  // ---- a book that one pass does not close ----

  function Someone(name: string, created: Time): Person {
    Person(name, FromChannel, None, false, false, created)
  }

  function Numbering(p: PersonId, phone: string, serial: nat): Identity {
    Identity(p, None, Some(phone), 0, serial)
  }

  /** Three people in a row: the first two share one number, the last two another. */
  function Row(): Book {
    Book(map[0 := Someone("Ann", 1), 1 := Someone("Ben", 2), 2 := Someone("Cleo", 3)],
         map[IdKey(Telegram, "a") := Numbering(0, "+1", 3), IdKey(WhatsApp, "b") := Numbering(1, "+1", 4),
             IdKey(Telegram, "c") := Numbering(1, "+2", 5), IdKey(WhatsApp, "d") := Numbering(2, "+2", 6)], 7)
  }

  lemma RowKeyed()
    ensures Keyed(Row())
  {
  }

  lemma RowOn(x: string)
    ensures HoldersOn(Row(), Telegram, x) == if x == "+1" then {0} else if x == "+2" then {1} else {}
    ensures HoldersOn(Row(), WhatsApp, x) == if x == "+1" then {1} else if x == "+2" then {2} else {}
  {
    var b := Row();
    assert HasPhone(b.ids[IdKey(Telegram, "a")], "+1") && HasPhone(b.ids[IdKey(WhatsApp, "b")], "+1");
    assert HasPhone(b.ids[IdKey(Telegram, "c")], "+2") && HasPhone(b.ids[IdKey(WhatsApp, "d")], "+2");
  }

  lemma RowHolders(x: string)
    ensures var b := Row();
      && Holders(b, x) == (if x == "+1" then {0, 1} else if x == "+2" then {1, 2} else {})
      && (Bridges(b, x) <==> x == "+1" || x == "+2")
  {
    RowOn(x);
    hide HoldersOn, Row;
    assert {0, 1} == {0} + {1} && {1, 2} == {1} + {2};
  }

  lemma OldestIs(b: Book, s: set<PersonId>, p: PersonId)
    requires s <= b.people.Keys && IsOldest(b, s, p)
    ensures Oldest(b, s) == p
  {
    assert Oldest(b, s) in s;
  }

  lemma RowSurvivors()
    ensures var b := Row(); Bridges(b, "+1") && Bridges(b, "+2") && SurvivorOf(b, "+1") == 0 && SurvivorOf(b, "+2") == 1
  {
    var b := Row();
    RowHolders("+1");
    RowHolders("+2");
    hide Bridges, Holders;
    OldestIs(b, {0, 1}, 0);
    OldestIs(b, {1, 2}, 1);
  }

  /** Who is merged away by the pass that starts with the first number, and by the one that starts with the second. */
  lemma RowPasses(p: PersonId)
    ensures MergedAway(Row(), ["+1", "+2"], p) <==> p == 1
    ensures MergedAway(Row(), ["+2", "+1"], p) <==> p == 1 || p == 2
  {
    var b := Row();
    RowHolders("+1");
    RowHolders("+2");
    RowSurvivors();
    hide Bridges, Holders, SurvivorOf, Row;
    assert [] + ["+1"] == ["+1"] && [] + ["+2"] == ["+2"] && ["+1"] + ["+2"] == ["+1", "+2"] && ["+2"] + ["+1"] == ["+2", "+1"];
    forall q ensures (MergedAway(b, ["+1"], q) <==> q == 1) && (MergedAway(b, ["+2"], q) <==> q == 2) {
      assert !MergedAway(b, [], 0) && !MergedAway(b, [], 1) && !MergedAway(b, [], q);
      OneMoreGroup(b, [], "+1", q);
      OneMoreGroup(b, [], "+2", q);
      hide MergedAway;
    }
    hide MergedAway;
    OneMoreGroup(b, ["+1"], "+2", p);
    OneMoreGroup(b, ["+2"], "+1", p);
  }

  lemma RowFirst()
    ensures EldestOfAll(Row(), 0)
  {
    ConnectedSelf(Row(), 0);
    hide Connected;
    assert 0 in Component(Row(), 0);
  }

  lemma RowLast()
    ensures !EldestOfAll(Row(), 2)
  {
    RowHolders("+2");
    RowSurvivors();
    hide Bridges, Holders, SurvivorOf, EldestOfAll, Row;
    LedBy(Row(), "+2", 2);
  }

  lemma RowNumbers()
    ensures Numbers(Row()) == {"+1", "+2"}
  {
    forall x ensures x in Numbers(Row()) <==> x == "+1" || x == "+2" {
      RowOn(x);
      NumbersAreHeld(Row(), x);
      hide HoldersOn, Numbers;
    }
  }

  lemma RowIsListed()
    ensures var b := Row(); Linked(b) && Lists(b, ["+1", "+2"]) && Lists(b, ["+2", "+1"])
  {
    RowNumbers();
    hide Numbers;
  }

  lemma LeftOpen()
    ensures !Closed(MergeByPhone(Row(), ["+1", "+2"]).0)
  {
    assert 2 in Row().people;
    RowIsListed();
    RowLast();
    hide Linked, Lists, MergeByPhone, Closed, MergedAway, EldestOfAll, Row;
    PassClosesIff(Row(), ["+1", "+2"]);
    RowPasses(2);
  }

  lemma OneLeft(b: Book, phones: seq<string>)
    requires Linked(b) && b.people.Keys == {0, 1, 2}
    requires EldestOfAll(b, 0) && MergedAway(b, phones, 1) && MergedAway(b, phones, 2)
    ensures Closed(MergeByPhone(b, phones).0)
  {
    hide Linked, MergeByPhone, Closed, MergedAway, EldestOfAll;
    forall p | p in b.people ensures EldestOfAll(b, p) || MergedAway(b, phones, p) {
      assert p in b.people.Keys;
    }
    PassClosesIff(b, phones);
  }

  lemma ClosedTheOtherWay()
    ensures Closed(MergeByPhone(Row(), ["+2", "+1"]).0)
  {
    assert Row().people.Keys == {0, 1, 2};
    RowIsListed();
    RowFirst();
    RowPasses(1);
    RowPasses(2);
    hide *;
    OneLeft(Row(), ["+2", "+1"]);
  }

  /** The same book: closed by one pass in one order of its numbers, left open by it in the other. */
  lemma OrderMatters()
    ensures Linked(Row()) && Keyed(Row()) && Lists(Row(), ["+1", "+2"]) && Lists(Row(), ["+2", "+1"])
    ensures !Closed(MergeByPhone(Row(), ["+1", "+2"]).0) && Closed(MergeByPhone(Row(), ["+2", "+1"]).0)
  {
    RowKeyed();
    RowIsListed();
    LeftOpen();
    ClosedTheOtherWay();
    hide *;
  }
}
