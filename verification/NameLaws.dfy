/** How identities and names follow the contact list: the newest word counts, and nothing is ever cleared. */
module NameLaws {
  import opened Prelude
  import opened People
  import opened Populate
  import LinkLaws

  // ---- trimming ----

  /** The middle of a text: only white space around it, and none at its ends. */
  ghost predicate Middle(s: string, t: string, a: nat, b: nat) {
    && a <= b <= |s| && t == s[a..b]
    && (forall k :: 0 <= k < a || b <= k < |s| ==> s[k] in LinkLaws.SPACES)
    && (t != "" ==> t[0] !in LinkLaws.SPACES && t[|t| - 1] !in LinkLaws.SPACES)
  }

  lemma SpaceIs(c: char)
    ensures IsSpace(c) <==> c in LinkLaws.SPACES
  {
  }

  lemma {:induction false} StartTrimmed(s: string) returns (a: nat)
    ensures a <= |s| && TrimStart(s) == s[a..] && (forall k :: 0 <= k < a ==> s[k] in LinkLaws.SPACES)
    ensures a < |s| ==> s[a] !in LinkLaws.SPACES
  {
    hide IsSpace, LinkLaws.SPACES;
    if s != "" {
      SpaceIs(s[0]);
    }
    if s != "" && IsSpace(s[0]) {
      var n := StartTrimmed(s[1..]);
      a := n + 1;
      assert forall k :: 1 <= k < |s| ==> s[k] == s[1..][k - 1];
    } else {
      a := 0;
    }
  }

  lemma {:induction false} EndTrimmed(s: string) returns (b: nat)
    ensures b <= |s| && TrimEnd(s) == s[..b] && (forall k :: b <= k < |s| ==> s[k] in LinkLaws.SPACES)
    ensures b > 0 ==> s[b - 1] !in LinkLaws.SPACES
  {
    hide IsSpace, LinkLaws.SPACES;
    var n := |s| - 1;
    if s != "" {
      SpaceIs(s[n]);
    }
    if s != "" && IsSpace(s[n]) {
      b := EndTrimmed(s[..n]);
      assert s[..n][..b] == s[..b];
      assert forall k :: 0 <= k < n ==> s[k] == s[..n][k];
    } else {
      b := |s|;
    }
  }

  lemma TrimIsMiddle(s: string)
    ensures exists a, b :: Middle(s, Trim(s), a, b)
  {
    var a := StartTrimmed(s);
    var b := EndTrimmed(s[a..]);
    hide LinkLaws.SPACES;
    assert s[a..][..b] == s[a..a + b];
    forall k | a + b <= k < |s| ensures s[k] in LinkLaws.SPACES {
      assert s[k] == s[a..][k - a];
    }
    if b > 0 {
      assert s[a..][b - 1] == s[a + b - 1];
    }
    assert Middle(s, Trim(s), a, a + b);
  }

  // ---- identities ----

  predicate Blank(name: Option<string>) {
    name == None || Trim(name.value) == ""
  }

  /**
    * An identity takes the trimmed name and the number of its newest contact row, each only where that row has one; it
    * stays with its person, and without a contact row it stays as it is.
    */
  lemma IdentitiesFollow(b: Book, contacts: map<IdKey, seq<Synced>>, i: IdKey)
    requires i in b.ids
    ensures var end := RefreshIdentities(b, contacts);
      && end.people == b.people && end.ids.Keys == b.ids.Keys
      && end.ids[i] == b.ids[i].(displayName := end.ids[i].displayName, phone := end.ids[i].phone)
      && (i !in contacts || contacts[i] == [] ==> end.ids[i] == b.ids[i])
      && (i in contacts && contacts[i] != [] ==>
            var row := contacts[i][0];
            && end.ids[i].displayName == (if Blank(row.displayName) then b.ids[i].displayName else Some(Trim(row.displayName.value)))
            && end.ids[i].phone == (if row.phone in {None, Some("")} then b.ids[i].phone else row.phone))
  {
    hide Trim;
  }

  // ---- names ----

  /** The first row, newest first, with something to call its contact. */
  ghost predicate FirstNamed(rows: seq<Synced>, k: nat) {
    k < |rows| && !Blank(rows[k].displayName) && forall j :: 0 <= j < k ==> Blank(rows[j].displayName)
  }

  /** What is shown of a name: trimmed, and cut to a hundred characters. */
  predicate CutTo(name: string, given: string) {
    name <= Trim(given) && |name| == (if |Trim(given)| < 100 then |Trim(given)| else 100)
  }

  lemma {:induction false} FirstNameIs(rows: seq<Synced>)
    ensures FirstName(rows).None? <==> forall k :: 0 <= k < |rows| ==> Blank(rows[k].displayName)
    ensures FirstName(rows).Some? ==> exists k: nat :: FirstNamed(rows, k) && CutTo(FirstName(rows).value, rows[k].displayName.value)
  {
    hide Trim;
    if rows != [] {
      FirstNameIs(rows[1..]);
      assert forall k :: 1 <= k < |rows| ==> rows[k] == rows[1..][k - 1];
      if !Blank(rows[0].displayName) {
        assert FirstNamed(rows, 0);
      } else if FirstName(rows).Some? {
        var k: nat :| FirstNamed(rows[1..], k) && CutTo(FirstName(rows[1..]).value, rows[1..][k].displayName.value);
        assert FirstNamed(rows, k + 1);
      }
    }
  }

  /** Some contact row of the identity has a name. */
  ghost predicate Speaks(b: Book, w: World, p: PersonId, i: IdKey) {
    i in b.ids && b.ids[i].person == p && i in w.contacts && exists k: nat :: FirstNamed(w.contacts[i], k)
  }

  /** Telegram before WhatsApp, then the identity linked first. */
  predicate Before(b: Book, i: IdKey, j: IdKey)
    requires i in b.ids && j in b.ids
  {
    || (i.network == Telegram && j.network == WhatsApp)
    || (i.network == j.network &&
        (b.ids[i].created < b.ids[j].created || (b.ids[i].created == b.ids[j].created && b.ids[i].serial < b.ids[j].serial)))
  }

  ghost predicate SpeaksFirst(b: Book, w: World, p: PersonId, i: IdKey) {
    Speaks(b, w, p, i) && forall j :: Speaks(b, w, p, j) && j != i ==> Before(b, i, j)
  }

  lemma SpeaksIs(b: Book, w: World, p: PersonId, i: IdKey)
    ensures Speaks(b, w, p, i) <==> Named(b.ids, w.contacts, p, i)
  {
    if i in w.contacts {
      FirstNameIs(w.contacts[i]);
      if k: nat :| FirstNamed(w.contacts[i], k) {
        assert !Blank(w.contacts[i][k].displayName);
      }
    }
    hide FirstName, Blank;
  }

  lemma SpeaksFirstIs(b: Book, w: World, p: PersonId, i: IdKey)
    ensures SpeaksFirst(b, w, p, i) <==> NamesFirst(b.ids, w.contacts, p, i)
  {
    forall j ensures Speaks(b, w, p, j) <==> Named(b.ids, w.contacts, p, j) {
      SpeaksIs(b, w, p, j);
    }
    hide Speaks, FirstName;
    if SpeaksFirst(b, w, p, i) {
      assert forall j :: Named(b.ids, w.contacts, p, j) && j != i ==> Precedes(b.ids, i, j);
    }
    if NamesFirst(b.ids, w.contacts, p, i) {
      assert forall j :: Speaks(b, w, p, j) && j != i ==> Before(b, i, j);
    }
  }

  /** The word of the identity that speaks first, cut to length. */
  lemma ChannelNameIs(b: Book, w: World, p: PersonId, i: IdKey, k: nat)
    requires OwnSerials(b.ids) && SpeaksFirst(b, w, p, i) && FirstNamed(w.contacts[i], k)
    ensures ChannelName(b.ids, w.contacts, p).Some? && CutTo(ChannelName(b.ids, w.contacts, p).value, w.contacts[i][k].displayName.value)
  {
    SpeaksFirstIs(b, w, p, i);
    FirstNameIs(w.contacts[i]);
    hide FirstName, Blank, CutTo;
    assert forall j :: NamesFirst(b.ids, w.contacts, p, j) ==> j == i;
    var m: nat :| FirstNamed(w.contacts[i], m) && CutTo(FirstName(w.contacts[i]).value, w.contacts[i][m].displayName.value);
    assert m == k;
  }

  /** A visible person other than the owner whose name the owner has not set. */
  predicate Follows(p: Person) {
    !p.archived && !p.isOwner && p.nameSource == FromChannel
  }

  /** The name a follower is called after this word of its first identity. */
  ghost predicate CalledAfter(name: string, was: string, given: string, usable: string -> bool) {
    exists n :: CutTo(n, given) && name == if n != "" && usable(n) then n else was
  }

  /**
    * A person whose name follows the contact list takes the newest name of its first identity that has one, if there is
    * something in it to call a person by; nobody else is renamed, nothing but the name changes, and every new name counts.
    */
  lemma NamesFollow(b: Book, w: World, p: PersonId)
    requires OwnSerials(b.ids) && p in b.people
    ensures var end := RefreshNames(b, w).0; var was := b.people[p];
      && end.ids == b.ids && end.people.Keys == b.people.Keys
      && end.people[p] == was.(name := end.people[p].name)
      && (!Follows(was) || (forall i :: !Speaks(b, w, p, i)) ==> end.people[p] == was)
      && (Follows(was) ==> forall i, k: nat :: SpeaksFirst(b, w, p, i) && FirstNamed(w.contacts[i], k) ==>
            CalledAfter(end.people[p].name, was.name, w.contacts[i][k].displayName.value, w.usable))
  {
    var end := RefreshNames(b, w).0;
    assert Contact(b, p) && b.people[p].nameSource == FromChannel <==> Follows(b.people[p]);
    if forall i :: !Speaks(b, w, p, i) {
      forall i ensures !NamesFirst(b.ids, w.contacts, p, i) {
        SpeaksIs(b, w, p, i);
      }
    }
    forall i, k: nat | Follows(b.people[p]) && SpeaksFirst(b, w, p, i) && FirstNamed(w.contacts[i], k)
      ensures CalledAfter(end.people[p].name, b.people[p].name, w.contacts[i][k].displayName.value, w.usable)
    {
      ChannelNameIs(b, w, p, i, k);
      hide ChannelName, SpeaksFirst, FirstNamed, CutTo, Speaks;
      assert CutTo(ChannelName(b.ids, w.contacts, p).value, w.contacts[i][k].displayName.value);
    }
    hide Speaks, ChannelName;
  }

  /** The third counter of a sync. */
  lemma RenamesCount(b: Book, w: World)
    ensures var (end, n) := RefreshNames(b, w); n == |set p | p in b.people && p in end.people && end.people[p] != b.people[p]|
  {
    hide ChannelName, Contact;
    var (end, n) := RefreshNames(b, w);
    assert Renamed(b, w) == set p | p in b.people && p in end.people && end.people[p] != b.people[p];
  }
}
