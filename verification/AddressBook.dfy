/** The two address book tables, changed statement by statement; each method refines its specification. */
module AddressBook {
  import opened Prelude
  import opened People
  import opened PhoneMerge
  import opened OnePass
  import opened Populate
  import opened Hidden
  import opened PopulateAgain

  /** One number's holders on either channel, as the merging pass collects them. */
  datatype Group = Group(telegram: set<PersonId>, whatsapp: set<PersonId>)

  function Joined(g: Group, network: Network, p: PersonId): Group {
    if network == Telegram then g.(telegram := g.telegram + {p}) else g.(whatsapp := g.whatsapp + {p})
  }

  function HoldersAmong(b: Book, rows: seq<IdKey>, network: Network, phone: string): set<PersonId> {
    set i | i in rows && i.network == network && Selected(b, i) && b.ids[i].phone.value == phone :: b.ids[i].person
  }

  lemma AmongAll(b: Book, rows: seq<IdKey>, network: Network, phone: string)
    requires forall i :: i in b.ids ==> i in rows
    ensures HoldersAmong(b, rows, network, phone) == HoldersOn(b, network, phone)
  {
  }

  lemma AmongNext(b: Book, rows: seq<IdKey>, k: nat, network: Network, phone: string)
    requires k < |rows|
    ensures HoldersAmong(b, rows[..k + 1], network, phone) == HoldersAmong(b, rows[..k], network, phone) +
      if rows[k].network == network && Selected(b, rows[k]) && b.ids[rows[k]].phone.value == phone
      then {b.ids[rows[k]].person} else {}
  {
    assert forall i :: i in rows[..k + 1] <==> i in rows[..k] || i == rows[k];
  }

  /** The groups after some of the rows: one per number seen, in the order the numbers were first seen. */
  ghost predicate Grouping(b: Book, rows: seq<IdKey>, groups: map<string, Group>, order: seq<string>) {
    && Distinct(order) && (forall x :: x in order <==> x in groups)
    && (forall x :: x in groups ==>
          groups[x] == Group(HoldersAmong(b, rows, Telegram, x), HoldersAmong(b, rows, WhatsApp, x)) && groups[x] != Group({}, {}))
    && (forall x :: x !in groups ==> HoldersAmong(b, rows, Telegram, x) == {} && HoldersAmong(b, rows, WhatsApp, x) == {})
  }

  lemma GroupingSkips(b: Book, rows: seq<IdKey>, k: nat, groups: map<string, Group>, order: seq<string>)
    requires k < |rows| && Grouping(b, rows[..k], groups, order) && !Selected(b, rows[k])
    ensures Grouping(b, rows[..k + 1], groups, order)
  {
    hide HoldersAmong, Selected;
    forall x, n ensures HoldersAmong(b, rows[..k + 1], n, x) == HoldersAmong(b, rows[..k], n, x) {
      AmongNext(b, rows, k, n, x);
      assert HoldersAmong(b, rows[..k], n, x) + {} == HoldersAmong(b, rows[..k], n, x);
    }
  }

  lemma GroupingTakes(b: Book, rows: seq<IdKey>, k: nat, groups: map<string, Group>, order: seq<string>)
    requires k < |rows| && Grouping(b, rows[..k], groups, order) && Selected(b, rows[k])
    ensures var x := b.ids[rows[k]].phone.value; var g := if x in groups then groups[x] else Group({}, {});
      Grouping(b, rows[..k + 1], groups[x := Joined(g, rows[k].network, b.ids[rows[k]].person)],
               if x in groups then order else order + [x])
  {
    hide HoldersAmong;
    var x := b.ids[rows[k]].phone.value;
    forall y, n ensures HoldersAmong(b, rows[..k + 1], n, y) ==
      HoldersAmong(b, rows[..k], n, y) + if n == rows[k].network && y == x then {b.ids[rows[k]].person} else {}
    {
      AmongNext(b, rows, k, n, y);
    }
    assert forall n, y :: HoldersAmong(b, rows[..k], n, y) + {} == HoldersAmong(b, rows[..k], n, y);
    assert forall y :: y in order + [x] <==> y in order || y == x;
  }

  class AddressBook {
    var people: map<PersonId, Person>
    var ids: map<IdKey, Identity>
    var serial: nat

    function View(): Book
      reads this
    {
      Book(people, ids, serial)
    }

    constructor ()
      ensures View() == Book(map[], map[], 0)
    {
      people, ids, serial := map[], map[], 0;
    }

    /** The alive check, the re-pointing, the merged row and the delete, all in one transaction. */
    method MergePeople(fromId: PersonId, intoId: PersonId) returns (merged: bool)
      modifies this`people, this`ids
      ensures (View(), merged) == People.MergePeople(old(View()), fromId, intoId)
    {
      if fromId == intoId {
        return false;
      }
      var alive := map p | p in people && p in {fromId, intoId} && !people[p].archived :: people[p];
      if fromId in alive && alive[fromId].isOwner {
        return false;
      }
      if fromId !in alive || intoId !in alive {
        return false;
      }
      var from, into := alive[fromId], alive[intoId];
      ids := map i | i in ids :: if ids[i].person == fromId then ids[i].(person := intoId) else ids[i];
      var row := into;
      if into.nameSource == FromChannel && from.nameSource == FromOwner {
        row := row.(name := from.name, nameSource := FromOwner);
      }
      if !HasNotes(into) && HasNotes(from) {
        row := row.(notes := from.notes);
      }
      people := people[intoId := row];
      people := people - {fromId};
      assert people == (old(people) - {fromId})[intoId := row];
      assert ids == Repoint(old(ids), fromId, intoId);
      return true;
    }

    /** The eldest of a group, by the birthdays read with it. */
    method EldestOf(group: set<PersonId>, born: map<PersonId, Time>, ghost b: Book) returns (eldest: PersonId)
      requires group != {} && group <= b.people.Keys && forall p :: p in group ==> p in born && born[p] == b.people[p].created
      ensures eldest == Oldest(b, group)
    {
      hide IsOldest;
      var todo := group;
      eldest :| eldest in todo;
      todo := todo - {eldest};
      ghost var seen := {eldest};
      OldestAlone(b, eldest);
      while todo != {}
        invariant todo !! seen && todo + seen == group && eldest in group && IsOldest(b, seen, eldest)
        decreases |todo|
      {
        var p :| p in todo;
        OldestNext(b, seen, eldest, p);
        if born[p] < born[eldest] || (born[p] == born[eldest] && p < eldest) {
          eldest := p;
        }
        todo, seen := todo - {p}, seen + {p};
      }
      assert seen == group;
      OldestUnique(b, group, eldest);
    }

    /** The survivor takes in the rest of its group, oldest first. */
    method MergeRest(group: set<PersonId>, survivor: PersonId, born: map<PersonId, Time>, ghost b: Book) returns (merged: nat)
      requires group <= b.people.Keys && forall p :: p in group ==> p in born && born[p] == b.people[p].created
      modifies this`people, this`ids
      ensures (View(), merged) == MergeInto(old(View()), Ranked(b, group), survivor)
    {
      hide Ranked, People.MergePeople, MergeInto, Oldest, IsOldest, Older;
      merged := 0;
      var todo := group;
      ghost var done: seq<PersonId> := [];
      NothingMerged(View(), b, survivor);
      while todo != {}
        invariant todo <= group && done + Ranked(b, todo) == Ranked(b, group)
        invariant (View(), merged) == MergeInto(old(View()), done, survivor)
        decreases |todo|
      {
        var p := EldestOf(todo, born, b);
        RankedStep(b, todo);
        OneMoreMerged(old(View()), done, p, survivor);
        var ok := MergePeople(p, survivor);
        merged := merged + if ok then 1 else 0;
        assert done + [p] + Ranked(b, todo - {p}) == done + ([p] + Ranked(b, todo - {p}));
        todo, done := todo - {p}, done + [p];
      }
      assert done + [] == done;
    }

    /** Reads the groups, and the birthdays of everyone in them. `rows` is the query's result, in its order. */
    method ReadGroups(rows: seq<IdKey>) returns (groups: map<string, Group>, order: seq<string>, born: map<PersonId, Time>)
      requires Linked(View()) && forall i :: i in rows <==> i in ids
      ensures forall x :: x in order <==> x in groups
      ensures forall x :: x in groups ==> groups[x] == Group(HoldersOn(View(), Telegram, x), HoldersOn(View(), WhatsApp, x))
      ensures Lists(View(), order)
      ensures forall p :: p in born ==> p in people && born[p] == people[p].created
      ensures forall x, p :: p in Holders(View(), x) ==> p in born
    {
      hide HoldersAmong, Holders, HoldersOn, Grouping, Lists;
      groups, order, born := map[], [], map[];
      assert rows[..0] == [];
      NoRows(View());
      for k := 0 to |rows|
        invariant Grouping(View(), rows[..k], groups, order)
        invariant forall p :: p in born ==> p in people && born[p] == people[p].created
        invariant forall j :: 0 <= j < k && Selected(View(), rows[j]) ==> ids[rows[j]].person in born
      {
        var i := rows[k];
        if Selected(View(), i) {
          GroupingTakes(View(), rows, k, groups, order);
          var x := ids[i].phone.value;
          var g := if x in groups then groups[x] else Group({}, {});
          order := if x in groups then order else order + [x];
          groups := groups[x := Joined(g, i.network, ids[i].person)];
          born := born[ids[i].person := people[ids[i].person].created];
        } else {
          GroupingSkips(View(), rows, k, groups, order);
        }
      }
      assert rows[..|rows|] == rows;
      AllGrouped(View(), rows, groups, order);
      BornKnown(View(), rows, born);
    }

    /** One group: nothing to bridge, or everyone else into the eldest. */
    method MergeOneGroup(x: string, g: Group, born: map<PersonId, Time>, ghost b: Book) returns (merged: nat)
      requires g == Group(HoldersOn(b, Telegram, x), HoldersOn(b, WhatsApp, x))
      requires forall p :: p in Holders(b, x) ==> p in born && p in b.people && born[p] == b.people[p].created
      modifies this`people, this`ids
      ensures (View(), merged) == MergeGroup(old(View()), b, x)
    {
      hide HoldersOn, MergeInto, Ranked, Oldest, IsOldest, Older;
      var group := g.telegram + g.whatsapp;
      assert group == Holders(b, x);
      if g.telegram == {} || g.whatsapp == {} || |group| < 2 {
        return 0;
      }
      var survivor := EldestOf(group, born, b);
      merged := MergeRest(group - {survivor}, survivor, born, b);
    }

    /** One pass: the groups are read once, and the merges follow. */
    method MergeByPhone(rows: seq<IdKey>) returns (merged: nat, ghost phones: seq<string>)
      requires Linked(View()) && forall i :: i in rows <==> i in ids
      modifies this`people, this`ids
      ensures Lists(old(View()), phones) && (View(), merged) == People.MergeByPhone(old(View()), phones)
    {
      hide Holders, HoldersOn, Linked, Lists, MergeGroup;
      ghost var b := View();
      var groups, order, born := ReadGroups(rows);
      merged, phones := 0, order;
      for k := 0 to |order|
        invariant (View(), merged) == MergeGroups(b, b, order[..k])
      {
        var x := order[k];
        assert order[..k + 1][..k] == order[..k];
        var n := MergeOneGroup(x, groups[x], born, b);
        merged := merged + n;
      }
      assert order[..|order|] == order;
    }

    // ---- populating ----

    method LinkIdentity(personId: PersonId, key: IdKey, displayName: Option<string>, phone: Option<string>, now: Time)
      returns (r: LinkResult)
      modifies this`ids, this`serial
      ensures (View(), r) == Populate.LinkIdentity(old(View()), personId, key, displayName, phone, now)
    {
      if personId !in people {
        return NoPerson;
      }
      var ext := Trim(key.ext);
      if ext == "" || IdKey(key.network, ext) in ids {
        return AlreadyLinked;
      }
      var number := NormalizePhone(phone);
      if number.None? && key.network == WhatsApp {
        number := PhoneFromJid(ext);
      }
      ids := ids[IdKey(key.network, ext) := Identity(personId, CleanText(displayName), number, now, serial)];
      serial := serial + 1;
      return LinkOk;
    }

    method CreatePerson(name: string, source: NameSource, isOwner: bool, now: Time) returns (p: PersonId)
      modifies this`people, this`serial
      ensures (View(), p) == Populate.CreatePerson(old(View()), name, source, isOwner, now)
    {
      p := serial;
      people := people[p := Person(name, source, None, isOwner, false, now)];
      serial := serial + 1;
    }

    /** The owner's row: found, promoted from the people holding the owner's accounts, or made. */
    method EnsureOwnerPerson(w: World, now: Time)
      requires Linked(View()) && OneOwner(View())
      modifies this
      ensures View() == EnsureOwner(old(View()), w, now)
    {
      hide Populate.LinkIdentity, People.MergePeople, Oldest, ClampName;
      if w.accounts == [] {
        return;
      }
      var holders: seq<PersonId> := [];
      for k := 0 to |w.accounts|
        invariant View() == old(View()) && holders == AccountHolders(View(), w.accounts[..k])
      {
        assert w.accounts[..k + 1][..k] == w.accounts[..k];
        var a := w.accounts[k];
        if a in ids && Contact(View(), ids[a].person) && ids[a].person !in holders {
          holders := holders + [ids[a].person];
        }
      }
      assert w.accounts[..|w.accounts|] == w.accounts;
      var row := OwnerRowOf(holders, w.ownerName, now);
      ghost var b1 := View();
      for k := 0 to |holders|
        invariant View() == FoldInto(b1, holders[..k], row)
      {
        assert holders[..k + 1][..k] == holders[..k];
        var _ := MergePeople(holders[k], row);
      }
      assert holders[..|holders|] == holders;
      ghost var b2 := View();
      for k := 0 to |w.accounts|
        invariant View() == LinkAll(b2, row, w.accounts[..k], now)
      {
        assert w.accounts[..k + 1][..k] == w.accounts[..k];
        var _ := LinkIdentity(row, w.accounts[k], None, None, now);
      }
    }

    method OwnerRowOf(holders: seq<PersonId>, name: string, now: Time) returns (row: PersonId)
      requires OneOwner(View())
      modifies this`people, this`serial
      ensures (View(), row) == OwnerRow(old(View()), holders, name, now)
    {
      hide ClampName, Oldest;
      ghost var b := View();
      var owners := set p | p in people && people[p].isOwner;
      if owners != {} {
        row :| row in owners;
        assert OwnerOf(b) == Some(row);
        return;
      }
      assert forall p :: p in people && people[p].isOwner ==> p in owners;
      var known := set p | p in holders && p in people;
      if known != {} {
        row := EldestOf(known, map p | p in known :: people[p].created, b);
        people := people[row := people[row].(isOwner := true)];
      } else {
        row := CreatePerson(ClampName(name), FromChannel, true, now);
      }
    }

    /** The hidden people's numbers, the oldest holder of each. */
    method ArchivedPeopleByPhone() returns (hidden: map<string, PersonId>)
      requires Linked(View())
      ensures forall x :: HiddenByPhone(View(), Some(x)) == Get(hidden, x)
    {
      hide Oldest;
      hidden := map[];
      var todo := ids.Keys;
      ghost var seen: set<IdKey> := {};
      while todo != {}
        invariant todo !! seen && todo + seen == ids.Keys && HiddenAmong(View(), seen, hidden)
        decreases |todo|
      {
        var i :| i in todo;
        HiddenNext(View(), seen, hidden, i);
        var p, x := ids[i].person, ids[i].phone;
        if x.Some? && x.value != "" && people[p].archived {
          if x.value !in hidden || (hidden[x.value] != p && Older(View(), p, hidden[x.value])) {
            hidden := hidden[x.value := p];
          }
        }
        todo, seen := todo - {i}, seen + {i};
      }
      forall x ensures HiddenByPhone(View(), Some(x)) == Get(hidden, x) {
        HiddenDone(View(), hidden, x);
      }
    }

    /** One candidate: to the hidden person with its number, or to a new person, who goes again if the link is lost. */
    method PopulateOne(network: Network, c: Candidate, linked: set<IdKey>, hidden: map<string, PersonId>,
                       ghost listed: Book, ghost before: Book, w: World, now: Time)
      returns (created: nat)
      requires linked == listed.ids.Keys && forall x :: HiddenByPhone(before, Some(x)) == Get(hidden, x)
      modifies this
      ensures (View(), created) == OneCandidate(old(View()), listed, before, network, c, w, now)
    {
      hide Populate.LinkIdentity, HiddenByPhone, Trim, ClampName;
      created := 0;
      var key := IdKey(network, c.ext);
      if key in linked || !Nameable(c, w.usable) {
        return;
      }
      NoPhone(before);
      if c.phone.Some? && c.phone.value in hidden {
        var _ := LinkIdentity(hidden[c.phone.value], key, c.displayName, c.phone, now);
        return;
      }
      var p := CreatePerson(Trim(ClampName(c.displayName.value)), FromChannel, false, now);
      var r := LinkIdentity(p, key, c.displayName, c.phone, now);
      if r.LinkOk? {
        return 1;
      }
      people := people - {p};
    }

    /** One channel's candidates; `hidden` was read before the first channel. */
    method PopulateChannel(network: Network, cs: seq<Candidate>, hidden: map<string, PersonId>, ghost before: Book, w: World, now: Time)
      returns (created: nat)
      requires forall x :: HiddenByPhone(before, Some(x)) == Get(hidden, x)
      modifies this
      ensures (View(), created) == Candidates(old(View()), before, network, cs, w, now)
    {
      hide OneCandidate, HiddenByPhone;
      created := 0;
      ghost var listed := View();
      var linked := ids.Keys;
      for k := 0 to |cs|
        invariant (View(), created) == Candidates(listed, before, network, cs[..k], w, now)
      {
        assert cs[..k + 1][..k] == cs[..k];
        var n := PopulateOne(network, cs[k], linked, hidden, listed, before, w, now);
        created := created + n;
      }
      assert cs[..|cs|] == cs;
    }

    method RefreshIdentities(contacts: map<IdKey, seq<Synced>>)
      modifies this`ids
      ensures View() == Populate.RefreshIdentities(old(View()), contacts)
    {
      hide CleanText, Refreshed, RefreshedSoFar;
      ghost var b := View();
      var todo := ids.Keys;
      ghost var done: set<IdKey> := {};
      RefreshedNone(b, contacts);
      while todo != {}
        invariant todo !! done && todo + done == b.ids.Keys && ids == RefreshedSoFar(b, contacts, done)
        decreases |todo|
      {
        var i :| i in todo;
        RefreshedNext(b, contacts, done, i);
        if i in contacts && contacts[i] != [] {
          var id := RefreshOne(ids[i], contacts[i][0]);
          ids := ids[i := id];
        }
        todo, done := todo - {i}, done + {i};
      }
      assert done == b.ids.Keys;
      RefreshedAll(b, contacts);
    }

    /** A contact row never blanks what an identity already knows. */
    method RefreshOne(id: Identity, row: Synced) returns (r: Identity)
      ensures r == Refreshed(id, row)
    {
      hide Trim;
      r := id;
      var name := CleanText(row.displayName);
      if name.Some? && name != id.displayName {
        r := r.(displayName := name);
      }
      if row.phone.Some? && row.phone.value != "" && row.phone != id.phone {
        r := r.(phone := row.phone);
      }
    }

    /** What a person's channels call them: the first linked identity that has a name. */
    method ChannelNameFor(p: PersonId, contacts: map<IdKey, seq<Synced>>) returns (name: Option<string>)
      requires OwnSerials(ids)
      ensures name == ChannelName(ids, contacts, p)
    {
      hide FirstName, ChannelName, NamedIds;
      var named := NamedIds(ids, contacts, p);
      if named == {} {
        NoneNamed(ids, contacts, p);
        return None;
      }
      var first := FirstOf(named);
      FirstIs(ids, contacts, p, first);
      return FirstName(contacts[first]);
    }

    method FirstOf(named: set<IdKey>) returns (first: IdKey)
      requires OwnSerials(ids) && named != {} && named <= ids.Keys
      ensures FirstAmong(ids, named, first)
    {
      hide Precedes, OwnSerials, FirstAmong;
      first :| first in named;
      var todo := named - {first};
      ghost var seen := {first};
      FirstAlone(ids, first);
      while todo != {}
        invariant todo !! seen && todo + seen == named && first in named && FirstAmong(ids, seen, first)
        decreases |todo|
      {
        var i :| i in todo;
        FirstNext(ids, seen, first, i);
        if Precedes(ids, i, first) {
          first := i;
        }
        todo, seen := todo - {i}, seen + {i};
      }
      assert seen == named;
    }

    /** The rows are read first; each write repeats what the read relied on. */
    method RefreshChannelNames(w: World) returns (renamed: nat)
      requires OwnSerials(ids)
      modifies this`people
      ensures (View(), renamed) == RefreshNames(old(View()), w)
    {
      hide ChannelName, NamesSoFar, HitsSoFar;
      ghost var b := View();
      renamed := 0;
      var todo := people.Keys;
      ghost var done: set<PersonId> := {};
      NamesNone(b, w);
      while todo != {}
        invariant todo !! done && todo + done == b.people.Keys && ids == b.ids
        invariant people == NamesSoFar(b, w, done) && renamed == |HitsSoFar(b, w, done)|
        decreases |todo|
      {
        var p :| p in todo;
        NamesNext(b, w, done, p);
        var r := people[p];
        if !r.archived && !r.isOwner && r.nameSource == FromChannel {
          var next := ChannelNameFor(p, w.contacts);
          if next.Some? && next.value != "" && next.value != r.name && w.usable(next.value) {
            people := people[p := r.(name := next.value)];
            renamed := renamed + 1;
          }
        }
        todo, done := todo - {p}, done + {p};
      }
      NamesAll(b, w, done);
    }

    /** The unattended pass; `query` is the order in which the merge reads the identities. */
    method PopulatePeople(w: World, now: Time, query: seq<IdKey>) returns (counts: Counts, ghost phones: seq<string>)
      requires Linked(View()) && OneOwner(View()) && Keyed(View())
      requires forall i :: i in query <==> i in BeforeMerging(View(), w, now).ids
      modifies this
      ensures Lists(BeforeMerging(old(View()), w, now), phones)
      ensures (View(), counts) == Populate.PopulatePeople(old(View()), w, now, phones)
      ensures Linked(View()) && OneOwner(View()) && Keyed(View())
    {
      hide EnsureOwner, Candidates, Populate.RefreshIdentities, RefreshNames, Lists, MergeGroups, HiddenByPhone, Linked, OneOwner;
      ghost var b := View();
      PassLinked(b, w, now);
      PassKeyed(b, w, now);
      EnsureOwnerPerson(w, now);
      ghost var e := View();
      var hidden := ArchivedPeopleByPhone();
      var n := PopulateChannel(Telegram, w.telegram, hidden, e, w, now);
      var m := PopulateChannel(WhatsApp, w.whatsapp, hidden, e, w, now);
      RefreshIdentities(w.contacts);
      ghost var r := View();
      var merged;
      merged, phones := MergeByPhone(query);
      KeyedMerged(r, phones);
      var renamed := RefreshChannelNames(w);
      counts := Counts(n + m, merged, renamed);
      PassKeepsTables(b, w, now, phones);
    }
  }

  // ---- the hidden people's numbers, identity by identity ----

  /** The hidden holders of a number among some of the identities. */
  ghost function HidersAmong(b: Book, seen: set<IdKey>, x: string): set<PersonId> {
    set i | i in seen && i in b.ids && HasPhone(b.ids[i], x) && b.ids[i].person in b.people && b.people[b.ids[i].person].archived
      :: b.ids[i].person
  }

  ghost predicate HiddenAmong(b: Book, seen: set<IdKey>, hidden: map<string, PersonId>) {
    forall x :: if x in hidden then hidden[x] in b.people && HidersAmong(b, seen, x) <= b.people.Keys && IsOldest(b, HidersAmong(b, seen, x), hidden[x])
                else HidersAmong(b, seen, x) == {}
  }

  // ---- contact rows, identity by identity ----

  function RefreshedSoFar(b: Book, contacts: map<IdKey, seq<Synced>>, done: set<IdKey>): map<IdKey, Identity> {
    map i | i in b.ids :: if i in done && i in contacts && contacts[i] != [] then Refreshed(b.ids[i], contacts[i][0]) else b.ids[i]
  }

  lemma RefreshedNone(b: Book, contacts: map<IdKey, seq<Synced>>)
    ensures RefreshedSoFar(b, contacts, {}) == b.ids
  {
  }

  lemma RefreshedNext(b: Book, contacts: map<IdKey, seq<Synced>>, done: set<IdKey>, i: IdKey)
    requires i in b.ids && i !in done
    ensures var was := RefreshedSoFar(b, contacts, done); i in was && was[i] == b.ids[i]
    ensures RefreshedSoFar(b, contacts, done + {i}) ==
      if i in contacts && contacts[i] != [] then RefreshedSoFar(b, contacts, done)[i := Refreshed(b.ids[i], contacts[i][0])]
      else RefreshedSoFar(b, contacts, done)
  {
    hide Refreshed;
  }

  lemma RefreshedAll(b: Book, contacts: map<IdKey, seq<Synced>>)
    ensures Populate.RefreshIdentities(b, contacts) == b.(ids := RefreshedSoFar(b, contacts, b.ids.Keys))
  {
    hide Refreshed;
    assert Populate.RefreshIdentities(b, contacts).ids == RefreshedSoFar(b, contacts, b.ids.Keys);
  }

  // ---- names, identity by identity and person by person ----

  ghost predicate FirstAmong(ids: map<IdKey, Identity>, seen: set<IdKey>, first: IdKey) {
    first in seen && seen <= ids.Keys && forall j :: j in seen && j != first ==> Precedes(ids, first, j)
  }

  lemma FirstAlone(ids: map<IdKey, Identity>, i: IdKey)
    requires i in ids
    ensures FirstAmong(ids, {i}, i)
  {
  }

  lemma FirstNext(ids: map<IdKey, Identity>, seen: set<IdKey>, first: IdKey, i: IdKey)
    requires OwnSerials(ids) && FirstAmong(ids, seen, first) && i in ids && i !in seen
    ensures FirstAmong(ids, seen + {i}, if Precedes(ids, i, first) then i else first)
  {
    var best := if Precedes(ids, i, first) then i else first;
    assert Precedes(ids, i, first) || Precedes(ids, first, i);
    forall j | j in seen + {i} && j != best ensures Precedes(ids, best, j) {
      if j in seen && j != first {
        assert Precedes(ids, first, j);
      }
    }
  }

  function NamedIds(ids: map<IdKey, Identity>, contacts: map<IdKey, seq<Synced>>, p: PersonId): (s: set<IdKey>)
    ensures s <= ids.Keys
  {
    set i | i in ids && Named(ids, contacts, p, i)
  }

  lemma NoneNamed(ids: map<IdKey, Identity>, contacts: map<IdKey, seq<Synced>>, p: PersonId)
    requires NamedIds(ids, contacts, p) == {}
    ensures ChannelName(ids, contacts, p) == None
  {
    hide FirstName;
    forall i ensures !Named(ids, contacts, p, i) {
      assert i !in NamedIds(ids, contacts, p);
    }
  }

  lemma FirstIs(ids: map<IdKey, Identity>, contacts: map<IdKey, seq<Synced>>, p: PersonId, first: IdKey)
    requires FirstAmong(ids, NamedIds(ids, contacts, p), first)
    ensures first in contacts && ChannelName(ids, contacts, p) == FirstName(contacts[first])
  {
    hide FirstName;
    var named := NamedIds(ids, contacts, p);
    assert forall j :: Named(ids, contacts, p, j) <==> j in named;
    assert NamesFirst(ids, contacts, p, first);
    forall j | NamesFirst(ids, contacts, p, j) ensures j == first {
      assert j in named;
    }
  }

  ghost function NamesSoFar(b: Book, w: World, done: set<PersonId>): map<PersonId, Person> {
    map p | p in b.people ::
      if p in done && Renames(b, w, p) then b.people[p].(name := ChannelName(b.ids, w.contacts, p).value) else b.people[p]
  }

  ghost function HitsSoFar(b: Book, w: World, done: set<PersonId>): set<PersonId> {
    set p | p in b.people && p in done && Renames(b, w, p)
  }

  lemma NamesNone(b: Book, w: World)
    ensures NamesSoFar(b, w, {}) == b.people && HitsSoFar(b, w, {}) == {}
  {
    hide ChannelName;
  }

  lemma NamesNext(b: Book, w: World, done: set<PersonId>, p: PersonId)
    requires p in b.people && p !in done
    ensures p in NamesSoFar(b, w, done) && NamesSoFar(b, w, done)[p] == b.people[p]
    ensures NamesSoFar(b, w, done + {p}) ==
      if Renames(b, w, p) then NamesSoFar(b, w, done)[p := b.people[p].(name := ChannelName(b.ids, w.contacts, p).value)]
      else NamesSoFar(b, w, done)
    ensures |HitsSoFar(b, w, done + {p})| == |HitsSoFar(b, w, done)| + if Renames(b, w, p) then 1 else 0
  {
    hide ChannelName, Renames;
    if Renames(b, w, p) {
      assert HitsSoFar(b, w, done + {p}) == HitsSoFar(b, w, done) + {p};
    } else {
      assert HitsSoFar(b, w, done + {p}) == HitsSoFar(b, w, done);
    }
  }

  lemma NamesAll(b: Book, w: World, done: set<PersonId>)
    requires done == b.people.Keys
    ensures RefreshNames(b, w) == (b.(people := NamesSoFar(b, w, done)), |HitsSoFar(b, w, done)|)
  {
    hide ChannelName;
    assert HitsSoFar(b, w, done) == Renamed(b, w);
    assert NamesSoFar(b, w, done) == RefreshNames(b, w).0.people;
  }

  lemma PassLinked(b: Book, w: World, now: Time)
    requires Linked(b)
    ensures Linked(EnsureOwner(b, w, now)) && Linked(BeforeMerging(b, w, now))
  {
    hide EnsureOwner, BeforeMerging, Linked;
    EnsureOwnerKeeps(b, w, now);
    KeepsLinked(b, EnsureOwner(b, w, now));
    BeforeMergingKeeps(b, w, now);
    KeepsLinked(b, BeforeMerging(b, w, now));
  }

  lemma KeyedMerged(r: Book, phones: seq<string>)
    requires Linked(r) && Keyed(r)
    ensures Keyed(People.MergeByPhone(r, phones).0)
  {
    var m := People.MergeByPhone(r, phones).0;
    assert m.ids.Keys == r.ids.Keys && m.serial == r.serial by { MergeGroupsCount(r, r, phones); }
    hide People.MergeByPhone, Derived, Linked;
    var rep := PassDerived(r, phones);
    forall i | i in r.ids ensures m.ids[i].serial == r.ids[i].serial {
      IdentityKept(r, m, rep, i);
    }
  }

  /** What the pass relies on holds after it. */
  lemma PassKeepsTables(b: Book, w: World, now: Time, phones: seq<string>)
    requires Linked(b) && OneOwner(b) && Keyed(b)
    ensures var end := Populate.PopulatePeople(b, w, now, phones).0; Linked(end) && OneOwner(end) && Keyed(end)
  {
    hide People.MergeByPhone, BeforeMerging, BothChannels, EnsureOwner, OneOwner, Linked, ChannelName, Keyed;
    var r := BeforeMerging(b, w, now);
    var m := People.MergeByPhone(r, phones).0;
    OneOwnerStays(b, w, now, phones);
    HiddenStaysHidden(b, w, now, phones);
    KeepsLinked(b, Populate.PopulatePeople(b, w, now, phones).0);
    PassLinked(b, w, now);
    PassKeyed(b, w, now);
    KeyedMerged(r, phones);
    NamesKeyed(m, w);
  }

  lemma NamesKeyed(b: Book, w: World)
    requires Keyed(b)
    ensures Keyed(RefreshNames(b, w).0)
  {
    hide ChannelName;
  }

  lemma NoPhone(b: Book)
    ensures HiddenByPhone(b, None).None?
  {
  }

  // ---- the primary keys of the identities ----

  lemma LinkKeyed(b: Book, p: PersonId, key: IdKey, name: Option<string>, phone: Option<string>, now: Time)
    requires Keyed(b)
    ensures Keyed(Populate.LinkIdentity(b, p, key, name, phone, now).0)
  {
    hide Trim, NormalizePhone, PhoneFromJid;
  }

  lemma {:induction false} FoldKeyed(b: Book, holders: seq<PersonId>, row: PersonId)
    requires Keyed(b)
    ensures Keyed(FoldInto(b, holders, row))
  {
    if holders != [] {
      FoldKeyed(b, holders[..|holders| - 1], row);
    }
  }

  lemma {:induction false} LinkAllKeyed(b: Book, row: PersonId, accounts: seq<IdKey>, now: Time)
    requires Keyed(b)
    ensures Keyed(LinkAll(b, row, accounts, now))
  {
    hide Populate.LinkIdentity, Keyed;
    if accounts != [] {
      LinkAllKeyed(b, row, accounts[..|accounts| - 1], now);
      LinkKeyed(LinkAll(b, row, accounts[..|accounts| - 1], now), row, accounts[|accounts| - 1], None, None, now);
    }
  }

  lemma {:induction false} CandidatesKeyed(b: Book, before: Book, network: Network, cs: seq<Candidate>, w: World, now: Time)
    requires Keyed(b)
    ensures Keyed(Candidates(b, before, network, cs, w, now).0)
  {
    hide Populate.LinkIdentity, HiddenByPhone, Trim, ClampName, OwnSerials;
    if cs != [] {
      var mid, c := Candidates(b, before, network, cs[..|cs| - 1], w, now).0, cs[|cs| - 1];
      CandidatesKeyed(b, before, network, cs[..|cs| - 1], w, now);
      var key := IdKey(network, c.ext);
      if key !in b.ids && Nameable(c, w.usable) {
        if h :| HiddenByPhone(before, c.phone) == Some(h) {
          LinkKeyed(mid, h, key, c.displayName, c.phone, now);
        } else {
          var (made, p) := Populate.CreatePerson(mid, Trim(ClampName(c.displayName.value)), FromChannel, false, now);
          LinkKeyed(made, p, key, c.displayName, c.phone, now);
        }
      }
    }
  }

  lemma PassKeyed(b: Book, w: World, now: Time)
    requires Keyed(b)
    ensures Keyed(BeforeMerging(b, w, now))
  {
    hide LinkAll, FoldInto, Candidates, AccountHolders, Refreshed, Trim;
    var e := EnsureOwner(b, w, now);
    if w.accounts != [] {
      var holders := AccountHolders(b, w.accounts);
      var (b1, row) := OwnerRow(b, holders, w.ownerName, now);
      FoldKeyed(b1, holders, row);
      LinkAllKeyed(FoldInto(b1, holders, row), row, w.accounts, now);
    }
    CandidatesKeyed(e, e, Telegram, w.telegram, w, now);
    CandidatesKeyed(Candidates(e, e, Telegram, w.telegram, w, now).0, e, WhatsApp, w.whatsapp, w, now);
    RefreshedKeyed(BothChannels(e, w, now).0, w.contacts);
  }

  lemma RefreshedKeyed(b: Book, contacts: map<IdKey, seq<Synced>>)
    requires Keyed(b)
    ensures Keyed(Populate.RefreshIdentities(b, contacts))
  {
    hide Trim;
  }

  lemma HiddenNext(b: Book, seen: set<IdKey>, hidden: map<string, PersonId>, i: IdKey)
    requires Linked(b) && HiddenAmong(b, seen, hidden) && i in b.ids
    ensures var p, x := b.ids[i].person, b.ids[i].phone;
      HiddenAmong(b, seen + {i},
        if x.Some? && x.value != "" && b.people[p].archived &&
           (x.value !in hidden || (hidden[x.value] != p && Older(b, p, hidden[x.value])))
        then hidden[x.value := p] else hidden)
  {
    forall x { HidersNext(b, seen, x, i); }
    assert b.ids[i].person in b.people;
    hide HidersAmong, Linked;
  }

  lemma HidersNext(b: Book, seen: set<IdKey>, x: string, i: IdKey)
    requires i in b.ids && b.ids[i].person in b.people
    ensures HidersAmong(b, seen + {i}, x) ==
      HidersAmong(b, seen, x) + if HasPhone(b.ids[i], x) && b.people[b.ids[i].person].archived then {b.ids[i].person} else {}
  {
    var p := b.ids[i].person;
    var more := if HasPhone(b.ids[i], x) && b.people[p].archived then {p} else {};
    forall q ensures q in HidersAmong(b, seen + {i}, x) <==> q in HidersAmong(b, seen, x) + more {
      if q in HidersAmong(b, seen, x) {
        var j :| j in seen && j in b.ids && HasPhone(b.ids[j], x) && b.ids[j].person == q && q in b.people && b.people[q].archived;
        assert j in seen + {i};
      }
      if q in more {
        assert i in seen + {i};
      }
    }
  }

  lemma HiddenDone(b: Book, hidden: map<string, PersonId>, x: string)
    requires HiddenAmong(b, b.ids.Keys, hidden)
    ensures HiddenByPhone(b, Some(x)) == Get(hidden, x)
  {
    assert HidersAmong(b, b.ids.Keys, x) == HiddenHolders(b, x);
    hide HidersAmong, HiddenHolders;
    if x in hidden {
      OldestUnique(b, HiddenHolders(b, x), hidden[x]);
    }
  }

  lemma OldestAlone(b: Book, p: PersonId)
    requires p in b.people
    ensures IsOldest(b, {p}, p)
  {
  }

  lemma OldestNext(b: Book, seen: set<PersonId>, eldest: PersonId, p: PersonId)
    requires seen <= b.people.Keys && IsOldest(b, seen, eldest) && p in b.people && p !in seen
    ensures IsOldest(b, seen + {p}, if Older(b, p, eldest) then p else eldest)
  {
  }

  lemma OldestUnique(b: Book, s: set<PersonId>, p: PersonId)
    requires s <= b.people.Keys && IsOldest(b, s, p)
    ensures s != {} && Oldest(b, s) == p
  {
  }

  lemma NothingMerged(b: Book, snapshot: Book, survivor: PersonId)
    ensures MergeInto(b, [], survivor) == (b, 0) && Ranked(snapshot, {}) == []
  {
  }

  lemma RankedStep(b: Book, s: set<PersonId>)
    requires s != {} && s <= b.people.Keys
    ensures Ranked(b, s) == [Oldest(b, s)] + Ranked(b, s - {Oldest(b, s)})
  {
  }

  lemma OneMoreMerged(b: Book, done: seq<PersonId>, p: PersonId, survivor: PersonId)
    ensures var (b1, n) := MergeInto(b, done, survivor); var (b2, ok) := People.MergePeople(b1, p, survivor);
      MergeInto(b, done + [p], survivor) == (b2, n + if ok then 1 else 0)
  {
    hide People.MergePeople;
    assert (done + [p])[..|done|] == done;
  }

  lemma NoRows(b: Book)
    ensures Grouping(b, [], map[], [])
  {
  }

  /** Once every row is in: the groups are the holders, and no bridged number is missing. */
  lemma AllGrouped(b: Book, rows: seq<IdKey>, groups: map<string, Group>, order: seq<string>)
    requires Grouping(b, rows, groups, order) && forall i :: i in b.ids ==> i in rows
    ensures forall x :: x in order <==> x in groups
    ensures forall x :: x in groups ==> groups[x] == Group(HoldersOn(b, Telegram, x), HoldersOn(b, WhatsApp, x))
    ensures Lists(b, order)
  {
    hide HoldersAmong, HoldersOn, Holders;
    hide Numbers;
    forall x, n ensures HoldersAmong(b, rows, n, x) == HoldersOn(b, n, x) {
      AmongAll(b, rows, n, x);
    }
    forall x ensures x in order <==> x in Numbers(b) {
      NumbersAreHeld(b, x);
    }
  }

  lemma BornKnown(b: Book, rows: seq<IdKey>, born: map<PersonId, Time>)
    requires forall i :: i in b.ids ==> i in rows
    requires forall j :: 0 <= j < |rows| && Selected(b, rows[j]) ==> b.ids[rows[j]].person in born
    ensures forall x, p :: p in Holders(b, x) ==> p in born
  {
    forall x, p | p in Holders(b, x) ensures p in born {
      var i :| i in b.ids && HasPhone(b.ids[i], x) && Contact(b, p) && b.ids[i].person == p;
      var j :| 0 <= j < |rows| && rows[j] == i;
      assert Selected(b, rows[j]);
    }
  }
}
