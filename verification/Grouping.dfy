/** lib/transcript.ts groupRuns and groupByDate: the one way to cut a transcript into maximal runs. */
module Grouping {
  import opened Prelude

  datatype Sender = Sender(id: string, name: string)

  datatype Message = Message(fromOwner: bool, senderName: Option<string>, person: Option<Sender>, channelName: Option<string>, sentAt: Time)

  /** The prefixes me, person: and them: never collide. */
  datatype Key = Me | Person(id: string) | Them(name: string)

  datatype Run = Run(key: Key, senderLabel: string, rawLabel: Option<string>, isMe: bool, messages: seq<Message>)

  const UNKNOWN := "Unknown"

  function Stored(m: Message): string {
    if m.senderName.Some? then m.senderName.value else UNKNOWN
  }

  function Shown(m: Message): Option<Sender> {
    if m.fromOwner then None else m.person
  }

  function KeyOf(m: Message): Key {
    if m.fromOwner then Me else if m.person.Some? then Person(m.person.value.id) else Them(Stored(m))
  }

  /** The run a message opens: its labels are those of its first message. */
  function Opened(m: Message): Run {
    var p := Shown(m);
    Run(KeyOf(m), if p.Some? then p.value.name else Stored(m),
        if p.Some? && m.channelName.Some? && m.channelName.value != "" && m.channelName.value != p.value.name then m.channelName else None,
        m.fromOwner, [m])
  }

  function Flatten(runs: seq<seq<Message>>): seq<Message> {
    if runs == [] then [] else Flatten(runs[..|runs| - 1]) + runs[|runs| - 1]
  }

  /** Runs of one key each, none empty, each as long as it can be. */
  ghost predicate MaximalRuns<K(!new)>(key: Message -> K, items: seq<Message>, runs: seq<seq<Message>>) {
    && Flatten(runs) == items
    && (forall i :: 0 <= i < |runs| ==> OneKey(key, runs[i]))
    && (forall i :: 0 < i < |runs| ==> key(runs[i - 1][0]) != key(runs[i][0]))
  }

  ghost predicate OneKey<K(!new)>(key: Message -> K, run: seq<Message>) {
    run != [] && forall j :: 0 <= j < |run| ==> key(run[j]) == key(run[0])
  }

  lemma FlattenLast(runs: seq<seq<Message>>, run: seq<Message>)
    ensures Flatten(runs + [run]) == Flatten(runs) + run
  {
    assert (runs + [run])[..|runs|] == runs;
  }

  /** Extending the last run, or opening the next. */
  lemma Extends<K(!new)>(key: Message -> K, items: seq<Message>, runs: seq<seq<Message>>, m: Message)
    requires MaximalRuns(key, items, runs)
    ensures runs != [] && key(runs[|runs| - 1][0]) == key(m) ==>
      MaximalRuns(key, items + [m], runs[..|runs| - 1] + [runs[|runs| - 1] + [m]])
    ensures runs == [] || key(runs[|runs| - 1][0]) != key(m) ==> MaximalRuns(key, items + [m], runs + [[m]])
  {
    FlattenLast(runs, [m]);
    if runs != [] {
      FlattenLast(runs[..|runs| - 1], runs[|runs| - 1] + [m]);
      assert Flatten(runs[..|runs| - 1]) + (runs[|runs| - 1] + [m]) == items + [m];
    }
  }

  /** Where the last run is short, the message before it belongs to another key. */
  lemma BeforeLastRun<K(!new)>(key: Message -> K, items: seq<Message>, runs: seq<seq<Message>>)
    requires MaximalRuns(key, items, runs) && runs != []
    ensures var last := runs[|runs| - 1]; var n := |items| - |last|;
      0 <= n < |items| && items[n..] == last && items[..n] == Flatten(runs[..|runs| - 1]) &&
      (n > 0 ==> key(items[n - 1]) != key(last[0]))
  {
    var front, last := runs[..|runs| - 1], runs[|runs| - 1];
    assert OneKey(key, last);
    if front != [] {
      var prev := front[|front| - 1];
      assert prev == runs[|runs| - 1 - 1] && OneKey(key, prev);
      assert Flatten(front)[|Flatten(front)| - 1] == prev[|prev| - 1];
    }
  }

  lemma LastRunNotShorter<K(!new)>(key: Message -> K, items: seq<Message>, a: seq<seq<Message>>, b: seq<seq<Message>>)
    requires MaximalRuns(key, items, a) && MaximalRuns(key, items, b) && a != [] && b != []
    ensures |a[|a| - 1]| >= |b[|b| - 1]|
  {
    BeforeLastRun(key, items, a);
    BeforeLastRun(key, items, b);
    var la, lb := a[|a| - 1], b[|b| - 1];
    assert OneKey(key, la) && OneKey(key, lb);
    hide MaximalRuns, OneKey;
    EndsTogether(key, items, |items| - |la|, la, |items| - |lb|, lb);
  }

  lemma KeyWithin<K(!new)>(key: Message -> K, items: seq<Message>, n: nat, run: seq<Message>, k: nat)
    requires n <= k < |items| && items[n..] == run && OneKey(key, run)
    ensures key(items[k]) == key(run[0])
  {
    assert items[k] == run[k - n];
  }

  /** A run that begins where the key changes reaches at least as far back as any other run with the same end. */
  lemma EndsTogether<K(!new)>(key: Message -> K, items: seq<Message>, n: nat, la: seq<Message>, m: nat, lb: seq<Message>)
    requires n < |items| && m < |items| && items[n..] == la && items[m..] == lb && OneKey(key, la) && OneKey(key, lb)
    requires n > 0 ==> key(items[n - 1]) != key(la[0])
    ensures n <= m
  {
    KeyWithin(key, items, n, la, n);
    if n > m {
      KeyWithin(key, items, m, lb, n);
    }
  }

  lemma FrontMaximal<K(!new)>(key: Message -> K, items: seq<Message>, runs: seq<seq<Message>>)
    requires MaximalRuns(key, items, runs) && runs != []
    ensures MaximalRuns(key, items[..|items| - |runs[|runs| - 1]|], runs[..|runs| - 1])
  {
    BeforeLastRun(key, items, runs);
  }

  /** There is only one way to do it. */
  lemma {:induction false} RunsUnique<K(!new)>(key: Message -> K, items: seq<Message>, a: seq<seq<Message>>, b: seq<seq<Message>>)
    requires MaximalRuns(key, items, a) && MaximalRuns(key, items, b)
    ensures a == b
    decreases |items|
  {
    if items == [] {
      NoItemsNoRuns(key, a);
      NoItemsNoRuns(key, b);
    } else {
      assert a != [] && b != [];
      LastRunNotShorter(key, items, a, b);
      LastRunNotShorter(key, items, b, a);
      BeforeLastRun(key, items, a);
      BeforeLastRun(key, items, b);
      FrontMaximal(key, items, a);
      FrontMaximal(key, items, b);
      var n := |items| - |a[|a| - 1]|;
      RunsUnique(key, items[..n], a[..|a| - 1], b[..|b| - 1]);
      assert a == a[..|a| - 1] + [a[|a| - 1]] && b == b[..|b| - 1] + [b[|b| - 1]];
    }
  }

  lemma NoItemsNoRuns<K(!new)>(key: Message -> K, runs: seq<seq<Message>>)
    requires MaximalRuns(key, [], runs)
    ensures runs == []
  {
    if runs != [] {
      BeforeLastRun(key, [], runs);
    }
  }

  lemma NothingYet<K(!new)>(key: Message -> K)
    ensures MaximalRuns(key, [], [])
  {
  }

  // ---- the loops ----

  function Messages(runs: seq<Run>): seq<seq<Message>> {
    seq(|runs|, i requires 0 <= i < |runs| => runs[i].messages)
  }

  /** Each run is labelled by its first message. */
  ghost predicate Labelled(runs: seq<Run>) {
    forall i :: 0 <= i < |runs| ==>
      runs[i].messages != [] && runs[i] == Opened(runs[i].messages[0]).(messages := runs[i].messages)
  }

  method GroupRuns(items: seq<Message>) returns (runs: seq<Run>)
    ensures MaximalRuns(KeyOf, items, Messages(runs)) && Labelled(runs)
  {
    hide MaximalRuns, Shown, Stored;
    NothingYet(KeyOf);
    runs := [];
    assert Messages(runs) == [];
    assert items[..0] == [];
    for i := 0 to |items|
      invariant MaximalRuns(KeyOf, items[..i], Messages(runs)) && Labelled(runs)
    {
      var m := items[i];
      ghost var before := Messages(runs);
      Extends(KeyOf, items[..i], before, m);
      assert items[..i + 1] == items[..i] + [m];
      var n := |runs|;
      if n > 0 && runs[n - 1].key == KeyOf(m) {
        var last := runs[n - 1];
        runs := runs[..n - 1] + [last.(messages := last.messages + [m])];
        assert Messages(runs) == before[..n - 1] + [before[n - 1] + [m]];
      } else {
        runs := runs + [Opened(m)];
        assert Messages(runs) == before + [[m]];
      }
    }
    assert items[..|items|] == items;
  }

  // ---- what a run says about its messages ----

  predicate OneSpeaker(a: Message, b: Message) {
    if a.fromOwner || b.fromOwner then a.fromOwner && b.fromOwner
    else if a.person.Some? || b.person.Some? then a.person.Some? && b.person.Some? && a.person.value.id == b.person.value.id
    else a.senderName == b.senderName || (Nameless(a) && Nameless(b))
  }

  predicate Nameless(m: Message) {
    m.senderName == None || m.senderName == Some("Unknown")
  }

  /**
    * Everything in a run is by one speaker, and the next run by another. A run without a person carries the stored name
    * of each of its messages; a person's run carries the name the address book had for the first, with the channel's own
    * name beside it only where that says something else.
    */
  lemma RunsSpeak(items: seq<Message>, runs: seq<Run>, i: nat, m: Message)
    requires MaximalRuns(KeyOf, items, Messages(runs)) && Labelled(runs) && i < |runs| && m in runs[i].messages
    ensures var run := runs[i]; var first := run.messages[0];
      && OneSpeaker(first, m) && run.isMe == m.fromOwner
      && (i > 0 ==> !OneSpeaker(runs[i - 1].messages[0], m))
      && (if m.fromOwner || m.person.None? then
            var who := if m.fromOwner then first else m;
            run.rawLabel == None && run.senderLabel == (if who.senderName.Some? then who.senderName.value else "Unknown")
          else
            first.person.Some? && run.senderLabel == first.person.value.name &&
            run.rawLabel == if first.channelName in {None, Some(""), Some(run.senderLabel)} then None else first.channelName)
  {
    assert OneKey(KeyOf, Messages(runs)[i]);
    if i > 0 {
      assert KeyOf(Messages(runs)[i - 1][0]) != KeyOf(Messages(runs)[i][0]);
    }
    hide MaximalRuns;
  }

  datatype Day = Day(dateLabel: string, messages: seq<Message>)

  function DayMessages(days: seq<Day>): seq<seq<Message>> {
    seq(|days|, i requires 0 <= i < |days| => days[i].messages)
  }

  /** `heading` is the date of an instant in the instance's timezone. */
  method GroupByDate(items: seq<Message>, heading: Time -> string) returns (days: seq<Day>)
    ensures MaximalRuns((m: Message) => heading(m.sentAt), items, DayMessages(days))
    ensures forall i :: 0 <= i < |days| ==> days[i].messages != [] && days[i].dateLabel == heading(days[i].messages[0].sentAt)
  {
    hide MaximalRuns;
    ghost var key := (m: Message) => heading(m.sentAt);
    NothingYet(key);
    days := [];
    assert DayMessages(days) == [];
    assert items[..0] == [];
    for i := 0 to |items|
      invariant MaximalRuns(key, items[..i], DayMessages(days))
      invariant forall j :: 0 <= j < |days| ==> days[j].messages != [] && days[j].dateLabel == heading(days[j].messages[0].sentAt)
    {
      var m := items[i];
      ghost var before := DayMessages(days);
      Extends(key, items[..i], before, m);
      assert items[..i + 1] == items[..i] + [m];
      var n := |days|;
      if n > 0 && days[n - 1].dateLabel == heading(m.sentAt) {
        var last := days[n - 1];
        days := days[..n - 1] + [last.(messages := last.messages + [m])];
        assert DayMessages(days) == before[..n - 1] + [before[n - 1] + [m]];
      } else {
        days := days + [Day(heading(m.sentAt), [m])];
        assert DayMessages(days) == before + [[m]];
      }
    }
    assert items[..|items|] == items;
  }
}
