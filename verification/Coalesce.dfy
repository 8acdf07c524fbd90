/** lib/services/media.ts coalesceRuns: one run at a time, and one trailing rerun, as a machine of microtask steps. */
module Coalesce {
  import opened Prelude

  /**
    * Running: a call of fn is in flight. Landed: it resolved and its continuation is queued. Ending and Failing: the
    * cycle's promise is settled and the final reset is queued.
    */
  datatype Phase = Idle | Running | Landed | Ending | Failing

  datatype State = State(phase: Phase, rerun: bool, inFlight: nat, kicks: nat, starts: nat, waiting: set<nat>)

  const START := State(Idle, false, 0, 0, 0, {})

  datatype Event = Kick | Resolve | Reject | Continue | Reset

  predicate Enabled(s: State, e: Event) {
    match e
    case Kick => true
    case Resolve => s.inFlight > 0
    case Reject => s.inFlight > 0
    case Continue => s.phase == Landed
    case Reset => s.phase == Ending || s.phase == Failing
  }

  /** Does the event call fn? */
  predicate StartsRun(s: State, e: Event) {
    (e == Kick && s.phase == Idle) || (e == Continue && s.rerun)
  }

  function Step(s: State, e: Event): State
    requires Enabled(s, e)
  {
    match e
    case Kick =>
      var t := s.(kicks := s.kicks + 1, waiting := s.waiting + {s.kicks});
      if s.phase == Idle then t.(phase := Running, inFlight := s.inFlight + 1, starts := s.starts + 1)
      else t.(rerun := true)
    case Resolve => s.(phase := Landed, inFlight := s.inFlight - 1)
    case Reject => s.(phase := Failing, inFlight := s.inFlight - 1)
    case Continue =>
      if s.rerun then s.(phase := Running, rerun := false, inFlight := s.inFlight + 1, starts := s.starts + 1)
      else s.(phase := Ending)
    // Settling the shared promise settles every caller that joined it.
    case Reset => s.(phase := Idle, rerun := false, waiting := {})
  }

  /** The state after a trace, when every event in it was possible. */
  function After(es: seq<Event>): Option<State> {
    if es == [] then Some(START)
    else
      var s := After(es[..|es| - 1]);
      if s.Some? && Enabled(s.value, es[|es| - 1]) then Some(Step(s.value, es[|es| - 1])) else None
  }

  predicate Possible(es: seq<Event>) {
    After(es).Some?
  }

  function At(es: seq<Event>, i: nat): State
    requires i <= |es| && Possible(es[..i])
  {
    After(es[..i]).value
  }

  ghost predicate Sane(s: State) {
    && s.inFlight == (if s.phase == Running then 1 else 0)
    && s.starts + (if s.rerun then 1 else 0) <= s.kicks
    && (s.phase == Idle <==> s.waiting == {})
    && (s.phase == Idle ==> !s.rerun)
    && (forall c :: c in s.waiting ==> c < s.kicks)
  }

  lemma StepSane(s: State, e: Event)
    requires Sane(s) && Enabled(s, e)
    ensures Sane(Step(s, e))
  {
    if e == Kick {
      assert s.kicks in Step(s, e).waiting;
    }
  }

  lemma {:induction false} PrefixPossible(es: seq<Event>, i: nat)
    requires Possible(es) && i <= |es|
    ensures Possible(es[..i])
  {
    if i == |es| {
      assert es[..i] == es;
    } else {
      PrefixPossible(es[..|es| - 1], i);
      assert es[..|es| - 1][..i] == es[..i];
    }
  }

  lemma NextState(es: seq<Event>, i: nat)
    requires Possible(es) && i < |es|
    ensures Possible(es[..i]) && Possible(es[..i + 1]) && Enabled(At(es, i), es[i]) && At(es, i + 1) == Step(At(es, i), es[i])
  {
    PrefixPossible(es, i);
    PrefixPossible(es, i + 1);
    assert es[..i + 1][..i] == es[..i];
  }

  /** Where fn is called: at a kick that finds nothing running, and where a cycle goes round again. */
  function CallsAt(es: seq<Event>): set<nat> {
    set k: nat | k < |es| && Possible(es[..k]) &&
      ((es[k] == Kick && At(es, k).phase == Idle) || (es[k] == Continue && At(es, k).rerun))
  }

  function EventsAt(es: seq<Event>, some: set<Event>): set<nat> {
    set k: nat | k < |es| && es[k] in some
  }

  lemma CallsNext(es: seq<Event>)
    requires Possible(es) && es != []
    ensures Possible(es[..|es| - 1])
    ensures var n := |es| - 1; CallsAt(es) == CallsAt(es[..n]) + if StartsRun(At(es, n), es[n]) then {n} else {}
  {
    var n := |es| - 1;
    PrefixPossible(es, n);
    assert forall k: nat :: k < n ==> es[..n][..k] == es[..k] && es[..n][k] == es[k];
  }

  lemma EventsNext(es: seq<Event>, some: set<Event>)
    requires es != []
    ensures var n := |es| - 1; |EventsAt(es, some)| == |EventsAt(es[..n], some)| + if es[n] in some then 1 else 0
  {
    var n := |es| - 1;
    assert EventsAt(es, some) == EventsAt(es[..n], some) + if es[n] in some then {n} else {};
  }

  /** In every interleaving: every call is counted, and is in flight until it resolves or rejects. */
  lemma {:induction false} CallsBalance(es: seq<Event>)
    requires Possible(es)
    ensures var s := After(es).value;
      && s.starts == |CallsAt(es)| && s.kicks == |EventsAt(es, {Kick})|
      && s.starts == s.inFlight + |EventsAt(es, {Resolve, Reject})|
  {
    if es != [] {
      var n := |es| - 1;
      NextState(es, n);
      assert es[..n + 1] == es;
      CallsBalance(es[..n]);
      CallsNext(es);
      EventsNext(es, {Kick});
      EventsNext(es, {Resolve, Reject});
      hide CallsAt, EventsAt;
      CountOneMore(CallsAt(es[..n]), n);
    }
  }

  lemma CountOneMore(s: set<nat>, n: nat)
    ensures n !in s ==> |s + {n}| == |s| + 1
  {
  }

  /** In every interleaving: at most one call in flight, no more calls than kicks, and callers wait exactly while a cycle runs. */
  lemma {:induction false} AlwaysSane(es: seq<Event>)
    requires Possible(es)
    ensures Sane(After(es).value)
  {
    if es != [] {
      NextState(es, |es| - 1);
      assert es[..|es|] == es;
      AlwaysSane(es[..|es| - 1]);
      StepSane(After(es[..|es| - 1]).value, es[|es| - 1]);
    }
  }

  ghost predicate NoReject(es: seq<Event>, i: nat, j: nat) {
    forall k :: i <= k < j && k < |es| ==> es[k] != Reject
  }

  ghost predicate RunStartsBetween(es: seq<Event>, i: nat, j: nat)
    requires Possible(es) && j <= |es|
  {
    exists k :: i < k < j && Possible(es[..k]) && StartsRun(At(es, k), es[k])
  }

  /** A rerun is wanted and the cycle has not been settled. */
  predicate Wanted(s: State) {
    (s.phase == Running || s.phase == Landed) && s.rerun
  }

  lemma WantedStays(s: State, e: Event)
    requires Enabled(s, e) && e != Reject && !StartsRun(s, e)
    requires Wanted(s) || (e == Kick && (s.phase == Running || s.phase == Landed))
    ensures Wanted(Step(s, e))
  {
  }

  /** A kick that finds a run not yet continued from: until a later run starts, the cycle cannot end. */
  lemma {:induction false} KickRemembered(es: seq<Event>, i: nat, j: nat)
    requires Possible(es) && i < j <= |es| && es[i] == Kick && NoReject(es, i, j)
    requires Possible(es[..i]) && (At(es, i).phase == Running || At(es, i).phase == Landed)
    ensures Possible(es[..j])
    ensures RunStartsBetween(es, i, j) || Wanted(At(es, j))
  {
    hide Step, Enabled, Wanted, After;
    NextState(es, j - 1);
    var s := At(es, j - 1);
    if j > i + 1 {
      KickRemembered(es, i, j - 1);
    }
    if j > i + 1 && StartsRun(s, es[j - 1]) {
      assert i < j - 1 < j;
    } else if j == i + 1 || Wanted(s) {
      WantedStays(s, es[j - 1]);
    }
  }

  /** Absent a rejection, a kick that lands before the running call's continuation is followed by a run. */
  lemma KickIsServed(es: seq<Event>, i: nat)
    requires Possible(es) && i < |es| && es[i] == Kick && NoReject(es, i, |es|)
    requires Possible(es[..i]) && (At(es, i).phase == Running || At(es, i).phase == Landed)
    requires After(es).value.phase == Idle || After(es).value.phase == Ending
    ensures RunStartsBetween(es, i, |es|)
  {
    KickRemembered(es, i, |es|);
    assert es[..|es|] == es;
  }

  /** Once a cycle is settled, nothing starts before the reset, and the reset forgets every kick. */
  lemma {:induction false} KickIsDropped(es: seq<Event>, i: nat, j: nat)
    requires Possible(es) && i <= j <= |es| && Possible(es[..i])
    requires At(es, i).phase == Ending || At(es, i).phase == Failing
    requires forall k :: i <= k < j ==> es[k] != Reset
    ensures Possible(es[..j]) && At(es, j).phase == At(es, i).phase && At(es, j).starts == At(es, i).starts
    ensures !Enabled(At(es, j), Resolve) && !Enabled(At(es, j), Continue)
    ensures Step(At(es, j), Reset) == At(es, j).(phase := Idle, rerun := false, waiting := {})
  {
    PrefixPossible(es, j);
    AlwaysSane(es[..j]);
    if j > i {
      KickIsDropped(es, i, j - 1);
      NextState(es, j - 1);
    }
  }

  lemma OneMore(es: seq<Event>, s: State, e: Event)
    requires After(es) == Some(s) && Enabled(s, e)
    ensures After(es + [e]) == Some(Step(s, e))
  {
    hide Step;
    assert (es + [e])[..|es|] == es;
  }

  /** Such a kick exists: two kicks, one run, and the reset forgets the second. */
  lemma AKickIsDropped()
    ensures After([Kick, Resolve, Continue, Kick, Reset]) == Some(State(Idle, false, 0, 2, 1, {}))
  {
    OneMore([], START, Kick);
    OneMore([] + [Kick], Step(START, Kick), Resolve);
    hide After;
    var landed := Step(Step(START, Kick), Resolve);
    OneMore([] + [Kick] + [Resolve], landed, Continue);
    OneMore([] + [Kick] + [Resolve] + [Continue], Step(landed, Continue), Kick);
    OneMore([] + [Kick] + [Resolve] + [Continue] + [Kick], Step(Step(landed, Continue), Kick), Reset);
    assert [] + [Kick] + [Resolve] + [Continue] + [Kick] + [Reset] == [Kick, Resolve, Continue, Kick, Reset];
  }

  /** A caller that joined settles with the last run of its cycle: nothing is then in flight. */
  lemma JoinedSettleLast(es: seq<Event>, i: nat)
    requires Possible(es) && i < |es| && Possible(es[..i])
    requires At(es, i).waiting != {} && Possible(es[..i + 1]) && At(es, i + 1).waiting == {}
    ensures es[i] == Reset && At(es, i).inFlight == 0 && At(es, i + 1).phase == Idle
    ensures !Enabled(At(es, i), Continue)
  {
    NextState(es, i);
    AlwaysSane(es[..i]);
    AlwaysSane(es[..i + 1]);
  }

  /** The closure: the two captured variables, and what the promises hold. */
  class Coalescer {
    var phase: Phase
    var rerun: bool
    var inFlight: nat
    var kicks: nat
    var starts: nat
    var waiting: set<nat>

    ghost function View(): State
      reads this
    {
      State(phase, rerun, inFlight, kicks, starts, waiting)
    }

    constructor ()
      ensures View() == START
    {
      phase, rerun, inFlight, kicks, starts, waiting := Idle, false, 0, 0, 0, {};
    }

    method CallFn()
      modifies this`phase, this`inFlight, this`starts
      ensures phase == Running && inFlight == old(inFlight) + 1 && starts == old(starts) + 1
    {
      phase, inFlight, starts := Running, inFlight + 1, starts + 1;
    }

    method Kick()
      requires Sane(View())
      modifies this
      ensures Sane(View()) && View() == Step(old(View()), Event.Kick)
    {
      StepSane(View(), Event.Kick);
      waiting := waiting + {kicks};
      kicks := kicks + 1;
      if phase != Idle {
        rerun := true;
        return;
      }
      CallFn();
    }

    method Settle(resolved: bool)
      requires Sane(View()) && inFlight > 0
      modifies this`phase, this`inFlight
      ensures Sane(View()) && View() == Step(old(View()), if resolved then Resolve else Reject)
    {
      phase, inFlight := if resolved then Landed else Failing, inFlight - 1;
    }

    method Continue()
      requires Sane(View()) && phase == Landed
      modifies this`phase, this`rerun, this`inFlight, this`starts
      ensures Sane(View()) && View() == Step(old(View()), Event.Continue)
    {
      if rerun {
        rerun := false;
        CallFn();
      } else {
        phase := Ending;
      }
    }

    method Finally()
      requires Sane(View()) && (phase == Ending || phase == Failing)
      modifies this`phase, this`rerun, this`waiting
      ensures Sane(View()) && View() == Step(old(View()), Reset)
    {
      phase, rerun, waiting := Idle, false, {};
    }
  }
}
