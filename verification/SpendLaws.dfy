/** Why an analysis ended as it did, what was paid for it, and what a day may cost. */
module SpendLaws {
  import opened Prelude
  import opened Paging
  import Queues
  import MediaQueue
  import opened Analysis

  // ---- what is paid is recorded, and the other way round ----

  function Billed(o: Outcome): Option<nat> {
    match o
    case Result(cost) => Some(cost)
    case Skip(billed) => billed
    case Fault(billed) => billed
    case Unwritten => None
  }

  /** Event j worked on row i, and ended so. */
  ghost predicate WorkedAt(ds: seq<Drain>, es: seq<Event>, j: nat, i: Queues.JobId, o: Outcome) {
    j < |es| && j < |ds| && es[j] == Work(o) && ds[j].pass.Some? && ds[j].pass.value.todo != [] &&
    ds[j].pass.value.todo[0].id == i && i in ds[j].rows
  }

  /** What one event makes of a row that is there before and after. */
  lemma EventDecides(ds: seq<Drain>, es: seq<Event>, limit: nat, batch: nat, maxAttempts: nat, j: nat, i: Queues.JobId)
    requires Run(ds, es, limit, batch, maxAttempts) && j < |es| && i in ds[j].rows && i in ds[j + 1].rows
    ensures var e, f := ds[j].rows[i], ds[j + 1].rows[i];
      && f.medium == e.medium && f.created == e.created
      && if es[j].Work? && WorkedAt(ds, es, j, i, es[j].outcome) && es[j].outcome != Unwritten then
           var o := es[j].outcome; var paid := Billed(o);
           && f.cost == (if paid.Some? then paid else e.cost)
           && f.attempts == e.attempts + (if o.Fault? then 1 else 0)
           && f.state == (if o.Result? then Finished else if o.Skip? then Skipped
                          else if e.attempts + 1 < maxAttempts then Waits else Broken)
           && f.completedAt == (if f.state != Waits || f.cost.Some? then Some(ds[j].now) else None)
         else f == e
  {
    assert Enabled(ds[j], es[j]) && ds[j + 1] == Step(ds[j], es[j], limit, batch, maxAttempts);
    hide FetchQueued, CountRecent;
  }

  /** The state and the cost of a row go back to work done on it. */
  ghost predicate Accounted(ds: seq<Drain>, es: seq<Event>, maxAttempts: nat, k: nat, i: Queues.JobId)
    requires k < |ds| && i in ds[k].rows
  {
    var e := ds[k].rows[i];
    && (e.cost.Some? ==> exists j: nat, o :: j < k && WorkedAt(ds, es, j, i, o) && Billed(o) == e.cost)
    && match e.state
       case Waits => e.attempts == 0 || e.attempts < maxAttempts
       case Finished =>
         e.cost.Some? && exists j: nat :: j < k && WorkedAt(ds, es, j, i, Result(e.cost.value)) && e.completedAt == Some(ds[j].now)
       case Skipped => exists j: nat, o :: j < k && WorkedAt(ds, es, j, i, o) && o.Skip? && e.completedAt == Some(ds[j].now)
       case Broken => e.attempts >= maxAttempts && exists j: nat, o :: j < k && WorkedAt(ds, es, j, i, o) && o.Fault?
  }

  lemma EventCreates(ds: seq<Drain>, es: seq<Event>, limit: nat, batch: nat, maxAttempts: nat, j: nat, i: Queues.JobId)
    requires Run(ds, es, limit, batch, maxAttempts) && j < |es| && i !in ds[j].rows && i in ds[j + 1].rows
    ensures ds[j + 1].rows[i] == Entry(ds[j + 1].rows[i].medium, Waits, 0, None, None, ds[j].now)
  {
    assert Enabled(ds[j], es[j]) && ds[j + 1] == Step(ds[j], es[j], limit, batch, maxAttempts);
    hide FetchQueued, CountRecent;
  }

  /**
    * In every run a finished row was paid for by a result, at the cost and the time the row says; a skipped row was
    * skipped then; a broken row has used up its attempts; and any cost is one that work on that row came to.
    */
  lemma {:induction false} SettledByWork(
      ds: seq<Drain>, es: seq<Event>, limit: nat, batch: nat, maxAttempts: nat, k: nat, i: Queues.JobId)
    requires Run(ds, es, limit, batch, maxAttempts) && k < |ds| && i in ds[k].rows
    ensures Accounted(ds, es, maxAttempts, k, i)
  {
    if k > 0 {
      var j := k - 1;
      if i in ds[j].rows {
        SettledByWork(ds, es, limit, batch, maxAttempts, j, i);
        EventDecides(ds, es, limit, batch, maxAttempts, j, i);
        hide Run;
        if es[j].Work? && WorkedAt(ds, es, j, i, es[j].outcome) {
          assert WorkedAt(ds, es, j, i, es[j].outcome);
        }
      } else {
        EventCreates(ds, es, limit, batch, maxAttempts, j, i);
      }
    }
  }

  // ---- the cap, and what a pass takes ----

  /** The rows paid for within the last twenty-four hours, in milliseconds. */
  function PaidLately(rows: Rows, now: Time): set<Queues.JobId> {
    set i | i in rows && rows[i].cost.Some? && rows[i].completedAt.Some? && now - rows[i].completedAt.value < 86_400_000
  }

  lemma PaidIsRecent(rows: Rows, now: Time)
    ensures |PaidLately(rows, now)| == CountRecent(rows, now)
  {
    assert PaidLately(rows, now) == RecentIds(rows, now);
  }

  lemma DaySpendIsCapped(ds: seq<Drain>, es: seq<Event>, limit: nat, batch: nat, maxAttempts: nat, k: nat)
    requires Run(ds, es, limit, batch, maxAttempts) && limit >= 1 && k < |ds|
    ensures |PaidLately(ds[k].rows, ds[k].now)| < limit + 2 * batch
  {
    SpendIsCapped(ds, es, limit, batch, maxAttempts, k);
    PaidIsRecent(ds[k].rows, ds[k].now);
  }

  /** A pass is let through exactly below the limit, with the media that are switched on. */
  lemma PassOpens(d: Drain, images: bool, audio: bool, limit: nat, batch: nat, maxAttempts: nat)
    requires d.pass.None?
    ensures var d1 := Step(d, Gate(images, audio), limit, batch, maxAttempts);
      && d1.rows == d.rows && d1.now == d.now && (d1.pass.Some? <==> |PaidLately(d.rows, d.now)| < limit)
      && (d1.pass.Some? ==>
            var p := d1.pass.value;
            p.todo == [] && Distinct(p.media) && (Image in p.media <==> images) && (Audio in p.media <==> audio))
  {
    PaidIsRecent(d.rows, d.now);
    hide PaidLately, CountRecent;
  }

  /**
    * A fetch that succeeds takes waiting rows of the next medium; a waiting row left out is younger than each of them, and
    * the batch is full. One that fails takes none.
    */
  lemma OldestAnalysedFirst(d: Drain, fails: bool, limit: nat, batch: nat, maxAttempts: nat, i: Queues.JobId)
    requires Enabled(d, Fetch(fails)) && i in d.rows
    ensures var p := Step(d, Fetch(fails), limit, batch, maxAttempts).pass.value; var k := MediaQueue.Ticket(d.rows[i].created, i);
      var waits := d.rows[i].state == Waits && d.rows[i].medium == d.pass.value.media[0];
      if fails then p.todo == []
      else if k in p.todo then waits
      else waits ==> |p.todo| == batch && forall o :: o in p.todo ==> o.created < k.created || (o.created == k.created && o.id < i)
  {
    assert StrictTotal(MediaQueue.ByAge);
    hide StrictTotal;
    var medium := d.pass.value.media[0];
    var waiting := QueuedTickets(d.rows, medium);
    var all := Sorted(MediaQueue.ByAge, waiting);
    var k := MediaQueue.Ticket(d.rows[i].created, i);
    assert d.rows[i].state == Waits && d.rows[i].medium == medium <==> k in waiting;
    hide Sorted, QueuedTickets;
    if k in all && k !in FetchQueued(d.rows, medium, batch) {
      var n: nat :| n < |all| && all[n] == k;
      assert FetchQueued(d.rows, medium, batch) == all[..batch] && batch <= n;
    }
  }

  // ---- the bound is met ----

  const ROW := Entry(Image, Waits, 0, None, None, 0)
  const PAID := Entry(Image, Finished, 0, Some(1), Some(0), 0)
  const FRESH: Rows := map[0 := ROW, 1 := ROW.(medium := Audio)]
  const HALF: Rows := map[0 := PAID, 1 := ROW.(medium := Audio)]
  const WHOLE: Rows := map[0 := PAID, 1 := PAID.(medium := Audio)]

  /** One image and one audio message, a limit of one, and batches of one. */
  const STEPS := [
    Enqueue(0, Image), Enqueue(1, Audio), Gate(true, true), Fetch(false), Work(Result(1)), Fetch(false), Work(Result(1)),
    Close, Tick(86_400_000)]

  const STATES := [
    Drain(map[], 0, None), Drain(map[0 := ROW], 0, None), Drain(FRESH, 0, None),
    Drain(FRESH, 0, Some(Pass([Image, Audio], [], 0))),
    Drain(FRESH, 0, Some(Pass([Audio], [MediaQueue.Ticket(0, 0)], 0))),
    Drain(HALF, 0, Some(Pass([Audio], [], 1))),
    Drain(HALF, 0, Some(Pass([], [MediaQueue.Ticket(0, 1)], 1))),
    Drain(WHOLE, 0, Some(Pass([], [], 2))), Drain(WHOLE, 0, None), Drain(WHOLE, 86_400_000, None)]

  lemma OneWaits(rows: Rows, medium: Medium, i: Queues.JobId)
    requires QueuedTickets(rows, medium) == {MediaQueue.Ticket(0, i)}
    ensures FetchQueued(rows, medium, 1) == [MediaQueue.Ticket(0, i)]
  {
    assert StrictTotal(MediaQueue.ByAge);
    SortedCounts(MediaQueue.ByAge, QueuedTickets(rows, medium));
  }

  lemma Fetches()
    ensures FetchQueued(FRESH, Image, 1) == [MediaQueue.Ticket(0, 0)] && FetchQueued(HALF, Audio, 1) == [MediaQueue.Ticket(0, 1)]
  {
    assert Queued(FRESH[0], Image) && Queued(HALF[1], Audio);
    assert QueuedTickets(FRESH, Image) == {MediaQueue.Ticket(0, 0)};
    OneWaits(FRESH, Image, 0);
    assert QueuedTickets(HALF, Audio) == {MediaQueue.Ticket(0, 1)};
    OneWaits(HALF, Audio, 1);
  }

  lemma Counts()
    ensures CountRecent(FRESH, 0) == 0 && |PaidLately(WHOLE, 0)| == 2 && |PaidLately(WHOLE, 86_400_000)| == 0
  {
    assert RecentIds(FRESH, 0) == {};
    assert PaidLately(WHOLE, 0) == {0, 1};
    assert PaidLately(WHOLE, 86_400_000) == {};
  }

  lemma StatesRun(k: nat)
    requires k < |STEPS|
    ensures Enabled(STATES[k], STEPS[k]) && STATES[k + 1] == Step(STATES[k], STEPS[k], 1, 1, 1)
  {
    Fetches();
    Counts();
    hide FetchQueued, CountRecent;
    assert map[0 := ROW][1 := ROW.(medium := Audio)] == FRESH && FRESH[0 := PAID] == HALF && HALF[1 := PAID.(medium := Audio)] == WHOLE;
    assert [Image] + [Audio] == [Image, Audio] && [Image, Audio][1..] == [Audio] && [Audio][1..] == [];
    assert [MediaQueue.Ticket(0, 0)][1..] == [] && [MediaQueue.Ticket(0, 1)][1..] == [];
  }

  /** The cap is met: with a limit of one, a pass over both media pays for two; a day later neither counts. */
  lemma BoundIsMet()
    ensures Run(STATES, STEPS, 1, 1, 1)
    ensures |PaidLately(STATES[7].rows, STATES[7].now)| == 1 - 1 + 2 * 1 && |PaidLately(STATES[9].rows, STATES[9].now)| == 0
  {
    Counts();
    forall k | 0 <= k < |STEPS| ensures Enabled(STATES[k], STEPS[k]) && STATES[k + 1] == Step(STATES[k], STEPS[k], 1, 1, 1) {
      StatesRun(k);
    }
    hide Enabled, Step, PaidLately;
  }
}
