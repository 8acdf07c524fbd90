/** lib/services/media-analysis.ts: the analysis queue drains, and what it spends in a day is bounded. */
module Analysis {
  import opened Prelude
  import opened Paging
  import opened Queues
  import opened MediaQueue

  datatype Medium = Image | Audio

  datatype State = Waits | Finished | Skipped | Broken

  datatype Entry = Entry(
    medium: Medium, state: State, attempts: nat, cost: Option<nat>, completedAt: Option<Time>, created: Time)

  type Rows = map<JobId, Entry>

  /**
    * What working on a row came to: a paid result; a skip, paid for or not; a fault, paid for or not; or a terminal
    * write that itself failed and left the row as it was.
    */
  datatype Outcome = Result(cost: nat) | Skip(billed: Option<nat>) | Fault(billed: Option<nat>) | Unwritten

  /** A row that carries a cost keeps a completion time, whatever happens to it next. */
  function AfterOutcome(e: Entry, o: Outcome, now: Time, maxAttempts: nat): Entry {
    match o
    case Result(cost) => e.(state := Finished, cost := Some(cost), completedAt := Some(now))
    case Skip(billed) => e.(state := Skipped, completedAt := Some(now), cost := if billed.Some? then billed else e.cost)
    case Fault(billed) =>
      var failed := e.attempts + 1 >= maxAttempts;
      var stamped := failed || billed.Some? || e.cost.Some?;
      e.(attempts := e.attempts + 1, state := if failed then Broken else Waits,
         completedAt := if stamped then Some(now) else None, cost := if billed.Some? then billed else e.cost)
    case Unwritten => e
  }

  predicate Queued(e: Entry, medium: Medium) {
    e.state == Waits && e.medium == medium
  }

  function QueuedTickets(rows: Rows, medium: Medium): set<Ticket> {
    set i | i in rows && Queued(rows[i], medium) :: Ticket(rows[i].created, i)
  }

  ghost function FetchQueued(rows: Rows, medium: Medium, batch: nat): seq<Ticket> {
    assert StrictTotal(ByAge);
    Take(Sorted(ByAge, QueuedTickets(rows, medium)), batch)
  }

  // ---- the rolling cap ----

  const DAY := 24 * 60 * 60 * 1000

  predicate Recent(e: Entry, now: Time) {
    e.cost.Some? && e.completedAt.Some? && e.completedAt.value > now - DAY
  }

  function RecentIds(rows: Rows, now: Time): set<JobId> {
    set i | i in rows && Recent(rows[i], now)
  }

  /** countRecentAnalyses. */
  function CountRecent(rows: Rows, now: Time): nat {
    |RecentIds(rows, now)|
  }

  /** A pass that has been let through the gate: media still to fetch, rows still to work on, rows worked on. */
  datatype Pass = Pass(media: seq<Medium>, todo: seq<Ticket>, worked: nat)

  datatype Drain = Drain(rows: Rows, now: Time, pass: Option<Pass>)

  /** Time passes; rows come and go; a pass asks at the gate, fetches a medium's batch, works on a row, ends. */
  datatype Event =
    | Tick(later: nat)
    | Enqueue(id: JobId, medium: Medium)
    | Vanish(id: JobId)
    | Gate(images: bool, audio: bool)
    | Fetch(fails: bool)
    | Work(outcome: Outcome)
    | Close

  predicate Enabled(d: Drain, e: Event) {
    match e
    case Tick(_) => true
    case Enqueue(id, _) => id !in d.rows
    case Vanish(_) => true
    case Gate(_, _) => d.pass.None?
    case Fetch(_) => d.pass.Some? && d.pass.value.todo == [] && d.pass.value.media != []
    case Work(_) => d.pass.Some? && d.pass.value.todo != []
    case Close => d.pass.Some? && d.pass.value.todo == [] && d.pass.value.media == []
  }

  ghost function Step(d: Drain, e: Event, limit: nat, batch: nat, maxAttempts: nat): Drain
    requires Enabled(d, e)
  {
    match e
    case Tick(later) => d.(now := d.now + later)
    case Enqueue(id, medium) => d.(rows := d.rows[id := Entry(medium, Waits, 0, None, None, d.now)])
    case Vanish(id) => d.(rows := d.rows - {id})
    case Gate(images, audio) =>
      if CountRecent(d.rows, d.now) >= limit then d
      else d.(pass := Some(Pass((if images then [Image] else []) + (if audio then [Audio] else []), [], 0)))
    case Fetch(fails) =>
      var p := d.pass.value;
      d.(pass := Some(p.(media := p.media[1..], todo := if fails then [] else FetchQueued(d.rows, p.media[0], batch))))
    case Work(o) =>
      var p := d.pass.value;
      var i := p.todo[0].id;
      d.(rows := if i in d.rows then d.rows[i := AfterOutcome(d.rows[i], o, d.now, maxAttempts)] else d.rows,
         pass := Some(p.(todo := p.todo[1..], worked := p.worked + 1)))
    case Close => d.(pass := None)
  }

  const START := Drain(map[], 0, None)

  /** Any run in which passes never overlap. */
  ghost predicate Run(ds: seq<Drain>, es: seq<Event>, limit: nat, batch: nat, maxAttempts: nat) {
    |ds| == |es| + 1 && ds[0].rows == map[] && ds[0].pass == None &&
    forall k :: 0 <= k < |es| ==> Enabled(ds[k], es[k]) && ds[k + 1] == Step(ds[k], es[k], limit, batch, maxAttempts)
  }

  ghost predicate Stamped(rows: Rows) {
    forall i :: i in rows && rows[i].cost.Some? ==> rows[i].completedAt.Some?
  }

  /** What a pass may still add, and what it has added. */
  ghost predicate WithinCap(d: Drain, limit: nat, batch: nat) {
    match d.pass
    case None => CountRecent(d.rows, d.now) <= limit - 1 + 2 * batch
    case Some(p) =>
      CountRecent(d.rows, d.now) <= limit - 1 + p.worked && p.worked + |p.todo| + Full(|p.media|, batch) <= 2 * batch
  }

  lemma ChangeOne(rows: Rows, rows1: Rows, now: Time, now1: Time, i: JobId)
    requires now <= now1 && forall j :: j != i && j in rows1 ==> j in rows && rows1[j] == rows[j]
    ensures CountRecent(rows1, now1) <= CountRecent(rows, now) + 1
    ensures (i in rows1 ==> rows1[i].cost.None?) ==> CountRecent(rows1, now1) <= CountRecent(rows, now)
  {
    var was, next := RecentIds(rows, now), RecentIds(rows1, now1);
    assert next <= was + {i};
    SubsetCardinality(next, was + {i});
    if i in rows1 ==> rows1[i].cost.None? {
      assert next <= was;
      SubsetCardinality(next, was);
    }
  }

  lemma StepWithinCap(d: Drain, e: Event, limit: nat, batch: nat, maxAttempts: nat)
    requires Enabled(d, e) && limit >= 1 && Stamped(d.rows) && WithinCap(d, limit, batch)
    ensures WithinCap(Step(d, e, limit, batch, maxAttempts), limit, batch)
  {
    hide AfterOutcome, FetchQueued, CountRecent;
    var d1 := Step(d, e, limit, batch, maxAttempts);
    match e
    case Tick(_) => ChangeOne(d.rows, d1.rows, d.now, d1.now, 0); ClockOnly(d.rows, d.now, d1.now);
    case Enqueue(i, _) => ChangeOne(d.rows, d1.rows, d.now, d1.now, i);
    case Vanish(i) => ChangeOne(d.rows, d1.rows, d.now, d1.now, i);
    case Gate(images, audio) => TwoBatches(images, audio, batch);
    case Fetch(fails) => FetchShort(d.rows, d.pass.value.media[0], batch);
    case Work(_) => ChangeOne(d.rows, d1.rows, d.now, d1.now, d.pass.value.todo[0].id);
    case Close =>
  }

  lemma ClockOnly(rows: Rows, now: Time, later: Time)
    requires now <= later
    ensures CountRecent(rows, later) <= CountRecent(rows, now)
  {
    assert RecentIds(rows, later) <= RecentIds(rows, now);
    SubsetCardinality(RecentIds(rows, later), RecentIds(rows, now));
  }

  lemma TwoBatches(images: bool, audio: bool, batch: nat)
    ensures Full(|(if images then [Image] else []) + (if audio then [Audio] else [])|, batch) <= 2 * batch
  {
    assert Full(0, batch) == 0 && Full(1, batch) == batch && Full(2, batch) == batch + batch;
  }

  lemma FetchShort(rows: Rows, medium: Medium, batch: nat)
    ensures |FetchQueued(rows, medium, batch)| <= batch
  {
  }

  lemma StepStamped(d: Drain, e: Event, limit: nat, batch: nat, maxAttempts: nat)
    requires Enabled(d, e) && Stamped(d.rows)
    ensures var d1 := Step(d, e, limit, batch, maxAttempts);
      Stamped(d1.rows) && forall i :: i in d.rows && i in d1.rows && d.rows[i].cost.Some? ==> d1.rows[i].cost.Some?
  {
    hide FetchQueued, CountRecent;
  }

  /** At every moment of every run the billed rows of the last day stay below the limit by at most two batches over. */
  lemma {:induction false} SpendIsCapped(ds: seq<Drain>, es: seq<Event>, limit: nat, batch: nat, maxAttempts: nat, k: nat)
    requires Run(ds, es, limit, batch, maxAttempts) && limit >= 1 && k < |ds|
    ensures Stamped(ds[k].rows) && WithinCap(ds[k], limit, batch)
    ensures CountRecent(ds[k].rows, ds[k].now) <= limit - 1 + 2 * batch
  {
    hide Step, Stamped, CountRecent, Enabled;
    if k == 0 {
      NoRows(ds[0].now);
    } else {
      SpendIsCapped(ds, es, limit, batch, maxAttempts, k - 1);
      assert Enabled(ds[k - 1], es[k - 1]) && ds[k - 1 + 1] == Step(ds[k - 1], es[k - 1], limit, batch, maxAttempts);
      StepWithinCap(ds[k - 1], es[k - 1], limit, batch, maxAttempts);
      StepStamped(ds[k - 1], es[k - 1], limit, batch, maxAttempts);
    }
  }

  lemma NoRows(now: Time)
    ensures CountRecent(map[], now) == 0 && Stamped(map[])
  {
    assert RecentIds(map[], now) == {};
  }

  /** A recorded cost is never unset while its row lasts, and always has a completion time. */
  lemma {:induction false} CostsStay(
      ds: seq<Drain>, es: seq<Event>, limit: nat, batch: nat, maxAttempts: nat, j: nat, k: nat, i: JobId)
    requires Run(ds, es, limit, batch, maxAttempts) && j <= k < |ds|
    requires forall n :: j <= n <= k ==> i in ds[n].rows
    requires ds[j].rows[i].cost.Some?
    ensures ds[k].rows[i].cost.Some? && Stamped(ds[k].rows)
  {
    hide Step, Enabled;
    if k > 0 {
      assert Enabled(ds[k - 1], es[k - 1]) && ds[k - 1 + 1] == Step(ds[k - 1], es[k - 1], limit, batch, maxAttempts);
      AlwaysStamped(ds, es, limit, batch, maxAttempts, k - 1);
      StepStamped(ds[k - 1], es[k - 1], limit, batch, maxAttempts);
      if j < k {
        CostsStay(ds, es, limit, batch, maxAttempts, j, k - 1, i);
      }
    }
  }

  lemma {:induction false} AlwaysStamped(ds: seq<Drain>, es: seq<Event>, limit: nat, batch: nat, maxAttempts: nat, k: nat)
    requires Run(ds, es, limit, batch, maxAttempts) && k < |ds|
    ensures Stamped(ds[k].rows)
  {
    hide Step, Enabled;
    if k > 0 {
      AlwaysStamped(ds, es, limit, batch, maxAttempts, k - 1);
      assert Enabled(ds[k - 1], es[k - 1]) && ds[k - 1 + 1] == Step(ds[k - 1], es[k - 1], limit, batch, maxAttempts);
      StepStamped(ds[k - 1], es[k - 1], limit, batch, maxAttempts);
    }
  }

  /** A limit of zero opens no pass, so nothing is ever billed. */
  lemma {:induction false} ZeroNeverBills(ds: seq<Drain>, es: seq<Event>, batch: nat, maxAttempts: nat, k: nat)
    requires Run(ds, es, 0, batch, maxAttempts) && k < |ds|
    ensures ds[k].pass.None? && forall i :: i in ds[k].rows ==> ds[k].rows[i].cost.None?
  {
    if k > 0 {
      ZeroNeverBills(ds, es, batch, maxAttempts, k - 1);
      assert Enabled(ds[k - 1], es[k - 1]) && ds[k - 1 + 1] == Step(ds[k - 1], es[k - 1], 0, batch, maxAttempts);
    }
  }

  // ---- the queue of one medium ----

  function AttemptsLeft(e: Entry, medium: Medium, maxAttempts: nat): nat {
    if !Queued(e, medium) then 0 else if e.attempts < maxAttempts then maxAttempts - e.attempts else 1
  }

  function QueueWeights(rows: Rows, medium: Medium, maxAttempts: nat): Weights {
    map i | i in rows :: AttemptsLeft(rows[i], medium, maxAttempts)
  }

  /** One pass over one medium, whatever the work on each row comes to. */
  ghost function PassOver(rows: Rows, medium: Medium, batch: nat, maxAttempts: nat, work: JobId -> (Outcome, Time)): Rows {
    Worked(rows, FetchQueued(rows, medium, batch), maxAttempts, work)
  }

  function Worked(rows: Rows, done: seq<Ticket>, maxAttempts: nat, work: JobId -> (Outcome, Time)): Rows {
    map i | i in rows ::
      if Ticket(rows[i].created, i) in done then AfterOutcome(rows[i], work(i).0, work(i).1, maxAttempts) else rows[i]
  }

  /** The same queue in the shape of the media table: its lane always live. */
  function AsTable(rows: Rows, medium: Medium): Table {
    map i | i in rows :: Attachment(0, if Queued(rows[i], medium) then Pending else Done, rows[i].attempts, rows[i].created, None, false)
  }

  lemma SameQueue(rows: Rows, medium: Medium, batch: nat)
    ensures FetchQueued(rows, medium, batch) == MediaQueue.Fetch(AsTable(rows, medium), {0}, batch)
    ensures DownloadableIds(AsTable(rows, medium), {0}) == QueuedIds(rows, medium)
    ensures forall i :: i in rows ==> AsTable(rows, medium)[i].created == rows[i].created
  {
    var t := AsTable(rows, medium);
    assert forall i :: i in rows ==> (Downloadable(t[i], {0}) <==> Queued(rows[i], medium)) && t[i].created == rows[i].created;
    hide AsTable, Queued, Downloadable;
    assert t.Keys == rows.Keys by { SameKeys(rows, medium); }
    assert QueuedTickets(rows, medium) == Waiting(t, {0});
  }

  lemma SameKeys(rows: Rows, medium: Medium)
    ensures AsTable(rows, medium).Keys == rows.Keys
  {
  }

  function QueuedIds(rows: Rows, medium: Medium): set<JobId> {
    set i | i in rows && Queued(rows[i], medium)
  }

  ghost function TakenRows(rows: Rows, medium: Medium, batch: nat): set<JobId> {
    set i | i in rows && Ticket(rows[i].created, i) in FetchQueued(rows, medium, batch)
  }

  lemma QueueTakes(rows: Rows, medium: Medium, batch: nat)
    ensures TakenRows(rows, medium, batch) <= QueuedIds(rows, medium)
    ensures |TakenRows(rows, medium, batch)| == Least(batch, |QueuedIds(rows, medium)|)
  {
    var t := AsTable(rows, medium);
    SameQueue(rows, medium, batch);
    FetchTakes(t, {0}, batch);
    SameKeys(rows, medium);
    hide MediaQueue.Fetch, FetchQueued, AsTable;
    assert TakenRows(rows, medium, batch) == Taken(t, {0}, batch);
  }

  lemma OutcomeCosts(e: Entry, o: Outcome, now: Time, medium: Medium, maxAttempts: nat)
    requires Queued(e, medium) && o != Unwritten
    ensures AttemptsLeft(AfterOutcome(e, o, now, maxAttempts), medium, maxAttempts) < AttemptsLeft(e, medium, maxAttempts)
  {
  }

  lemma PassOverIsOne(rows: Rows, medium: Medium, batch: nat, maxAttempts: nat, work: JobId -> (Outcome, Time))
    requires forall i :: work(i).0 != Unwritten
    ensures OnePass(QueueWeights(rows, medium, maxAttempts),
                    QueueWeights(PassOver(rows, medium, batch, maxAttempts, work), medium, maxAttempts), batch)
  {
    QueueTakes(rows, medium, batch);
    hide FetchQueued, AfterOutcome;
    var taken := TakenRows(rows, medium, batch);
    var w := QueueWeights(rows, medium, maxAttempts);
    var w1 := QueueWeights(PassOver(rows, medium, batch, maxAttempts, work), medium, maxAttempts);
    assert Active(w) == QueuedIds(rows, medium);
    forall i | i in taken ensures w1[i] < w[i] {
      OutcomeCosts(rows[i], work(i).0, work(i).1, medium, maxAttempts);
    }
    assert Passes(w, w1, taken, batch);
  }

  ghost predicate PassingOver(
      rs: seq<Rows>, medium: Medium, batch: nat, maxAttempts: nat, works: seq<JobId -> (Outcome, Time)>)
  {
    && |rs| == |works| + 1
    && (forall k :: 0 <= k < |works| ==> rs[k + 1] == PassOver(rs[k], medium, batch, maxAttempts, works[k]))
    && (forall k, i :: 0 <= k < |works| ==> works[k](i).0 != Unwritten)
  }

  lemma {:induction false} MediumStays(
      rs: seq<Rows>, medium: Medium, batch: nat, maxAttempts: nat, works: seq<JobId -> (Outcome, Time)>, k: nat, i: JobId)
    requires PassingOver(rs, medium, batch, maxAttempts, works) && k < |rs| && i in rs[0]
    ensures i in rs[k] && rs[k][i].medium == rs[0][i].medium
  {
    if k > 0 {
      MediumStays(rs, medium, batch, maxAttempts, works, k - 1, i);
      hide FetchQueued;
      assert rs[k - 1 + 1] == PassOver(rs[k - 1], medium, batch, maxAttempts, works[k - 1]);
    }
  }

  /** With n rows of a medium waiting and every terminal write landing, none waits after floor(maxAttempts * n / batch) + maxAttempts passes. */
  lemma AnalysesSettle(
      rs: seq<Rows>, medium: Medium, batch: nat, maxAttempts: nat, works: seq<JobId -> (Outcome, Time)>, n: nat)
    requires PassingOver(rs, medium, batch, maxAttempts, works) && batch >= 1 && maxAttempts >= 1
    requires n == |QueuedIds(rs[0], medium)|
    requires |rs| > maxAttempts * n / batch + maxAttempts
    ensures var end := rs[maxAttempts * n / batch + maxAttempts];
      (forall i :: i in end ==> !Queued(end[i], medium)) && (forall i :: i in QueuedIds(rs[0], medium) ==> i in end && end[i].state != Waits)
  {
    forall i | i in rs[0] ensures var end := rs[maxAttempts * n / batch + maxAttempts]; i in end && end[i].medium == rs[0][i].medium {
      MediumStays(rs, medium, batch, maxAttempts, works, maxAttempts * n / batch + maxAttempts, i);
    }
    var ws := seq(|rs|, k requires 0 <= k < |rs| => QueueWeights(rs[k], medium, maxAttempts));
    forall k | 0 <= k < |ws| - 1 ensures OnePass(ws[k], ws[k + 1], batch) {
      PassOverIsOne(rs[k], medium, batch, maxAttempts, works[k]);
      hide PassOver, OnePass;
    }
    assert Active(ws[0]) == QueuedIds(rs[0], medium);
    assert AtMostEach(ws[0], maxAttempts);
    hide OnePass, PassingOver;
    DrainsInTime(ws, batch, maxAttempts);
    var end := rs[maxAttempts * n / batch + maxAttempts];
    forall i | i in end ensures !Queued(end[i], medium) {
      assert i !in Active(QueueWeights(end, medium, maxAttempts));
    }
  }

  // ---- the pass itself ----

  datatype Tally = Tally(done: nat, failed: nat, skipped: nat, retried: nat, errors: nat)

  datatype Fate = IsDone | IsFailed | IsSkipped | IsRetried | IsLost

  function FateOf(e: Entry, o: Outcome, maxAttempts: nat): Fate {
    match o
    case Result(_) => IsDone
    case Skip(_) => IsSkipped
    case Fault(_) => if e.attempts + 1 >= maxAttempts then IsFailed else IsRetried
    case Unwritten => IsLost
  }

  function Fated(rows: Rows, some: seq<Ticket>, maxAttempts: nat, work: JobId -> (Outcome, Time), f: Fate): set<Ticket> {
    set k | k in some && k.id in rows && FateOf(rows[k.id], work(k.id).0, maxAttempts) == f
  }

  /** The summary counts the rows of the batch by what became of them. */
  ghost predicate Tallies(t: Tally, rows: Rows, some: seq<Ticket>, maxAttempts: nat, work: JobId -> (Outcome, Time)) {
    && t.done == |Fated(rows, some, maxAttempts, work, IsDone)|
    && t.failed == |Fated(rows, some, maxAttempts, work, IsFailed)|
    && t.skipped == |Fated(rows, some, maxAttempts, work, IsSkipped)|
    && t.retried == |Fated(rows, some, maxAttempts, work, IsRetried)|
    && t.errors == |Fated(rows, some, maxAttempts, work, IsLost)|
  }

  lemma FatedNext(rows: Rows, batch: seq<Ticket>, k: nat, maxAttempts: nat, work: JobId -> (Outcome, Time), f: Fate)
    requires Distinct(batch) && k < |batch| && batch[k].id in rows
    ensures |Fated(rows, batch[..k + 1], maxAttempts, work, f)| == |Fated(rows, batch[..k], maxAttempts, work, f)| +
      if FateOf(rows[batch[k].id], work(batch[k].id).0, maxAttempts) == f then 1 else 0
  {
    hide FateOf;
    assert forall x :: x in batch[..k + 1] <==> x in batch[..k] || x == batch[k];
    assert batch[k] !in batch[..k];
    assert Fated(rows, batch[..k + 1], maxAttempts, work, f) == Fated(rows, batch[..k], maxAttempts, work, f) +
      if FateOf(rows[batch[k].id], work(batch[k].id).0, maxAttempts) == f then {batch[k]} else {};
  }

  lemma TalliesNext(t: Tally, rows: Rows, batch: seq<Ticket>, k: nat, maxAttempts: nat, work: JobId -> (Outcome, Time))
    requires Distinct(batch) && k < |batch| && batch[k].id in rows && Tallies(t, rows, batch[..k], maxAttempts, work)
    ensures Tallies(Counted(t, FateOf(rows[batch[k].id], work(batch[k].id).0, maxAttempts)), rows, batch[..k + 1], maxAttempts, work)
  {
    hide FateOf, Fated;
    FatedNext(rows, batch, k, maxAttempts, work, IsDone);
    FatedNext(rows, batch, k, maxAttempts, work, IsFailed);
    FatedNext(rows, batch, k, maxAttempts, work, IsSkipped);
    FatedNext(rows, batch, k, maxAttempts, work, IsRetried);
    FatedNext(rows, batch, k, maxAttempts, work, IsLost);
  }

  function Counted(t: Tally, f: Fate): Tally {
    match f
    case IsDone => t.(done := t.done + 1)
    case IsFailed => t.(failed := t.failed + 1)
    case IsSkipped => t.(skipped := t.skipped + 1)
    case IsRetried => t.(retried := t.retried + 1)
    case IsLost => t.(errors := t.errors + 1)
  }

  lemma WorkedNext(rows: Rows, batch: seq<Ticket>, k: nat, maxAttempts: nat, work: JobId -> (Outcome, Time))
    requires Distinct(batch) && k < |batch| && batch[k].id in rows && batch[k] == Ticket(rows[batch[k].id].created, batch[k].id)
    ensures var i := batch[k].id; var before := Worked(rows, batch[..k], maxAttempts, work);
      i in before && before[i] == rows[i] &&
      Worked(rows, batch[..k + 1], maxAttempts, work) == before[i := AfterOutcome(rows[i], work(i).0, work(i).1, maxAttempts)]
  {
    hide AfterOutcome;
    assert forall x :: x in batch[..k + 1] <==> x in batch[..k] || x == batch[k];
    assert batch[k] !in batch[..k];
  }

  class AnalysisQueue {
    var rows: Rows

    constructor (rows: Rows)
      ensures this.rows == rows
    {
      this.rows := rows;
    }

    /** The terminal write of one row, or none. */
    method Write(id: JobId, o: Outcome, now: Time, maxAttempts: nat) returns (fate: Fate)
      requires id in rows
      modifies this`rows
      ensures rows == old(rows)[id := AfterOutcome(old(rows)[id], o, now, maxAttempts)]
      ensures fate == FateOf(old(rows)[id], o, maxAttempts)
    {
      var row := rows[id];
      match o {
        case Result(cost) =>
          rows := rows[id := row.(state := Finished, cost := Some(cost), completedAt := Some(now))];
          fate := IsDone;
        case Skip(billed) =>
          var e := row.(state := Skipped, completedAt := Some(now));
          if billed.Some? {
            e := e.(cost := billed);
          }
          rows := rows[id := e];
          fate := IsSkipped;
        case Fault(billed) =>
          var attempts := row.attempts + 1;
          var failed := attempts >= maxAttempts;
          var stamped := failed || billed.Some? || row.cost.Some?;
          var e := row.(attempts := attempts, state := if failed then Broken else Waits,
                        completedAt := if stamped then Some(now) else None);
          if billed.Some? {
            e := e.(cost := billed);
          }
          rows := rows[id := e];
          fate := if failed then IsFailed else IsRetried;
        case Unwritten =>
          rows := rows[id := row];
          fate := IsLost;
      }
    }

    /** `batch` is what the bounded, ordered SELECT returned; one row after the other, whatever each comes to. */
    method ProcessPendingAnalyses(
        medium: Medium, batch: seq<Ticket>, maxAttempts: nat, work: JobId -> (Outcome, Time), ghost size: nat)
      returns (tally: Tally)
      requires batch == FetchQueued(rows, medium, size)
      modifies this`rows
      ensures rows == PassOver(old(rows), medium, size, maxAttempts, work)
      ensures Tallies(tally, old(rows), batch, maxAttempts, work)
    {
      hide FetchQueued, AfterOutcome, MediaQueue.Fetch, Worked, Tallies, FateOf, Counted;
      ghost var before := rows;
      SameQueue(before, medium, size);
      FetchTakes(AsTable(before, medium), {0}, size);
      FetchIsHead(AsTable(before, medium), {0}, size);
      WorkedNone(before, maxAttempts, work);
      assert batch[..0] == [];
      tally := Tally(0, 0, 0, 0, 0);
      TalliesNone(before, maxAttempts, work);
      for k := 0 to |batch|
        invariant rows == Worked(before, batch[..k], maxAttempts, work)
        invariant Tallies(tally, before, batch[..k], maxAttempts, work)
      {
        assert batch[k] in batch;
        WorkedNext(before, batch, k, maxAttempts, work);
        var id := batch[k].id;
        TalliesNext(tally, before, batch, k, maxAttempts, work);
        var fate := Write(id, work(id).0, work(id).1, maxAttempts);
        tally := Counted(tally, fate);
      }
      assert batch[..|batch|] == batch;
    }
  }

  lemma TalliesNone(rows: Rows, maxAttempts: nat, work: JobId -> (Outcome, Time))
    ensures Tallies(Tally(0, 0, 0, 0, 0), rows, [], maxAttempts, work)
  {
    assert forall f :: Fated(rows, [], maxAttempts, work, f) == {};
  }

  lemma WorkedNone(rows: Rows, maxAttempts: nat, work: JobId -> (Outcome, Time))
    ensures Worked(rows, [], maxAttempts, work) == rows
  {
  }
}
