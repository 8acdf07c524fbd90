/**
  * worker/drains.ts singleFlight around the analysis pass: whoever calls it and whenever, passes never overlap, so the
  * cap on a day's spending holds without assuming that they do not.
  */
module SingleFlight {
  import opened Prelude
  import opened Analysis

  /** A call of the gated pass: waiting at the gate, at work, or settled with its reset still queued. */
  datatype Call = AtGate | Passing(pass: Pass) | Over

  /** `taken`: the shared promise is set. `calls` are the calls made and not yet reset. */
  datatype Worker = Worker(rows: Rows, now: Time, calls: seq<Call>, taken: bool)

  /** The world moves on; someone calls; call i moves on; call i is refused or rejects; call i's reset runs. */
  datatype Turn = World(e: Event) | Kick | Move(i: nat, e: Event) | GiveUp(i: nat) | Reset(i: nat)

  function SeenBy(w: Worker, c: Call): Drain {
    Drain(w.rows, w.now, if c.Passing? then Some(c.pass) else None)
  }

  predicate Possible(w: Worker, t: Turn) {
    match t
    case World(e) => (e.Tick? || e.Enqueue? || e.Vanish?) && Enabled(SeenBy(w, Over), e)
    case Kick => true
    case Move(i, e) =>
      i < |w.calls| && Enabled(SeenBy(w, w.calls[i]), e) &&
      match w.calls[i] { case AtGate => e.Gate? case Passing(_) => e.Fetch? || e.Work? || e.Close? case Over => false }
    case GiveUp(i) => i < |w.calls| && !w.calls[i].Over?
    case Reset(i) => i < |w.calls| && w.calls[i].Over?
  }

  ghost function After(w: Worker, t: Turn, limit: nat, batch: nat, maxAttempts: nat): Worker
    requires Possible(w, t)
  {
    match t
    case World(e) =>
      var d := Step(SeenBy(w, Over), e, limit, batch, maxAttempts);
      w.(rows := d.rows, now := d.now)
    case Kick => if w.taken then w else w.(calls := w.calls + [AtGate], taken := true)
    case Move(i, e) =>
      var d := Step(SeenBy(w, w.calls[i]), e, limit, batch, maxAttempts);
      w.(rows := d.rows, now := d.now, calls := w.calls[i := if d.pass.Some? then Passing(d.pass.value) else Over])
    case GiveUp(i) => w.(calls := w.calls[i := Over])
    case Reset(i) => w.(calls := w.calls[..i] + w.calls[i + 1..], taken := false)
  }

  ghost predicate WorkerRun(ws: seq<Worker>, ts: seq<Turn>, limit: nat, batch: nat, maxAttempts: nat) {
    |ws| == |ts| + 1 && ws[0].rows == map[] && ws[0].calls == [] && !ws[0].taken &&
    forall k :: 0 <= k < |ts| ==> Possible(ws[k], ts[k]) && ws[k + 1] == After(ws[k], ts[k], limit, batch, maxAttempts)
  }

  /** At most one call has not been reset, and the shared promise is set exactly while there is one. */
  predicate Single(w: Worker) {
    |w.calls| == if w.taken then 1 else 0
  }

  function Only(w: Worker): Drain {
    SeenBy(w, if |w.calls| == 1 then w.calls[0] else Over)
  }

  lemma TurnKeepsSingle(w: Worker, t: Turn, limit: nat, batch: nat, maxAttempts: nat)
    requires Possible(w, t) && Single(w)
    ensures Single(After(w, t, limit, batch, maxAttempts))
  {
    hide Step, Enabled;
  }

  /** What the one drain sees of a turn: a step of its own, nothing, or its pass abandoned. */
  lemma TurnIsStep(w: Worker, t: Turn, limit: nat, batch: nat, maxAttempts: nat)
    requires Possible(w, t) && Single(w)
    ensures var d, d1 := Only(w), Only(After(w, t, limit, batch, maxAttempts));
      d1 == d || d1 == d.(pass := None) ||
      ((t.World? || t.Move?) && Enabled(d, t.e) && d1 == Step(d, t.e, limit, batch, maxAttempts))
  {
    hide CountRecent, FetchQueued, AfterOutcome;
  }

  /**
    * A call's own move does to the rows and to its pass what the pass does, the world's what the world does; no other
    * turn touches a row.
    */
  lemma TurnMoves(w: Worker, t: Turn, limit: nat, batch: nat, maxAttempts: nat)
    requires Possible(w, t)
    ensures var w1 := After(w, t, limit, batch, maxAttempts);
      match t
      case Move(i, e) =>
        |w1.calls| == |w.calls| && SeenBy(w1, w1.calls[i]) == Step(SeenBy(w, w.calls[i]), e, limit, batch, maxAttempts) &&
        forall j :: 0 <= j < |w.calls| && j != i ==> w1.calls[j] == w.calls[j]
      case World(e) => SeenBy(w1, Over) == Step(SeenBy(w, Over), e, limit, batch, maxAttempts) && w1.calls == w.calls
      case _ => w1.rows == w.rows && w1.now == w.now
  {
    hide CountRecent, FetchQueued, AfterOutcome;
  }

  lemma AbandonedWithinCap(d: Drain, limit: nat, batch: nat)
    requires WithinCap(d, limit, batch)
    ensures WithinCap(d.(pass := None), limit, batch)
  {
    hide CountRecent;
  }

  /**
    * However the calls interleave, at most one pass is under way, and the billed rows of the last day number at most
    * limit - 1 + 2 * batch.
    */
  lemma {:induction false} SpendIsCappedAnyhow(ws: seq<Worker>, ts: seq<Turn>, limit: nat, batch: nat, maxAttempts: nat, k: nat)
    requires WorkerRun(ws, ts, limit, batch, maxAttempts) && limit >= 1 && k < |ws|
    ensures |ws[k].calls| <= 1 && CountRecent(ws[k].rows, ws[k].now) <= limit - 1 + 2 * batch
    ensures Single(ws[k]) && Stamped(ws[k].rows) && WithinCap(Only(ws[k]), limit, batch)
  {
    hide After, Possible, Stamped, CountRecent, Enabled;
    if k == 0 {
      NoRows(ws[0].now);
    } else {
      SpendIsCappedAnyhow(ws, ts, limit, batch, maxAttempts, k - 1);
      var w, t := ws[k - 1], ts[k - 1];
      assert Possible(w, t) && ws[k - 1 + 1] == After(w, t, limit, batch, maxAttempts);
      TurnKeepsSingle(w, t, limit, batch, maxAttempts);
      TurnIsStep(w, t, limit, batch, maxAttempts);
      hide Step, Only, Single, WithinCap;
      AbandonedWithinCap(Only(w), limit, batch);
      if (t.World? || t.Move?) && Enabled(Only(w), t.e) {
        SameRowsSeen(w);
        StepWithinCap(Only(w), t.e, limit, batch, maxAttempts);
        StepStamped(Only(w), t.e, limit, batch, maxAttempts);
      }
      SameRowsSeen(w);
      SameRowsSeen(ws[k]);
      CapBounds(Only(ws[k]), limit, batch);
      SingleIsOne(ws[k]);
    }
  }

  lemma SameRowsSeen(w: Worker)
    ensures Only(w).rows == w.rows && Only(w).now == w.now
  {
  }

  lemma SingleIsOne(w: Worker)
    requires Single(w)
    ensures |w.calls| <= 1
  {
  }

  lemma CapBounds(d: Drain, limit: nat, batch: nat)
    requires WithinCap(d, limit, batch) && limit >= 1
    ensures CountRecent(d.rows, d.now) <= limit - 1 + 2 * batch
  {
    hide CountRecent;
  }

  /** A limit of zero lets no call past the gate, so nothing is ever billed. */
  lemma {:induction false} ZeroNeverBillsAnyhow(ws: seq<Worker>, ts: seq<Turn>, batch: nat, maxAttempts: nat, k: nat)
    requires WorkerRun(ws, ts, 0, batch, maxAttempts) && k < |ws|
    ensures (forall c :: c in ws[k].calls ==> !c.Passing?) && forall i :: i in ws[k].rows ==> ws[k].rows[i].cost.None?
  {
    if k > 0 {
      ZeroNeverBillsAnyhow(ws, ts, batch, maxAttempts, k - 1);
      assert Possible(ws[k - 1], ts[k - 1]) && ws[k - 1 + 1] == After(ws[k - 1], ts[k - 1], 0, batch, maxAttempts);
    }
  }
}
