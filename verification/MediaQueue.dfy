/** lib/services/media.ts processPendingMedia: the download queue drains, however many stranded rows stand in front. */
module MediaQueue {
  import opened Prelude
  import opened Paging
  import opened Queues

  type ConnectionId = nat

  datatype Status = Pending | Done | Failed

  datatype Attachment = Attachment(
    connection: ConnectionId, status: Status, attempts: nat, created: Time, size: Option<nat>, buried: bool)

  type Table = map<JobId, Attachment>

  const MAX_MEDIA_BYTES := 100 * 1024 * 1024

  /** The SELECT's WHERE clause: liveness is part of it. */
  predicate Downloadable(a: Attachment, live: set<ConnectionId>) {
    a.status == Pending && !a.buried && a.connection in live
  }

  predicate Stranded(a: Attachment, live: set<ConnectionId>) {
    a.status == Pending && !a.buried && a.connection !in live
  }

  /** Pending rows no live session can download: counted as skipped, never selected. */
  function StrandedIds(t: Table, live: set<ConnectionId>): set<JobId> {
    set i | i in t && Stranded(t[i], live)
  }

  datatype Ticket = Ticket(created: Time, id: JobId)

  /** Oldest first. */
  predicate ByAge(a: Ticket, b: Ticket) {
    a.created < b.created || (a.created == b.created && a.id < b.id)
  }

  function Waiting(t: Table, live: set<ConnectionId>): set<Ticket> {
    set i | i in t && Downloadable(t[i], live) :: Ticket(t[i].created, i)
  }

  ghost function Fetch(t: Table, live: set<ConnectionId>, batch: nat): seq<Ticket> {
    assert StrictTotal(ByAge);
    Take(Sorted(ByAge, Waiting(t, live)), batch)
  }

  /** What one download attempt came to. */
  datatype Attempt = Downloaded(size: nat) | Threw

  function AfterAttempt(a: Attachment, v: Attempt, maxAttempts: nat): Attachment {
    if a.size.Some? && a.size.value > MAX_MEDIA_BYTES then a.(status := Failed)
    else
      match v
      case Downloaded(n) => if n > MAX_MEDIA_BYTES then a.(status := Failed, size := Some(n)) else a.(status := Done, size := Some(n))
      case Threw => a.(attempts := a.attempts + 1, status := if a.attempts + 1 >= maxAttempts then Failed else Pending)
  }

  ghost function Pass(t: Table, live: set<ConnectionId>, batch: nat, maxAttempts: nat, attempt: JobId -> Attempt): Table {
    map i | i in t ::
      if Ticket(t[i].created, i) in Fetch(t, live, batch) then AfterAttempt(t[i], attempt(i), maxAttempts) else t[i]
  }

  // ---- the queue's weights ----

  function Left(a: Attachment, live: set<ConnectionId>, maxAttempts: nat): nat {
    if !Downloadable(a, live) then 0 else if a.attempts < maxAttempts then maxAttempts - a.attempts else 1
  }

  function WeightsOf(t: Table, live: set<ConnectionId>, maxAttempts: nat): Weights {
    map i | i in t :: Left(t[i], live, maxAttempts)
  }

  lemma AttemptCosts(a: Attachment, v: Attempt, live: set<ConnectionId>, maxAttempts: nat)
    requires Downloadable(a, live)
    ensures Left(AfterAttempt(a, v, maxAttempts), live, maxAttempts) < Left(a, live, maxAttempts)
    ensures var b := AfterAttempt(a, v, maxAttempts); b.connection == a.connection && b.buried == a.buried && b.created == a.created
  {
  }

  function DownloadableIds(t: Table, live: set<ConnectionId>): set<JobId> {
    set i | i in t && Downloadable(t[i], live)
  }

  ghost function Taken(t: Table, live: set<ConnectionId>, batch: nat): set<JobId> {
    set i | i in t && Ticket(t[i].created, i) in Fetch(t, live, batch)
  }

  lemma FetchIsHead(t: Table, live: set<ConnectionId>, batch: nat)
    ensures forall k :: k in Fetch(t, live, batch) ==> k in Waiting(t, live)
    ensures Distinct(Fetch(t, live, batch)) && |Fetch(t, live, batch)| == Least(batch, |Waiting(t, live)|)
  {
    assert StrictTotal(ByAge);
    hide StrictTotal, ByAge, Downloadable;
    var waiting := Waiting(t, live);
    var all := Sorted(ByAge, waiting);
    SortedCounts(ByAge, waiting);
    hide Sorted, Waiting;
    assert Distinct(all) by { ByAgeDistinct(all); }
    forall k | k in Fetch(t, live, batch) ensures k in waiting {
      assert k in all;
    }
  }

  lemma ByAgeDistinct(all: seq<Ticket>)
    requires Increasing(ByAge, all)
    ensures Distinct(all)
  {
  }

  /** The ids of a batch: all downloadable, as many as there are up to the batch size. */
  lemma FetchTakes(t: Table, live: set<ConnectionId>, batch: nat)
    ensures Taken(t, live, batch) <= DownloadableIds(t, live)
    ensures |Taken(t, live, batch)| == Least(batch, |DownloadableIds(t, live)|)
    ensures forall k :: k in Fetch(t, live, batch) ==> k.id in t && k == Ticket(t[k.id].created, k.id) && Downloadable(t[k.id], live)
  {
    FetchIsHead(t, live, batch);
    hide Fetch, Downloadable;
    var rows := Fetch(t, live, batch);
    forall k | k in rows ensures k.id in t && k == Ticket(t[k.id].created, k.id) && Downloadable(t[k.id], live) {
      assert k in Waiting(t, live);
    }
    SameCount(t, DownloadableIds(t, live), Waiting(t, live));
    DistinctCount(rows);
    SameCount(t, Taken(t, live, batch), set k | k in rows);
  }

  /** Rows and their tickets count the same. */
  lemma {:induction false} SameCount(t: Table, ids: set<JobId>, tickets: set<Ticket>)
    requires ids <= t.Keys && tickets == set i | i in ids :: Ticket(t[i].created, i)
    ensures |ids| == |tickets|
    decreases |ids|
  {
    if ids != {} {
      var i :| i in ids;
      var k := Ticket(t[i].created, i);
      assert tickets - {k} == set j | j in ids - {i} :: Ticket(t[j].created, j);
      SameCount(t, ids - {i}, tickets - {k});
    }
  }

  lemma PassIsOne(t: Table, live: set<ConnectionId>, batch: nat, maxAttempts: nat, attempt: JobId -> Attempt)
    ensures OnePass(WeightsOf(t, live, maxAttempts), WeightsOf(Pass(t, live, batch, maxAttempts, attempt), live, maxAttempts), batch)
  {
    var taken := Taken(t, live, batch);
    FetchTakes(t, live, batch);
    hide Fetch, AfterAttempt;
    var w, w1 := WeightsOf(t, live, maxAttempts), WeightsOf(Pass(t, live, batch, maxAttempts, attempt), live, maxAttempts);
    assert Active(w) == DownloadableIds(t, live);
    forall i | i in taken ensures w1[i] < w[i] {
      AttemptCosts(t[i], attempt(i), live, maxAttempts);
    }
    assert Passes(w, w1, taken, batch);
  }

  // ---- whole runs ----

  /** Passes over a fixed set of live connections, with no new rows, whatever each download comes to. */
  ghost predicate Passing(ts: seq<Table>, live: set<ConnectionId>, batch: nat, maxAttempts: nat, attempts: seq<JobId -> Attempt>) {
    |ts| == |attempts| + 1 && forall k :: 0 <= k < |attempts| ==> ts[k + 1] == Pass(ts[k], live, batch, maxAttempts, attempts[k])
  }

  /** Rows that cannot be downloaded are never touched, and take no slot. */
  lemma {:induction false} StrandedUntouched(
      ts: seq<Table>, live: set<ConnectionId>, batch: nat, maxAttempts: nat, attempts: seq<JobId -> Attempt>, k: nat, i: JobId)
    requires Passing(ts, live, batch, maxAttempts, attempts) && k < |ts| && i in ts[0] && !Downloadable(ts[0][i], live)
    ensures i in ts[k] && ts[k][i] == ts[0][i]
  {
    if k > 0 {
      StrandedUntouched(ts, live, batch, maxAttempts, attempts, k - 1, i);
      FetchTakes(ts[k - 1], live, batch);
      hide Fetch;
      assert ts[k - 1 + 1] == Pass(ts[k - 1], live, batch, maxAttempts, attempts[k - 1]);
    }
  }

  lemma RunDrains(ts: seq<Table>, live: set<ConnectionId>, batch: nat, maxAttempts: nat, attempts: seq<JobId -> Attempt>)
    requires Passing(ts, live, batch, maxAttempts, attempts)
    ensures Drains(seq(|ts|, k requires 0 <= k < |ts| => WeightsOf(ts[k], live, maxAttempts)), batch)
  {
    hide Pass, WeightsOf, OnePass;
    var ws := seq(|ts|, k requires 0 <= k < |ts| => WeightsOf(ts[k], live, maxAttempts));
    forall k | 0 <= k < |ws| - 1 ensures OnePass(ws[k], ws[k + 1], batch) {
      PassIsOne(ts[k], live, batch, maxAttempts, attempts[k]);
    }
  }

  /**
    * With n downloadable rows at first, each is done or failed after floor(maxAttempts * n / batch) + maxAttempts passes,
    * and none is left to download, however many stranded rows there are and however old they are.
    */
  lemma DownloadsSettle(
      ts: seq<Table>, live: set<ConnectionId>, batch: nat, maxAttempts: nat, attempts: seq<JobId -> Attempt>, n: nat)
    requires Passing(ts, live, batch, maxAttempts, attempts) && batch >= 1 && maxAttempts >= 1
    requires n == |DownloadableIds(ts[0], live)|
    requires |ts| > maxAttempts * n / batch + maxAttempts
    ensures var end := ts[maxAttempts * n / batch + maxAttempts];
      (forall i :: i in end ==> !Downloadable(end[i], live)) &&
      (forall i :: i in DownloadableIds(ts[0], live) ==> i in end && (end[i].status == Done || end[i].status == Failed))
  {
    forall i | i in ts[0]
      ensures var end := ts[maxAttempts * n / batch + maxAttempts]; i in end && SameLane(ts[0][i], end[i])
    {
      LaneStays(ts, live, batch, maxAttempts, attempts, maxAttempts * n / batch + maxAttempts, i);
    }
    var ws := seq(|ts|, k requires 0 <= k < |ts| => WeightsOf(ts[k], live, maxAttempts));
    RunDrains(ts, live, batch, maxAttempts, attempts);
    assert Active(ws[0]) == DownloadableIds(ts[0], live);
    assert AtMostEach(ws[0], maxAttempts);
    hide Drains, Passing;
    DrainsInTime(ws, batch, maxAttempts);
    NothingActive(ts[maxAttempts * n / batch + maxAttempts], live, maxAttempts);
  }

  predicate SameLane(a: Attachment, b: Attachment) {
    b.connection == a.connection && b.buried == a.buried
  }

  lemma {:induction false} LaneStays(
      ts: seq<Table>, live: set<ConnectionId>, batch: nat, maxAttempts: nat, attempts: seq<JobId -> Attempt>, k: nat, i: JobId)
    requires Passing(ts, live, batch, maxAttempts, attempts) && k < |ts| && i in ts[0]
    ensures i in ts[k] && SameLane(ts[0][i], ts[k][i])
  {
    if k > 0 {
      LaneStays(ts, live, batch, maxAttempts, attempts, k - 1, i);
      hide Fetch;
      assert ts[k - 1 + 1] == Pass(ts[k - 1], live, batch, maxAttempts, attempts[k - 1]);
    }
  }

  lemma NothingActive(t: Table, live: set<ConnectionId>, maxAttempts: nat)
    ensures Active(WeightsOf(t, live, maxAttempts)) == {} ==> forall i :: i in t ==> !Downloadable(t[i], live)
  {
    var w := WeightsOf(t, live, maxAttempts);
    if Active(w) == {} {
      forall i | i in t ensures !Downloadable(t[i], live) {
        assert i !in Active(w);
      }
    }
  }

  // ---- the drain itself ----

  datatype Summary = Summary(done: nat, failed: nat, skipped: nat)

  /** The table once some of the batch has been worked through. */
  ghost function Partway(t: Table, worked: seq<Ticket>, maxAttempts: nat, attempt: JobId -> Attempt): Table {
    map i | i in t :: if Ticket(t[i].created, i) in worked then AfterAttempt(t[i], attempt(i), maxAttempts) else t[i]
  }

  /** The rows among those worked through that ended so. */
  ghost function Ended(t: Table, worked: seq<Ticket>, maxAttempts: nat, attempt: JobId -> Attempt, status: Status): set<JobId> {
    set i | i in t && Ticket(t[i].created, i) in worked && AfterAttempt(t[i], attempt(i), maxAttempts).status == status
  }

  lemma PartwayNext(t: Table, pending: seq<Ticket>, k: nat, maxAttempts: nat, attempt: JobId -> Attempt, status: Status)
    requires Distinct(pending) && k < |pending| && pending[k].id in t && pending[k] == Ticket(t[pending[k].id].created, pending[k].id)
    ensures var i := pending[k].id; var before := Partway(t, pending[..k], maxAttempts, attempt);
      i in before && before[i] == t[i] &&
      Partway(t, pending[..k + 1], maxAttempts, attempt) == before[i := AfterAttempt(t[i], attempt(i), maxAttempts)]
    ensures var i := pending[k].id; var ended := Ended(t, pending[..k], maxAttempts, attempt, status);
      |Ended(t, pending[..k + 1], maxAttempts, attempt, status)| ==
        |ended| + if AfterAttempt(t[i], attempt(i), maxAttempts).status == status then 1 else 0
  {
    hide AfterAttempt;
    var i := pending[k].id;
    assert forall x :: x in pending[..k + 1] <==> x in pending[..k] || x == pending[k];
    assert pending[k] !in pending[..k];
    var ended := Ended(t, pending[..k], maxAttempts, attempt, status);
    var next := Ended(t, pending[..k + 1], maxAttempts, attempt, status);
    assert i !in ended;
    assert next == ended + if AfterAttempt(t[i], attempt(i), maxAttempts).status == status then {i} else {};
  }

  lemma PartwayNone(t: Table, maxAttempts: nat, attempt: JobId -> Attempt, status: Status)
    ensures Partway(t, [], maxAttempts, attempt) == t && Ended(t, [], maxAttempts, attempt, status) == {}
  {
  }

  lemma FetchNothing(t: Table, batch: nat)
    ensures Fetch(t, {}, batch) == []
  {
    FetchIsHead(t, {}, batch);
    assert Waiting(t, {}) == {};
  }

  class Drain {
    var rows: Table

    constructor (rows: Table)
      ensures this.rows == rows
    {
      this.rows := rows;
    }

    /** One attempt and its row's update. */
    method WorkOne(id: JobId, v: Attempt, maxAttempts: nat) returns (status: Status)
      requires id in rows
      modifies this`rows
      ensures rows == old(rows)[id := AfterAttempt(old(rows)[id], v, maxAttempts)] && status == rows[id].status
    {
      var a := rows[id];
      if a.size.Some? && a.size.value > MAX_MEDIA_BYTES {
        rows := rows[id := a.(status := Failed)];
        return Failed;
      }
      match v {
        case Downloaded(n) =>
          status := if n > MAX_MEDIA_BYTES then Failed else Done;
          rows := rows[id := a.(status := status, size := Some(n))];
        case Threw =>
          status := if a.attempts + 1 >= maxAttempts then Failed else Pending;
          rows := rows[id := a.(attempts := a.attempts + 1, status := status)];
      }
    }

    /** `pending` is what the bounded, ordered SELECT returned. */
    method ProcessPendingMedia(
        live: set<ConnectionId>, pending: seq<Ticket>, maxAttempts: nat, attempt: JobId -> Attempt, ghost batch: nat)
      returns (summary: Summary)
      requires pending == Fetch(rows, live, batch)
      modifies this`rows
      ensures rows == Pass(old(rows), live, batch, maxAttempts, attempt)
      ensures live != {} ==> summary.skipped == |StrandedIds(old(rows), live)|
      ensures live == {} ==> summary == Summary(0, 0, 0)
      ensures summary.done == |Ended(old(rows), pending, maxAttempts, attempt, Done)|
      ensures summary.failed == |Ended(old(rows), pending, maxAttempts, attempt, Failed)|
    {
      hide Fetch, AfterAttempt, Partway, Ended;
      ghost var t := rows;
      PartwayNone(t, maxAttempts, attempt, Done);
      PartwayNone(t, maxAttempts, attempt, Failed);
      summary := Summary(0, 0, 0);
      if live == {} {
        FetchNothing(t, batch);
        PassIsPartway(t, live, batch, maxAttempts, attempt);
        return;
      }
      summary := summary.(skipped := |StrandedIds(rows, live)|);
      FetchTakes(t, live, batch);
      FetchIsHead(t, live, batch);
      assert pending[..0] == [];
      for k := 0 to |pending|
        invariant rows == Partway(t, pending[..k], maxAttempts, attempt)
        invariant summary.skipped == |StrandedIds(t, live)|
        invariant summary.done == |Ended(t, pending[..k], maxAttempts, attempt, Done)|
        invariant summary.failed == |Ended(t, pending[..k], maxAttempts, attempt, Failed)|
      {
        assert pending[k] in pending;
        PartwayNext(t, pending, k, maxAttempts, attempt, Done);
        PartwayNext(t, pending, k, maxAttempts, attempt, Failed);
        var status := WorkOne(pending[k].id, attempt(pending[k].id), maxAttempts);
        if status == Done {
          summary := summary.(done := summary.done + 1);
        } else if status == Failed {
          summary := summary.(failed := summary.failed + 1);
        }
      }
      assert pending[..|pending|] == pending;
      PassIsPartway(t, live, batch, maxAttempts, attempt);
    }
  }

  lemma PassIsPartway(t: Table, live: set<ConnectionId>, batch: nat, maxAttempts: nat, attempt: JobId -> Attempt)
    ensures Pass(t, live, batch, maxAttempts, attempt) == Partway(t, Fetch(t, live, batch), maxAttempts, attempt)
  {
    hide Fetch, AfterAttempt;
  }
}
