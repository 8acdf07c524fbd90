/** Why a download or an analysis ended as it did, which rows a pass takes, and what a day of analyses may cost. */
module QueueLaws {
  import opened Prelude
  import opened Paging
  import opened Queues
  import opened MediaQueue

  // ---- which rows a pass takes ----

  ghost predicate WaitsFor(t: Table, live: set<ConnectionId>, i: JobId) {
    i in t && t[i].status == Pending && !t[i].buried && t[i].connection in live
  }

  /** Taken rows wait for a live session; a waiting row left out is younger than each of them, and the batch is full. */
  lemma OldestFirst(t: Table, live: set<ConnectionId>, batch: nat, i: JobId)
    requires i in t
    ensures Ticket(t[i].created, i) in Fetch(t, live, batch) ==> WaitsFor(t, live, i)
    ensures WaitsFor(t, live, i) && Ticket(t[i].created, i) !in Fetch(t, live, batch) ==>
      && |Fetch(t, live, batch)| == batch
      && forall k :: k in Fetch(t, live, batch) ==> k.created < t[i].created || (k.created == t[i].created && k.id < i)
  {
    assert StrictTotal(ByAge);
    hide StrictTotal;
    var waiting := Waiting(t, live);
    var all := Sorted(ByAge, waiting);
    var k := Ticket(t[i].created, i);
    assert WaitsFor(t, live, i) <==> k in waiting;
    hide Sorted, Waiting;
    if k in all && k !in Fetch(t, live, batch) {
      var n: nat :| n < |all| && all[n] == k;
      assert Fetch(t, live, batch) == all[..batch] && batch <= n;
    }
  }

  /** Every pending row is either downloadable now or counted as skipped. */
  lemma PendingSplits(t: Table, live: set<ConnectionId>)
    ensures forall i :: i in DownloadableIds(t, live) <==> WaitsFor(t, live, i)
    ensures |set i | i in t && t[i].status == Pending && !t[i].buried| == |DownloadableIds(t, live)| + |StrandedIds(t, live)|
    ensures forall i :: i in StrandedIds(t, live) ==> t[i].connection !in live
  {
    var pending := set i | i in t && t[i].status == Pending && !t[i].buried;
    assert pending == DownloadableIds(t, live) + StrandedIds(t, live);
    assert DownloadableIds(t, live) !! StrandedIds(t, live);
  }

  // ---- downloads ----

  predicate TooLarge(size: Option<nat>) {
    size.Some? && size.value > 104_857_600
  }

  /** Pass j takes the row. */
  ghost predicate TakenAt(ts: seq<Table>, live: set<ConnectionId>, batch: nat, j: nat, i: JobId) {
    j < |ts| && i in ts[j] && Ticket(ts[j][i].created, i) in Fetch(ts[j], live, batch)
  }

  /** What one pass makes of a row it takes. */
  lemma PassDecides(t: Table, live: set<ConnectionId>, batch: nat, maxAttempts: nat, attempt: JobId -> Attempt, i: JobId)
    requires i in t
    ensures i in Pass(t, live, batch, maxAttempts, attempt)
    ensures var a, b, v := t[i], Pass(t, live, batch, maxAttempts, attempt)[i], attempt(i);
      && b.connection == a.connection && b.buried == a.buried && b.created == a.created
      && (if Ticket(a.created, i) !in Fetch(t, live, batch) then b == a
          else if TooLarge(a.size) then b.status == Failed && b.size == a.size && b.attempts == a.attempts
          else if v.Downloaded? then
            b.size == Some(v.size) && b.attempts == a.attempts && (b.status == Failed <==> TooLarge(b.size)) && b.status != Pending
          else b.size == a.size && b.attempts == a.attempts + 1 && b.status == (if b.attempts < maxAttempts then Pending else Failed))
  {
    hide Fetch;
  }

  /** The passes before k that took the row and failed to download it. */
  ghost function ThrowsBefore(
      ts: seq<Table>, live: set<ConnectionId>, batch: nat, attempts: seq<JobId -> Attempt>, k: nat, i: JobId): set<nat>
    requires k <= |attempts|
  {
    set j: nat | j < k && TakenAt(ts, live, batch, j, i) && attempts[j](i) == Threw
  }

  ghost predicate DownloadedAt(
      ts: seq<Table>, live: set<ConnectionId>, batch: nat, attempts: seq<JobId -> Attempt>, j: nat, i: JobId, size: nat)
  {
    j < |attempts| && TakenAt(ts, live, batch, j, i) && attempts[j](i) == Downloaded(size)
  }

  /** The state of a row that waited at first, told by the attempts made on it. */
  ghost predicate Explained(
      ts: seq<Table>, live: set<ConnectionId>, batch: nat, maxAttempts: nat, attempts: seq<JobId -> Attempt>, k: nat, i: JobId)
    requires k < |ts| && k <= |attempts| && i in ts[0] && i in ts[k]
  {
    var a0, a := ts[0][i], ts[k][i];
    var throws := |ThrowsBefore(ts, live, batch, attempts, k, i)|;
    match a.status
    case Pending => a.size == a0.size && a.attempts == a0.attempts + throws && (throws > 0 ==> a.attempts < maxAttempts)
    case Done =>
      a.attempts == a0.attempts + throws && !TooLarge(a0.size) && a.size.Some? && !TooLarge(a.size) &&
      exists j: nat :: j < k && DownloadedAt(ts, live, batch, attempts, j, i, a.size.value)
    case Failed =>
      if TooLarge(a.size) then a.size == a0.size || exists j: nat :: j < k && DownloadedAt(ts, live, batch, attempts, j, i, a.size.value)
      else a.size == a0.size && throws > 0 && a.attempts == a0.attempts + throws && a.attempts >= maxAttempts
  }

  lemma ThrowsNext(ts: seq<Table>, live: set<ConnectionId>, batch: nat, attempts: seq<JobId -> Attempt>, k: nat, i: JobId)
    requires k < |attempts|
    ensures |ThrowsBefore(ts, live, batch, attempts, k + 1, i)| == |ThrowsBefore(ts, live, batch, attempts, k, i)| +
      if TakenAt(ts, live, batch, k, i) && attempts[k](i) == Threw then 1 else 0
  {
    hide TakenAt;
    assert ThrowsBefore(ts, live, batch, attempts, k + 1, i) == ThrowsBefore(ts, live, batch, attempts, k, i) +
      if TakenAt(ts, live, batch, k, i) && attempts[k](i) == Threw then {k} else {};
  }

  /**
    * At every moment of every run a row that waited at first is done only if a download of at most 100 MiB was made of it,
    * failed only because it is larger than that or because its attempts are used up, and otherwise has thrown as often
    * as it was tried.
    */
  lemma {:induction false} WhyItEnded(
      ts: seq<Table>, live: set<ConnectionId>, batch: nat, maxAttempts: nat, attempts: seq<JobId -> Attempt>, k: nat, i: JobId)
    requires Passing(ts, live, batch, maxAttempts, attempts) && k < |ts| && WaitsFor(ts[0], live, i)
    ensures i in ts[k] && Explained(ts, live, batch, maxAttempts, attempts, k, i)
  {
    hide Pass, Fetch;
    if k == 0 {
      assert ThrowsBefore(ts, live, batch, attempts, 0, i) == {};
    } else {
      var j := k - 1;
      WhyItEnded(ts, live, batch, maxAttempts, attempts, j, i);
      assert ts[j + 1] == Pass(ts[j], live, batch, maxAttempts, attempts[j]);
      PassDecides(ts[j], live, batch, maxAttempts, attempts[j], i);
      OldestFirst(ts[j], live, batch, i);
      ThrowsNext(ts, live, batch, attempts, j, i);
      hide ThrowsBefore;
      if TakenAt(ts, live, batch, j, i) && attempts[j](i).Downloaded? {
        assert DownloadedAt(ts, live, batch, attempts, j, i, attempts[j](i).size);
      }
    }
  }
}
