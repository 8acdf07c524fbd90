/** Bounded retry queues: every pass takes a batch of what is left, and everything taken has less left to try. */
module Queues {
  import opened Prelude
  import opened Paging

  type JobId = nat

  /** How many more attempts each job may take; a settled or unreachable job has none. */
  type Weights = map<JobId, nat>

  function Active(w: Weights): set<JobId> {
    set i | i in w && w[i] > 0
  }

  function Least(a: nat, b: nat): nat {
    if a < b then a else b
  }

  /** One pass over the jobs in `taken`. */
  ghost predicate Passes(w: Weights, w1: Weights, taken: set<JobId>, batch: nat) {
    && w1.Keys == w.Keys && taken <= Active(w) && |taken| == Least(batch, |Active(w)|)
    && (forall i :: i in w ==> if i in taken then w1[i] < w[i] else w1[i] == w[i])
  }

  ghost predicate OnePass(w: Weights, w1: Weights, batch: nat) {
    exists taken :: Passes(w, w1, taken, batch)
  }

  ghost predicate Drains(ws: seq<Weights>, batch: nat) {
    ws != [] && forall k :: 0 <= k < |ws| - 1 ==> OnePass(ws[k], ws[k + 1], batch)
  }

  /** Everything left has j attempts fewer than the limit. */
  ghost predicate Tried(w: Weights, j: nat, max: nat) {
    forall i :: i in w && w[i] > 0 ==> w[i] + j <= max
  }

  ghost predicate AtMostEach(w: Weights, max: nat) {
    forall i :: i in w ==> w[i] <= max
  }

  ghost function Total(w: Weights, ids: set<JobId>): nat
    requires ids <= w.Keys
  {
    if ids == {} then 0
    else
      var i :| i in ids;
      w[i] + Total(w, ids - {i})
  }

  lemma {:induction false} TotalRemove(w: Weights, ids: set<JobId>, i: JobId)
    requires ids <= w.Keys && i in ids
    ensures Total(w, ids) == w[i] + Total(w, ids - {i})
  {
    var j :| j in ids && Total(w, ids) == w[j] + Total(w, ids - {j});
    if i != j {
      TotalRemove(w, ids - {j}, i);
      TotalRemove(w, ids - {i}, j);
      assert ids - {i} - {j} == ids - {j} - {i};
    }
  }

  /** Every job taken costs the total at least one attempt. */
  lemma {:induction false} TotalDrops(w: Weights, w1: Weights, ids: set<JobId>, taken: set<JobId>)
    requires ids <= w.Keys && w1.Keys == w.Keys && taken <= ids
    requires forall i :: i in ids ==> if i in taken then w1[i] < w[i] else w1[i] <= w[i]
    ensures Total(w1, ids) + |taken| <= Total(w, ids)
    decreases |ids|
  {
    if ids != {} {
      var i :| i in ids;
      TotalRemove(w, ids, i);
      TotalRemove(w1, ids, i);
      TotalDrops(w, w1, ids - {i}, taken - {i});
    }
  }

  lemma ActiveWithout(w: Weights, ids: set<JobId>, i: JobId)
    requires ids <= w.Keys && i in ids
    ensures |ids * Active(w)| == |(ids - {i}) * Active(w)| + if w[i] > 0 then 1 else 0
  {
    if w[i] > 0 {
      assert ids * Active(w) == (ids - {i}) * Active(w) + {i};
    } else {
      assert ids * Active(w) == (ids - {i}) * Active(w);
    }
  }

  lemma OneMore(max: nat, n: nat)
    ensures max * (n + 1) == max * n + max
  {
  }

  lemma {:induction false} TotalAtLeast(w: Weights, ids: set<JobId>)
    requires ids <= w.Keys
    ensures |ids * Active(w)| <= Total(w, ids)
    decreases |ids|
  {
    if ids == {} {
      assert ids * Active(w) == {};
    } else {
      var i :| i in ids;
      TotalRemove(w, ids, i);
      TotalAtLeast(w, ids - {i});
      ActiveWithout(w, ids, i);
      hide Active, Total;
    }
  }

  lemma {:induction false} TotalAtMost(w: Weights, ids: set<JobId>, max: nat)
    requires ids <= w.Keys && AtMostEach(w, max)
    ensures Total(w, ids) <= max * |ids * Active(w)|
    decreases |ids|
  {
    if ids == {} {
      assert ids * Active(w) == {};
    } else {
      var i :| i in ids;
      TotalRemove(w, ids, i);
      TotalAtMost(w, ids - {i}, max);
      ActiveWithout(w, ids, i);
      OneMore(max, |(ids - {i}) * Active(w)|);
      hide Active, Total;
    }
  }

  lemma WholeSet(a: set<JobId>, b: set<JobId>)
    requires a <= b && |a| == |b|
    ensures a == b
  {
    assert |b - a| == |b| - |a| by { assert b == a + (b - a); }
  }

  lemma PassShrinks(w: Weights, w1: Weights, taken: set<JobId>, batch: nat)
    requires Passes(w, w1, taken, batch)
    ensures Active(w1) <= Active(w) && |Active(w1)| <= |Active(w)|
    ensures Total(w1, w.Keys) + |taken| <= Total(w, w.Keys)
    ensures |Active(w)| <= batch ==> forall i :: i in w && w[i] > 0 ==> w1[i] < w[i]
  {
    TotalDrops(w, w1, w.Keys, taken);
    SubsetCardinality(Active(w1), Active(w));
    if |Active(w)| <= batch {
      WholeSet(taken, Active(w));
    }
  }

  /** While full batches are found, each pass costs a batch of attempts. */
  lemma {:induction false} FullPasses(ws: seq<Weights>, batch: nat, k: nat)
    requires Drains(ws, batch) && k < |ws|
    ensures ws[k].Keys == ws[0].Keys
    ensures |Active(ws[k])| < batch || Total(ws[k], ws[k].Keys) + Full(k, batch) <= Total(ws[0], ws[0].Keys)
  {
    if k > 0 {
      FullPasses(ws, batch, k - 1);
      assert OnePass(ws[k - 1], ws[k - 1 + 1], batch);
      var taken :| Passes(ws[k - 1], ws[k], taken, batch);
      PassShrinks(ws[k - 1], ws[k], taken, batch);
      hide Total;
    }
  }

  /** Once everything left fits one batch, every pass takes an attempt off everything left. */
  lemma {:induction false} ShortPasses(ws: seq<Weights>, batch: nat, max: nat, k: nat, j: nat)
    requires Drains(ws, batch) && k + j < |ws| && AtMostEach(ws[k], max) && |Active(ws[k])| < batch
    ensures |Active(ws[k + j])| < batch
    ensures Tried(ws[k + j], j, max)
  {
    if j > 0 {
      ShortPasses(ws, batch, max, k, j - 1);
      var before := k + j - 1;
      assert OnePass(ws[before], ws[before + 1], batch);
      var taken :| Passes(ws[before], ws[before + 1], taken, batch);
      PassShrinks(ws[before], ws[before + 1], taken, batch);
      hide Active, Total, Drains;
    }
  }

  lemma {:induction false} WeightsFall(ws: seq<Weights>, batch: nat, max: nat, k: nat)
    requires Drains(ws, batch) && k < |ws| && AtMostEach(ws[0], max)
    ensures AtMostEach(ws[k], max)
  {
    if k > 0 {
      WeightsFall(ws, batch, max, k - 1);
      assert OnePass(ws[k - 1], ws[k - 1 + 1], batch);
      var taken :| Passes(ws[k - 1], ws[k], taken, batch);
    }
  }

  /** With n jobs left at first, nothing is left after floor(max * n / batch) + max passes. */
  lemma DrainsInTime(ws: seq<Weights>, batch: nat, max: nat)
    requires Drains(ws, batch) && batch >= 1 && AtMostEach(ws[0], max)
    requires |ws| > max * |Active(ws[0])| / batch + max
    ensures Active(ws[max * |Active(ws[0])| / batch + max]) == {}
  {
    var n := |Active(ws[0])|;
    var full := max * n / batch;
    assert full >= 0 by { QuotientNat(max * n, batch); }
    TotalAtMost(ws[0], ws[0].Keys, max);
    assert ws[0].Keys * Active(ws[0]) == Active(ws[0]);
    FullPasses(ws, batch, full);
    WeightsFall(ws, batch, max, full);
    assert |Active(ws[full])| < batch by {
      TotalAtLeast(ws[full], ws[full].Keys);
      assert ws[full].Keys * Active(ws[full]) == Active(ws[full]);
      FullIs(full, batch);
      Remainder(max * n, batch);
    }
    ShortPasses(ws, batch, max, full, max);
  }

  lemma QuotientNat(a: nat, batch: nat)
    requires batch >= 1
    ensures a / batch >= 0
  {
  }

  lemma Remainder(a: nat, batch: nat)
    requires batch >= 1
    ensures a < a / batch * batch + batch
  {
    assert a == batch * (a / batch) + a % batch;
  }
}
