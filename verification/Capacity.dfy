/** How the size of the message_disputes table moves when one message's slot changes. */
module Capacity {
  import opened Prelude
  import opened ArchiveTypes
  import opened Disputes

  lemma {:induction false} SumRemove(refs: set<Ref>, r: Ref)
    requires r in refs
    ensures SumBytes(refs) == TextBytes(r.key.text) + SumBytes(refs - {r})
  {
    var first :| first in refs && SumBytes(refs) == TextBytes(first.key.text) + SumBytes(refs - {first});
    if first != r {
      SumRemove(refs - {first}, r);
      SumRemove(refs - {r}, first);
      assert refs - {first} - {r} == refs - {r} - {first};
    }
  }

  lemma {:induction false} SumSubset(a: set<Ref>, b: set<Ref>)
    requires a <= b
    ensures SumBytes(a) <= SumBytes(b)
  {
    if a != b {
      assert b - a != {} by { assert forall x :: x in b ==> x in a || x in b - a; }
      var r :| r in b - a;
      SumRemove(b, r);
      SumSubset(a, b - {r});
    }
  }

  ghost predicate AtMost(a: Budget, b: Budget) {
    a.n <= b.n && a.bytes <= b.bytes
  }

  lemma PendingShrinks(less: map<Place, Slot>, more: map<Place, Slot>)
    requires Refs(less) <= Refs(more)
    ensures AtMost(Pending(less), Pending(more))
  {
    SubsetCardinality(Refs(less), Refs(more));
    SumSubset(Refs(less), Refs(more));
  }

  /** Replacing a slot by one with no new candidates. */
  lemma PutShrinks(m: map<Place, Slot>, p: Place, s: Slot)
    requires forall k :: k in s.cands ==> p in m && k in m[p].cands
    ensures AtMost(Pending(m[p := s]), Pending(m))
  {
    PendingShrinks(m[p := s], m);
  }

  lemma PutSame(m: map<Place, Slot>, p: Place, s: Slot)
    requires s.cands.Keys == if p in m then m[p].cands.Keys else {}
    ensures Pending(m[p := s]) == Pending(m)
  {
    var n := m[p := s];
    forall r ensures r in Refs(n) <==> r in Refs(m) {
    }
    assert Refs(n) == Refs(m);
  }

  lemma PutAdds(m: map<Place, Slot>, p: Place, s: Slot, k: CandKey)
    requires p in m && k !in m[p].cands && s.cands.Keys == m[p].cands.Keys + {k}
    ensures Pending(m[p := s]) == Budget(Pending(m).n + 1, Pending(m).bytes + TextBytes(k.text))
  {
    var n := m[p := s];
    var r := Ref(p, k);
    RefsAdd(m, p, s, k);
    hide Refs;
    SumRemove(Refs(n), r);
    assert Refs(n) - {r} == Refs(m);
  }

  lemma RefsAdd(m: map<Place, Slot>, p: Place, s: Slot, k: CandKey)
    requires p in m && k !in m[p].cands && s.cands.Keys == m[p].cands.Keys + {k}
    ensures Refs(m[p := s]) == Refs(m) + {Ref(p, k)} && Ref(p, k) !in Refs(m)
  {
    var n := m[p := s];
    forall q ensures q in Refs(n) <==> q in Refs(m) || q == Ref(p, k) {
    }
  }
}
