/**
  * What createConnection may delete. It reads the rows in one statement, looks for a chat of each in another and clears
  * the row in a third, so a login that completes in between can lose its row, and the archive it has begun.
  */
module Reconnect {
  import opened Prelude
  import opened Lifecycle
  import opened LifecycleSafety

  ghost predicate Doomed(t: Tables, p: ProcId, r: RowId) {
    At(t, p).Some? && At(t, p).value.Creating? && r in At(t, p).value.dead
  }

  /** The next row to clear, and the look at it found no chat. */
  ghost predicate FoundEmpty(t: Tables, p: ProcId, r: RowId) {
    At(t, p).Some? && At(t, p).value.Creating? && At(t, p).value.dead != [] && At(t, p).value.dead[0] == r &&
    At(t, p).value.found == Some(false)
  }

  predicate IsActive(t: Tables, r: RowId) {
    r in t.rows && t.rows[r].status == Active
  }

  predicate HoldsChat(t: Tables, r: RowId) {
    r in t.rows && t.rows[r].holdsChat
  }

  lemma EmptyIsDoomed(t: Tables, p: ProcId, r: RowId)
    requires FoundEmpty(t, p, r)
    ensures Doomed(t, p, r)
  {
  }

  /** Clearing deletes a row if and only if it is next and the look at it found no chat. */
  lemma ClearDeletesIff(t: Tables, p: ProcId, now: Time, r: RowId)
    requires r in t.rows
    ensures r !in Apply(t, CreateClear(p, now)).rows <==> FoundEmpty(t, p, r)
  {
    hide ApplyRows, ApplyRecovery;
  }

  // ---- what one step may change ----

  lemma ProcStepDooms(t: Tables, s: Step, p: ProcId, r: RowId)
    requires Doomed(ApplyProc(t, s), p, r)
    ensures Doomed(t, p, r) || (s.CreateRead? && s.proc == p && r in t.rows && !IsActive(t, r) && ApplyProc(t, s).rows == t.rows)
  {
    hide Taken, SomeAccount, Revoke, ForgetSecret;
  }

  lemma OtherStepsDoomNobody(t: Tables, s: Step, p: ProcId, r: RowId)
    ensures Doomed(ApplyRows(t, s), p, r) ==> Doomed(t, p, r)
    ensures Doomed(ApplyRecovery(t, s), p, r) ==> Doomed(t, p, r)
    ensures FoundEmpty(ApplyRows(t, s), p, r) ==> FoundEmpty(t, p, r)
    ensures FoundEmpty(ApplyRecovery(t, s), p, r) ==> FoundEmpty(t, p, r)
  {
    hide Taken, Known, Publish, AskPassword, RejectPassword, Submit, Complete, Fail, Revoke, Store;
  }

  lemma StepDooms(t: Tables, s: Step, p: ProcId, r: RowId)
    requires Doomed(Apply(t, s), p, r)
    ensures Doomed(t, p, r) || (s.CreateRead? && s.proc == p && r in t.rows && !IsActive(t, r) && Apply(t, s).rows == t.rows)
  {
    hide ApplyRows, ApplyProc, ApplyRecovery, IsActive, Doomed;
    OtherStepsDoomNobody(t, s, p, r);
    if Doomed(ApplyProc(t, s), p, r) {
      ProcStepDooms(t, s, p, r);
    }
  }

  lemma ProcStepFindsEmpty(t: Tables, s: Step, p: ProcId, r: RowId)
    requires FoundEmpty(ApplyProc(t, s), p, r)
    ensures FoundEmpty(t, p, r) || (s == CreateLook(p) && !HoldsChat(t, r) && Doomed(t, p, r) && ApplyProc(t, s).rows == t.rows)
  {
    hide Taken, SomeAccount, Revoke, ForgetSecret, ListsDead;
  }

  lemma StepFindsEmpty(t: Tables, s: Step, p: ProcId, r: RowId)
    requires FoundEmpty(Apply(t, s), p, r)
    ensures FoundEmpty(t, p, r) || (s == CreateLook(p) && !HoldsChat(t, r) && Doomed(t, p, r) && Apply(t, s).rows == t.rows)
  {
    hide ApplyRows, ApplyProc, ApplyRecovery, HoldsChat, Doomed, FoundEmpty;
    OtherStepsDoomNobody(t, s, p, r);
    if FoundEmpty(ApplyProc(t, s), p, r) {
      ProcStepFindsEmpty(t, s, p, r);
    }
  }

  lemma RowStepActivates(t: Tables, s: Step, r: RowId)
    ensures IsActive(ApplyRows(t, s), r) ==> IsActive(t, r) || (s.CompleteLogin? && s.row == r)
    ensures HoldsChat(ApplyRows(t, s), r) ==> HoldsChat(t, r) || (s == StoreChat(r) && IsActive(t, r))
  {
    hide Taken;
  }

  lemma ProcStepActivates(t: Tables, s: Step, r: RowId)
    ensures IsActive(ApplyProc(t, s), r) ==> IsActive(t, r)
    ensures HoldsChat(ApplyProc(t, s), r) ==> HoldsChat(t, r)
  {
    hide Taken, SomeAccount, ListsDead;
  }

  lemma RecoveryStepActivates(t: Tables, s: Step, r: RowId)
    ensures IsActive(ApplyRecovery(t, s), r) ==> IsActive(t, r)
    ensures HoldsChat(ApplyRecovery(t, s), r) ==> HoldsChat(t, r)
  {
    hide Known;
  }

  /** A row becomes active by a login alone, and holds its first chat by a session's store alone. */
  lemma StepActivates(t: Tables, s: Step, r: RowId)
    ensures IsActive(Apply(t, s), r) ==> IsActive(t, r) || (s.CompleteLogin? && s.row == r)
    ensures HoldsChat(Apply(t, s), r) ==> HoldsChat(t, r) || (s == StoreChat(r) && IsActive(t, r))
  {
    hide ApplyRows, ApplyProc, ApplyRecovery, IsActive, HoldsChat;
    RowStepActivates(t, s, r);
    ProcStepActivates(t, s, r);
    RecoveryStepActivates(t, s, r);
  }

  lemma SameRows(t: Tables, t1: Tables, r: RowId)
    requires t1.rows == t.rows
    ensures IsActive(t1, r) == IsActive(t, r) && HoldsChat(t1, r) == HoldsChat(t, r)
  {
  }

  lemma StartDoomsNone(p: ProcId, r: RowId)
    ensures !Doomed(START, p, r) && !FoundEmpty(START, p, r)
  {
  }

  // ---- whole runs ----

  /** Step i is the read of process p, and found the row neither missing nor active. */
  ghost predicate ReadDead(steps: seq<Step>, i: nat, p: ProcId, r: RowId) {
    i < |steps| && steps[i].CreateRead? && steps[i].proc == p &&
    r in Run(START, steps[..i]).rows && !IsActive(Run(START, steps[..i]), r)
  }

  predicate LoggedInAfter(steps: seq<Step>, i: nat, r: RowId) {
    exists j :: i < j < |steps| && steps[j].CompleteLogin? && steps[j].row == r
  }

  /** Whatever is on a list was read dead, and if it is active now its login completed after that. */
  lemma {:induction false} ActiveWasReadDead(steps: seq<Step>, p: ProcId, r: RowId) returns (i: nat)
    requires Doomed(Run(START, steps), p, r)
    ensures ReadDead(steps, i, p, r) && (IsActive(Run(START, steps), r) ==> LoggedInAfter(steps, i, r))
  {
    hide Apply, Doomed, IsActive;
    if steps == [] {
      i := 0;
      assert false by { StartDoomsNone(p, r); }
    } else {
      var n := |steps| - 1;
      var t, s := Run(START, steps[..n]), steps[n];
      StepDooms(t, s, p, r);
      if Doomed(t, p, r) {
        i := ActiveWasReadDead(steps[..n], p, r);
        assert steps[..n][..i] == steps[..i];
        if IsActive(Apply(t, s), r) {
          StepActivates(t, s, r);
          if IsActive(t, r) {
            var j :| i < j < n && steps[..n][j].CompleteLogin? && steps[..n][j].row == r;
            assert steps[j].CompleteLogin?;
          }
        }
      } else {
        i := n;
        SameRows(t, Apply(t, s), r);
      }
    }
  }

  /** Step i is the look of process p, and the row held no chat then. */
  ghost predicate LookedEmpty(steps: seq<Step>, i: nat, p: ProcId, r: RowId) {
    i < |steps| && steps[i] == CreateLook(p) && !HoldsChat(Run(START, steps[..i]), r)
  }

  /** Step j stores the row's first chat, after step i, for an active row that process p is about to clear. */
  ghost predicate StoredAfter(steps: seq<Step>, i: nat, j: nat, p: ProcId, r: RowId) {
    i < j < |steps| && steps[j] == StoreChat(r) && IsActive(Run(START, steps[..j]), r) && Doomed(Run(START, steps[..j]), p, r)
  }

  /** A row found empty held no chat at the look, and if it holds one now, that was stored after the look. */
  lemma {:induction false} ChatCameAfterTheLook(steps: seq<Step>, p: ProcId, r: RowId) returns (i: nat, j: nat)
    requires FoundEmpty(Run(START, steps), p, r)
    ensures LookedEmpty(steps, i, p, r) && (HoldsChat(Run(START, steps), r) ==> StoredAfter(steps, i, j, p, r))
  {
    hide Apply, Doomed, FoundEmpty, IsActive, HoldsChat;
    i, j := 0, 0;
    if steps == [] {
      assert false by { StartDoomsNone(p, r); }
    } else {
      var n := |steps| - 1;
      var t, s := Run(START, steps[..n]), steps[n];
      StepFindsEmpty(t, s, p, r);
      if FoundEmpty(t, p, r) {
        i, j := ChatCameAfterTheLook(steps[..n], p, r);
        assert steps[..n][..i] == steps[..i];
        EmptyIsDoomed(t, p, r);
        StepActivates(t, s, r);
        if HoldsChat(t, r) {
          assert steps[..n][..j] == steps[..j];
        } else {
          j := n;
        }
      } else {
        i := n;
        SameRows(t, Apply(t, s), r);
      }
    }
  }

  /**
    * An active row is deleted by a new attempt if and only if the look at it found no chat; its login then completed
    * after the attempt had read the rows and found it not active.
    */
  lemma ActiveDeletedIff(steps: seq<Step>, p: ProcId, now: Time, r: RowId) returns (i: nat)
    requires IsActive(Run(START, steps), r)
    ensures r !in Apply(Run(START, steps), CreateClear(p, now)).rows <==> FoundEmpty(Run(START, steps), p, r)
    ensures FoundEmpty(Run(START, steps), p, r) ==> ReadDead(steps, i, p, r) && LoggedInAfter(steps, i, r)
  {
    hide Run;
    var t := Run(START, steps);
    ClearDeletesIff(t, p, now, r);
    hide Apply, FoundEmpty, Doomed;
    i := 0;
    if FoundEmpty(t, p, r) {
      EmptyIsDoomed(t, p, r);
      i := ActiveWasReadDead(steps, p, r);
    }
  }

  /**
    * A row that holds an archive is deleted by a new attempt if and only if the look at it found no chat. Its first chat
    * was then stored after that look, on a row the attempt had read as not active and whose login completed since.
    */
  lemma ArchiveDeletedIff(steps: seq<Step>, p: ProcId, now: Time, r: RowId) returns (read: nat, look: nat, store: nat)
    requires HoldsChat(Run(START, steps), r)
    ensures r !in Apply(Run(START, steps), CreateClear(p, now)).rows <==> FoundEmpty(Run(START, steps), p, r)
    ensures FoundEmpty(Run(START, steps), p, r) ==>
      LookedEmpty(steps, look, p, r) && StoredAfter(steps, look, store, p, r) &&
      ReadDead(steps[..store], read, p, r) && LoggedInAfter(steps[..store], read, r)
  {
    hide Run;
    var t := Run(START, steps);
    ClearDeletesIff(t, p, now, r);
    hide Apply, FoundEmpty, Doomed, IsActive;
    read, look, store := 0, 0, 0;
    if FoundEmpty(t, p, r) {
      look, store := ChatCameAfterTheLook(steps, p, r);
      read := ActiveWasReadDead(steps[..store], p, r);
    }
  }

  // ---- a run where it happens ----

  /** A pending row has been listed by an attempt, which has looked and found no chat. */
  function Looked(): Tables {
    Tables(map[0 := NewConn(WhatsApp, Archive)], {1}, [], map[0 := Creating(WhatsApp, [0], Some(false))], 2)
  }

  lemma ListedAfter()
    ensures var t := Apply(Apply(Apply(START, Setup(WhatsApp, None, true)), MintKey), CreateRead(0, WhatsApp, true, [0]));
      t == Looked().(procs := map[0 := Creating(WhatsApp, [0], None)])
  {
    var t1 := Apply(START, Setup(WhatsApp, None, true));
    assert Claims(map[]) == {} && START.rows - {} == map[];
    assert t1 == Tables(map[0 := NewConn(WhatsApp, Archive)], {}, [], map[], 1);
    var t2 := Apply(t1, MintKey);
    assert {} + {1} == {1};
    assert ListsDead(t2.rows, WhatsApp, [0]);
  }

  lemma LookedAfter()
    ensures Apply(Looked().(procs := map[0 := Creating(WhatsApp, [0], None)]), CreateLook(0)) == Looked()
  {
    hide ApplyRows, ApplyRecovery;
    assert map[0 := Creating(WhatsApp, [0], None)][0 := Creating(WhatsApp, [0], Some(false))] == Looked().procs;
  }

  /** Then its login completes and its session stores a chat. */
  lemma ArchiveBegun()
    ensures var t := Apply(Apply(Looked(), CompleteLogin(0, "s", "a")), StoreChat(0)); IsActive(t, 0) && HoldsChat(t, 0) && FoundEmpty(t, 0, 0)
  {
    hide ApplyProc, ApplyRecovery;
  }

  lemma RunSplit(t: Tables, a: seq<Step>, s: Step)
    ensures Run(t, a + [s]) == Apply(Run(t, a), s)
  {
    hide Apply;
    assert (a + [s])[..|a|] == a;
  }

  const RACE := [Setup(WhatsApp, None, true), MintKey, CreateRead(0, WhatsApp, true, [0]), CreateLook(0)] + [CompleteLogin(0, "s", "a")] + [StoreChat(0)]

  /** The archive is deleted behind the owner's back. */
  lemma ArchiveCanBeDeleted(now: Time)
    ensures var t := Run(START, RACE); IsActive(t, 0) && HoldsChat(t, 0) && 0 !in Apply(t, CreateClear(0, now)).rows
  {
    var front := [Setup(WhatsApp, None, true), MintKey, CreateRead(0, WhatsApp, true, [0]), CreateLook(0)];
    RunFour(START, Setup(WhatsApp, None, true), MintKey, CreateRead(0, WhatsApp, true, [0]), CreateLook(0));
    ListedAfter();
    LookedAfter();
    ArchiveBegun();
    hide Run, Apply, Looked, FoundEmpty;
    RunSplit(START, front, CompleteLogin(0, "s", "a"));
    RunSplit(START, front + [CompleteLogin(0, "s", "a")], StoreChat(0));
    ClearDeletesIff(Run(START, RACE), 0, now, 0);
  }
}
