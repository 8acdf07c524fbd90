/** Whose account opens the archive again: sessions, accounts, verdicts and recovery keys, traced through every run. */
module RecoveryLaws {
  import opened Prelude
  import opened Lifecycle

  // ---- logins ----

  /** A login that found its row open and pending. */
  predicate LogsIn(t: Tables, s: Step, q: RowId) {
    s.CompleteLogin? && s.row == q && q in t.rows && t.rows[q].status == Pending && t.rows[q].revokedAt == None
  }

  predicate SamePlace(c: Conn, d: Conn) {
    d.channel == c.channel && d.purpose == c.purpose
  }

  /** What one step may do to a row's account, session and status. */
  predicate StepsOn(t: Tables, s: Step, q: RowId, c: Conn, d: Conn) {
    && SamePlace(c, d)
    && (if LogsIn(t, s, q) then
          d.status == Active && d.account == Some(s.account) && d.session == Some(s.session) && d.secret == None && d.qr == None
        else
          d.account == c.account && (d.session == c.session || d.session == None) &&
          (d.status == c.status || d.status == Failed || d.status == Revoked) && (d.status == Active ==> d.session == c.session))
  }

  ghost predicate RowsFollow(t: Tables, s: Step, end: Tables) {
    forall q :: q in end.rows ==>
      if q in t.rows then StepsOn(t, s, q, t.rows[q], end.rows[q])
      else end.rows[q].status == Pending && end.rows[q].account == None && end.rows[q].session == None &&
           end.rows[q].verdict == None && end.rows[q].recoveryKey == None
  }

  /** Row ids are handed out once. */
  ghost predicate Fresh(t: Tables) {
    forall q :: q in t.rows ==> q < t.serial
  }

  lemma RowStepFollows(t: Tables, s: Step)
    requires Fresh(t)
    ensures RowsFollow(t, s, ApplyRows(t, s))
  {
    hide Taken;
  }

  lemma ProcStepFollows(t: Tables, s: Step)
    requires Fresh(t)
    ensures !s.CompleteLogin? ==> RowsFollow(t, s, ApplyProc(t, s))
  {
    hide Taken, SomeAccount, ListsDead;
  }

  lemma RecoveryStepFollows(t: Tables, s: Step)
    requires Fresh(t)
    ensures !s.CompleteLogin? ==> RowsFollow(t, s, ApplyRecovery(t, s))
  {
    hide Known;
  }

  lemma StepFresh(t: Tables, s: Step)
    requires Fresh(t)
    ensures Fresh(Apply(t, s))
  {
    hide Apply;
    forall q | q in Apply(t, s).rows ensures q < Apply(t, s).serial {
      FreshOnly(t, s, q);
    }
  }

  lemma StepFollows(t: Tables, s: Step)
    requires Fresh(t)
    ensures Fresh(Apply(t, s))
    ensures RowsFollow(t, s, Apply(t, s))
  {
    StepFresh(t, s);
    hide ApplyRows, ApplyProc, ApplyRecovery, RowsFollow, Fresh;
    RowStepFollows(t, s);
    ProcStepFollows(t, s);
    RecoveryStepFollows(t, s);
  }

  lemma {:induction false} AlwaysFresh(t: Tables, steps: seq<Step>)
    requires Fresh(t)
    ensures Fresh(Run(t, steps))
  {
    hide Apply, Fresh;
    if steps != [] {
      AlwaysFresh(t, steps[..|steps| - 1]);
      StepFollows(Run(t, steps[..|steps| - 1]), steps[|steps| - 1]);
    }
  }

  /** Step i of the run logged the row in, as a row of this channel and purpose, with this account and session. */
  ghost predicate LoggedInAt(steps: seq<Step>, i: nat, q: RowId, c: Conn, account: string) {
    i < |steps| && LogsIn(Run(START, steps[..i]), steps[i], q) && steps[i].account == account &&
    q in Run(START, steps[..i]).rows && SamePlace(Run(START, steps[..i]).rows[q], c)
  }

  /** An account and a session are those of one login of that very row; an active row has both. */
  ghost predicate OfItsLogin(steps: seq<Step>, q: RowId, c: Conn) {
    && (c.account.Some? ==> exists i: nat :: LoggedInAt(steps, i, q, c, c.account.value))
    && (c.session.Some? ==>
          c.account.Some? && exists i: nat :: LoggedInAt(steps, i, q, c, c.account.value) && steps[i].session == c.session.value)
    && (c.status == Active ==> c.account.Some? && c.session.Some?)
    && (c.status == Pending ==> c.account == None && c.session == None)
  }

  lemma {:induction false} LoginLasts(steps: seq<Step>, s: Step, i: nat, q: RowId, c: Conn, d: Conn, account: string)
    requires LoggedInAt(steps, i, q, c, account) && SamePlace(c, d)
    ensures LoggedInAt(steps + [s], i, q, d, account) && (steps + [s])[i] == steps[i]
  {
    hide Run;
    assert (steps + [s])[..i] == steps[..i];
  }

  lemma {:induction false} SessionsAreOfLogins(steps: seq<Step>, q: RowId)
    requires q in Run(START, steps).rows
    ensures OfItsLogin(steps, q, Run(START, steps).rows[q])
  {
    hide Apply;
    if steps != [] {
      var n := |steps| - 1;
      var front, s := steps[..n], steps[n];
      var t := Run(START, front);
      AlwaysFresh(START, front);
      StepFollows(t, s);
      assert front + [s] == steps;
      if q in t.rows {
        SessionsAreOfLogins(front, q);
        hide Run;
        NextLogin(front, s, t, q, t.rows[q], Apply(t, s).rows[q]);
      }
    }
  }

  lemma NextLogin(front: seq<Step>, s: Step, t: Tables, q: RowId, c: Conn, d: Conn)
    requires t == Run(START, front) && q in t.rows && c == t.rows[q] && OfItsLogin(front, q, c) && StepsOn(t, s, q, c, d)
    ensures OfItsLogin(front + [s], q, d)
  {
    hide Run;
    var steps := front + [s];
    assert steps[..|front|] == front && steps[|front|] == s;
    if LogsIn(t, s, q) {
      assert LoggedInAt(steps, |front|, q, d, s.account);
    } else {
      if d.account.Some? {
        var i: nat :| LoggedInAt(front, i, q, c, c.account.value);
        LoginLasts(front, s, i, q, c, d, c.account.value);
      }
      if d.session.Some? {
        var i: nat :| LoggedInAt(front, i, q, c, c.account.value) && front[i].session == c.session.value;
        LoginLasts(front, s, i, q, c, d, c.account.value);
      }
    }
  }

  // ---- verdicts ----

  /** Step i reported this account for row r, an open pending recovery row of the reported channel. */
  ghost predicate ReportedAt(steps: seq<Step>, i: nat, r: RowId, account: string) {
    i < |steps| && steps[i].JudgeRead? && steps[i].row == r && steps[i].account == account &&
    var t := Run(START, steps[..i]);
    r in t.rows && t.rows[r].purpose == Recovery && t.rows[r].channel == steps[i].channel && t.rows[r].status == Pending && t.rows[r].revokedAt == None
  }

  /** The account reported for the row had logged in before, on an archive row of the row's channel. */
  ghost predicate Entitled(steps: seq<Step>, r: RowId) {
    exists i: nat, j: nat, q, c: Conn, account :: EntitledBy(steps, r, i, j, q, c, account)
  }

  ghost predicate EntitledBy(steps: seq<Step>, r: RowId, i: nat, j: nat, q: RowId, c: Conn, account: string) {
    ReportedAt(steps, j, r, account) && LoggedInAt(steps[..j], i, q, c, account) && c.purpose == Archive && c.channel == steps[j].channel
  }

  /** Anything a match leaves behind for a row: its verdict, its key, or a process on the way from one to the other. */
  ghost predicate Favours(t: Tables, r: RowId) {
    || (r in t.rows && (t.rows[r].verdict == Some(Matched) || t.rows[r].recoveryKey.Some?))
    || exists p :: p in t.procs && FavoursIn(t.procs[p], r)
  }

  predicate FavoursIn(l: Local, r: RowId) {
    l == Judged(r, Matched) || (l.Minted? && l.row == r) || (l.Claiming? && l.row == r)
  }

  /** Everything a match leaves behind belongs to an entitled row. */
  ghost predicate OnlyEntitled(steps: seq<Step>, t: Tables) {
    (forall r :: Favours(t, r) ==> Entitled(steps, r)) && (t.handed != [] ==> exists r :: Entitled(steps, r))
  }

  lemma EntitledLasts(steps: seq<Step>, s: Step, r: RowId)
    requires Entitled(steps, r)
    ensures Entitled(steps + [s], r)
  {
    hide LoggedInAt, Run;
    var i: nat, j: nat, q, c: Conn, account :| EntitledBy(steps, r, i, j, q, c, account);
    assert (steps + [s])[..j] == steps[..j];
    assert EntitledBy(steps + [s], r, i, j, q, c, account);
  }

  /** The read of a verdict finds a match only among accounts that logged in. */
  lemma MatchIsEntitled(steps: seq<Step>, p: ProcId, r: RowId, channel: Channel, account: string)
    requires MatchesNow(Run(START, steps), p, r, channel, account)
    ensures Entitled(steps + [JudgeRead(p, r, channel, account)], r)
  {
    var s := JudgeRead(p, r, channel, account);
    var all := steps + [s];
    assert all[..|steps|] == steps && all[|steps|] == s;
    var t := Run(START, steps);
    hide Run;
    var q :| q in t.rows && t.rows[q].channel == channel && t.rows[q].purpose == Archive && t.rows[q].account == Some(account);
    SessionsAreOfLogins(steps, q);
    var i: nat :| LoggedInAt(steps, i, q, t.rows[q], account);
    assert ReportedAt(all, |steps|, r, account);
    hide LoggedInAt, ReportedAt;
    assert EntitledBy(all, r, i, |steps|, q, t.rows[q], account);
  }

  /** The read of process p judges the account a match for row r. */
  ghost predicate MatchesNow(t: Tables, p: ProcId, r: RowId, channel: Channel, account: string) {
    p !in t.procs && Get(Apply(t, JudgeRead(p, r, channel, account)).procs, p) == Some(Judged(r, Matched))
  }

  // ---- what one step favours ----

  lemma RowsFavour(t: Tables, s: Step, r: RowId)
    ensures Favours(ApplyRows(t, s), r) ==> Favours(t, r)
    ensures ApplyRows(t, s).handed == t.handed
  {
    hide Taken;
    if Favours(ApplyRows(t, s), r) && exists p :: p in t.procs && FavoursIn(t.procs[p], r) {
      assert Favours(t, r);
    }
  }

  lemma ProcsFavour(t: Tables, s: Step, r: RowId)
    ensures Favours(ApplyProc(t, s), r) ==> Favours(t, r)
    ensures ApplyProc(t, s).handed == t.handed
  {
    hide Taken, SomeAccount, ListsDead;
    var t1 := ApplyProc(t, s);
    if p :| p in t1.procs && FavoursIn(t1.procs[p], r) {
      assert p in t.procs && t.procs[p] == t1.procs[p];
    }
  }

  lemma RecoveryFavours(t: Tables, s: Step, r: RowId)
    ensures Favours(ApplyRecovery(t, s), r) ==> Favours(t, r) || (s.JudgeRead? && s.row == r && MatchesNow(t, s.proc, r, s.channel, s.account))
    ensures ApplyRecovery(t, s).handed != [] ==> t.handed != [] || exists q :: Favours(t, q)
  {
    var t1 := ApplyRecovery(t, s);
    ByRecovery(t, s);
    hide Known, Revoke, Apply;
    if r in t1.rows && (t1.rows[r].verdict == Some(Matched) || t1.rows[r].recoveryKey.Some?) {
      RowFavoured(t, s, r);
    }
    if p :| p in t1.procs && FavoursIn(t1.procs[p], r) {
      ProcFavoured(t, s, r, p);
    }
    HandedFavoured(t, s);
  }

  lemma ByRecovery(t: Tables, s: Step)
    ensures s.JudgeRead? ==> Apply(t, s) == ApplyRecovery(t, s)
  {
    hide ApplyRecovery;
  }

  lemma RowFavoured(t: Tables, s: Step, r: RowId)
    requires var t1 := ApplyRecovery(t, s); r in t1.rows && (t1.rows[r].verdict == Some(Matched) || t1.rows[r].recoveryKey.Some?)
    ensures Favours(t, r)
  {
    hide Known;
    if s.JudgeRecord? && s.proc in t.procs && t.procs[s.proc].Minted? && t.procs[s.proc].row == r {
      assert FavoursIn(t.procs[s.proc], r);
    }
  }

  lemma ProcFavoured(t: Tables, s: Step, r: RowId, p: ProcId)
    requires var t1 := ApplyRecovery(t, s); p in t1.procs && FavoursIn(t1.procs[p], r)
    ensures Favours(t, r) || (s.JudgeRead? && s.row == r && MatchesNow(t, s.proc, r, s.channel, s.account))
  {
    ByRecovery(t, s);
    hide Known, Revoke, Apply;
    if p in t.procs && FavoursIn(t.procs[p], r) {
      assert Favours(t, r);
    }
  }

  lemma HandedFavoured(t: Tables, s: Step)
    ensures ApplyRecovery(t, s).handed != [] ==> t.handed != [] || exists q :: Favours(t, q)
  {
    hide Known, Revoke;
    if s.ClaimWrite? && s.proc in t.procs && t.procs[s.proc].Claiming? {
      assert FavoursIn(t.procs[s.proc], t.procs[s.proc].row);
      assert Favours(t, t.procs[s.proc].row);
    }
  }

  lemma StepFavours(t: Tables, s: Step, r: RowId)
    ensures Favours(Apply(t, s), r) ==> Favours(t, r) || (s.JudgeRead? && s.row == r && MatchesNow(t, s.proc, r, s.channel, s.account))
    ensures Apply(t, s).handed != [] ==> t.handed != [] || exists q :: Favours(t, q)
  {
    OneOfThree(t, s);
    hide Apply, ApplyRows, ApplyProc, ApplyRecovery, Favours, MatchesNow;
    RowsFavour(t, s, r);
    ProcsFavour(t, s, r);
    RecoveryFavours(t, s, r);
  }

  /**
    * In every interleaving: a verdict of matched, a stored recovery key and a key handed out all go back to a report of
    * an account that had logged in before on an archive row of that channel.
    */
  lemma {:induction false} OnlyTheOwnerRecovers(steps: seq<Step>)
    ensures OnlyEntitled(steps, Run(START, steps))
  {
    hide Apply, Entitled, MatchesNow, Favours;
    if steps == [] {
      NobodyAtStart();
    } else {
      var front, s := steps[..|steps| - 1], steps[|steps| - 1];
      var t := Run(START, front);
      assert front + [s] == steps && Run(START, steps) == Apply(t, s);
      OnlyTheOwnerRecovers(front);
      hide Run;
      forall r | Entitled(front, r) ensures Entitled(steps, r) {
        EntitledLasts(front, s, r);
      }
      forall r | Favours(Apply(t, s), r) ensures Entitled(steps, r) {
        StepFavours(t, s, r);
        if !Favours(t, r) {
          MatchIsEntitled(front, s.proc, r, s.channel, s.account);
        }
      }
      StepFavours(t, s, 0);
    }
  }

  lemma NobodyAtStart()
    ensures START.handed == [] && forall r :: !Favours(START, r)
  {
  }

  lemma OneOfThree(t: Tables, s: Step)
    ensures Apply(t, s) == ApplyRows(t, s) || Apply(t, s) == ApplyProc(t, s) || Apply(t, s) == ApplyRecovery(t, s)
  {
    hide ApplyRows, ApplyProc, ApplyRecovery;
  }

  // ---- and the owner does ----

  /** A row that logged in keeps that account for as long as it exists. */
  lemma {:induction false} AccountLasts(before: seq<Step>, s: Step, q: RowId, after: seq<Step>)
    requires LogsIn(Run(START, before), s, q)
    requires var t := Apply(Run(START, before), s); q in Run(t, after).rows
    ensures var t := Apply(Run(START, before), s); var t0 := Run(START, before);
      var c := Run(t, after).rows[q];
      q in t0.rows && SamePlace(t0.rows[q], c) && c.account == Some(s.account) && c.status != Pending
  {
    hide Apply;
    var t0 := Run(START, before);
    var t := Apply(t0, s);
    AlwaysFresh(START, before);
    StepFollows(t0, s);
    LoginKeepsRow(t0, s, q);
    if after != [] {
      var front, last := after[..|after| - 1], after[|after| - 1];
      var mid := Run(t, front);
      AlwaysFresh(t, front);
      StepFollows(mid, last);
      if q in mid.rows {
        AccountLasts(before, s, q, front);
      } else {
        assert (before + [s])[..|before|] == before;
        assert Run(START, before + [s]) == t;
        NoRebirth(before + [s], front, last, q);
      }
    }
  }

  lemma LoginKeepsRow(t: Tables, s: Step, q: RowId)
    requires LogsIn(t, s, q)
    ensures q in Apply(t, s).rows
  {
    hide ApplyProc, ApplyRecovery;
  }

  /** Row ids are handed out once: a row that is gone does not come back. */
  lemma NoRebirth(before: seq<Step>, front: seq<Step>, last: Step, q: RowId)
    requires q in Run(START, before).rows
    requires q !in Run(Run(START, before), front).rows
    ensures q !in Apply(Run(Run(START, before), front), last).rows
  {
    AlwaysFresh(START, before);
    SerialGrows(Run(START, before), front);
    FreshOnly(Run(Run(START, before), front), last, q);
    hide Run, Apply;
  }

  lemma {:induction false} SerialGrows(t: Tables, steps: seq<Step>)
    ensures t.serial <= Run(t, steps).serial
  {
    hide Apply;
    if steps != [] {
      SerialGrows(t, steps[..|steps| - 1]);
      FreshOnly(Run(t, steps[..|steps| - 1]), steps[|steps| - 1], 0);
    }
  }

  lemma FreshOnly(t: Tables, s: Step, q: RowId)
    ensures t.serial <= Apply(t, s).serial
    ensures q !in t.rows && q in Apply(t, s).rows ==> t.serial <= q < Apply(t, s).serial
  {
    hide ApplyRows, ApplyProc, ApplyRecovery;
    FreshRows(t, s, q);
    FreshProcs(t, s, q);
    FreshRecovery(t, s, q);
  }

  lemma FreshRows(t: Tables, s: Step, q: RowId)
    ensures t.serial <= ApplyRows(t, s).serial && (q !in t.rows && q in ApplyRows(t, s).rows ==> t.serial <= q < ApplyRows(t, s).serial)
  {
    hide Taken;
  }

  lemma FreshProcs(t: Tables, s: Step, q: RowId)
    ensures t.serial <= ApplyProc(t, s).serial && (q !in t.rows && q in ApplyProc(t, s).rows ==> t.serial <= q < ApplyProc(t, s).serial)
  {
    hide Taken, SomeAccount, ListsDead;
  }

  lemma FreshRecovery(t: Tables, s: Step, q: RowId)
    ensures t.serial <= ApplyRecovery(t, s).serial && (q !in t.rows && q in ApplyRecovery(t, s).rows ==> t.serial <= q < ApplyRecovery(t, s).serial)
  {
    hide Known;
  }

  /**
    * Once an archive row has logged in with an account, and for as long as that row exists, reporting the account for an
    * open pending recovery row of the channel is judged a match.
    */
  lemma TheOwnerIsMatched(before: seq<Step>, login: Step, q: RowId, after: seq<Step>, p: ProcId, r: RowId)
    requires LogsIn(Run(START, before), login, q) && Run(START, before).rows[q].purpose == Archive
    requires var t := Run(Apply(Run(START, before), login), after);
      && q in t.rows && p !in t.procs && r in t.rows && t.rows[r].purpose == Recovery && t.rows[r].status == Pending
      && t.rows[r].revokedAt == None && t.rows[r].channel == Run(START, before).rows[q].channel
    ensures var t := Run(Apply(Run(START, before), login), after);
      Apply(t, JudgeRead(p, r, t.rows[r].channel, login.account)) == t.(procs := t.procs[p := Judged(r, Matched)])
  {
    AccountLasts(before, login, q, after);
    var t := Run(Apply(Run(START, before), login), after);
    hide Run, ApplyRows, ApplyProc;
    assert t.rows[q].account == Some(login.account) && t.rows[q].purpose == Archive && t.rows[q].channel == t.rows[r].channel;
  }
}
