/** What a pairing row shows and keeps - the code to scan, the password asked for, the error - through every interleaving. */
module LoginLaws {
  import opened Prelude
  import opened Lifecycle
  import opened RecoveryLaws

  /** Fails an open row, or logs it in. */
  predicate Concludes(t: Tables, s: Step, q: RowId) {
    LogsIn(t, s, q) || (s.FailLogin? && s.row == q && q in t.rows && t.rows[q].revokedAt == None)
  }

  /** An answer to a row that is pairing and asks for one. */
  predicate Answers(t: Tables, s: Step, q: RowId) {
    s.SubmitPassword? && s.row == q && q in t.rows && t.rows[q].revokedAt == None && t.rows[q].status == Pending && t.rows[q].needsPassword
  }

  predicate Asks(t: Tables, s: Step, q: RowId) {
    (s.RequestPassword? || s.PasswordRejected?) && s.row == q && q in t.rows && t.rows[q].revokedAt == None
  }

  predicate Publishes(t: Tables, s: Step, q: RowId) {
    s.PublishQr? && s.row == q && q in t.rows && t.rows[q].revokedAt == None
  }

  /** The worker's own read-and-forget reaches its second statement. */
  predicate Forgets(t: Tables, s: Step, q: RowId) {
    s.TakeWrite? && s.proc in t.procs && t.procs[s.proc] == Taking(q)
  }

  /** Why a row is revoked, as the row will say. */
  function Why(t: Tables, s: Step): Option<string> {
    match s
    case Disconnect(_, reason, _) => Some(reason)
    case CreateClear(_, _) => Some("Replaced by a new connection attempt.")
    case End(p, _) => if p in t.procs && t.procs[p].Ending? then Some(t.procs[p].reason) else None
    case _ => None
  }

  /** One step of any process, on the columns of one row. */
  predicate Shows(t: Tables, s: Step, q: RowId, c: Conn, d: Conn) {
    var revoked := c.revokedAt == None && d.revokedAt != None;
    var ended := Concludes(t, s, q) || revoked;
    && (d.qr, d.qrAt) == (if Publishes(t, s, q) then (Some(s.qr), Some(s.now)) else if ended then (None, None) else (c.qr, c.qrAt))
    && d.needsPassword == (Asks(t, s, q) || (c.needsPassword && !ended))
    && (d.secret, d.secretAt) ==
      (if Answers(t, s, q) then (Some(s.secret), Some(s.now))
       else if ended || Forgets(t, s, q) then (None, None) else (c.secret, c.secretAt))
    && d.lastError ==
      (if revoked then Why(t, s)
       else if Publishes(t, s, q) || Answers(t, s, q) || LogsIn(t, s, q) then None
       else if Concludes(t, s, q) then Some(s.message)
       else if Asks(t, s, q) && s.PasswordRejected? then Some("password_rejected")
       else c.lastError)
    && (c.revokedAt != None ==> d.revokedAt == c.revokedAt)
    && (Concludes(t, s, q) && !LogsIn(t, s, q) ==> d.status == Failed)
    && (revoked ==> d.status == Revoked && d.session == None)
  }

  /** A new row has nothing to show. */
  predicate Blank(c: Conn) {
    && c.status == Pending && c.revokedAt == None && c.session == None && c.qr == None && c.qrAt == None && !c.needsPassword
    && c.secret == None && c.secretAt == None && c.lastError == None && c.account == None && c.verdict == None
    && c.recoveryKey == None && !c.holdsChat
  }

  predicate RowShows(t: Tables, s: Step, q: RowId, d: Conn) {
    if q in t.rows then Shows(t, s, q, t.rows[q], d) else Blank(d)
  }

  /** The row once it is revoked: saying why, with every secret gone. */
  function Ended(c: Conn, why: string, now: Time): Conn {
    c.(status := Revoked, revokedAt := Some(now), lastError := Some(why), session := None, qr := None, qrAt := None,
       needsPassword := false, secret := None, secretAt := None)
  }

  /** The guarded statement of one row. */
  predicate WritesTo(s: Step, q: RowId) {
    (s.PublishQr? || s.RequestPassword? || s.PasswordRejected? || s.SubmitPassword? || s.CompleteLogin? || s.FailLogin? ||
     s.Disconnect?) && s.row == q
  }

  lemma RowStepElsewhere(t: Tables, s: Step, q: RowId)
    requires Fresh(t) && !WritesTo(s, q) && q in ApplyRows(t, s).rows
    ensures var d := ApplyRows(t, s).rows[q];
      if q !in t.rows then Blank(d) else d == t.rows[q] || (s.StoreChat? && d == t.rows[q].(holdsChat := true))
  {
    hide Taken;
  }

  lemma RowStepHere(t: Tables, s: Step, q: RowId)
    requires WritesTo(s, q) && q in ApplyRows(t, s).rows
    ensures RowShows(t, s, q, ApplyRows(t, s).rows[q])
  {
    hide CreateSetup;
  }

  lemma RowStepShows(t: Tables, s: Step, q: RowId)
    requires Fresh(t) && Apply(t, s) == ApplyRows(t, s) && q in ApplyRows(t, s).rows
    ensures RowShows(t, s, q, ApplyRows(t, s).rows[q])
  {
    if WritesTo(s, q) {
      RowStepHere(t, s, q);
    } else {
      RowStepElsewhere(t, s, q);
      hide ApplyRows, ApplyRecovery, Fresh;
    }
  }

  /** The steps of connecting and of starting a recovery create, forget and revoke. */
  lemma ProcTouches(t: Tables, s: Step, q: RowId)
    requires Fresh(t) && q in ApplyProc(t, s).rows
    ensures var d := ApplyProc(t, s).rows[q];
      if q !in t.rows then Blank(d)
      else
        var c := t.rows[q];
        if Forgets(t, s, q) then d == c.(secret := None, secretAt := None)
        else d == c || (s.CreateClear? && c.revokedAt == None && d == Ended(c, "Replaced by a new connection attempt.", s.now))
  {
    hide Taken, SomeAccount, ListsDead;
  }

  /** The steps of a recovery write its own columns, and revoke. */
  lemma RecoveryTouches(t: Tables, s: Step, q: RowId)
    requires q in ApplyRecovery(t, s).rows
    ensures q in t.rows && var c, d := t.rows[q], ApplyRecovery(t, s).rows[q];
      || d == c.(verdict := d.verdict, recoveryKey := d.recoveryKey)
      || (s.End? && s.proc in t.procs && t.procs[s.proc].Ending? && c.revokedAt == None && d == Ended(c, t.procs[s.proc].reason, s.now))
  {
    hide Known;
  }

  lemma ProcStepShows(t: Tables, s: Step, q: RowId)
    requires Fresh(t) && Apply(t, s) == ApplyProc(t, s) && Apply(t, s) != ApplyRows(t, s) && q in ApplyProc(t, s).rows
    ensures RowShows(t, s, q, ApplyProc(t, s).rows[q])
  {
    ProcTouches(t, s, q);
    hide ApplyProc, ApplyRecovery;
  }

  lemma RecoveryStepShows(t: Tables, s: Step, q: RowId)
    requires Fresh(t) && Apply(t, s) == ApplyRecovery(t, s) && Apply(t, s) != ApplyRows(t, s) && q in ApplyRecovery(t, s).rows
    ensures RowShows(t, s, q, ApplyRecovery(t, s).rows[q])
  {
    RecoveryTouches(t, s, q);
    hide ApplyProc, ApplyRecovery;
  }

  /** Every step of every process changes what a row shows only so. */
  lemma StepShows(t: Tables, s: Step, q: RowId)
    requires Fresh(t) && q in Apply(t, s).rows
    ensures RowShows(t, s, q, Apply(t, s).rows[q])
  {
    OneOfThree(t, s);
    hide Apply, ApplyRows, ApplyProc, ApplyRecovery, Shows, Blank, Fresh;
    if Apply(t, s) == ApplyRows(t, s) {
      RowStepShows(t, s, q);
    } else if Apply(t, s) == ApplyProc(t, s) {
      ProcStepShows(t, s, q);
    } else {
      RecoveryStepShows(t, s, q);
    }
  }

  // ---- over runs: whatever a row shows was put there for it ----

  ghost predicate AnsweredAt(steps: seq<Step>, i: nat, q: RowId) {
    i < |steps| && Answers(Run(START, steps[..i]), steps[i], q)
  }

  ghost predicate PublishedAt(steps: seq<Step>, i: nat, q: RowId) {
    i < |steps| && Publishes(Run(START, steps[..i]), steps[i], q)
  }

  ghost predicate AskedAt(steps: seq<Step>, i: nat, q: RowId) {
    i < |steps| && Asks(Run(START, steps[..i]), steps[i], q)
  }

  /** The secret, the code and the question of a row each go back to a step on that row. */
  ghost predicate PutThere(steps: seq<Step>, q: RowId, c: Conn) {
    && (c.secret.Some? || c.secretAt.Some? ==>
          exists i: nat :: AnsweredAt(steps, i, q) && c.secret == Some(steps[i].secret) && c.secretAt == Some(steps[i].now))
    && (c.qr.Some? || c.qrAt.Some? ==>
          exists i: nat :: PublishedAt(steps, i, q) && c.qr == Some(steps[i].qr) && c.qrAt == Some(steps[i].now))
    && (c.needsPassword ==> exists i: nat :: AskedAt(steps, i, q))
  }

  lemma PutLasts(front: seq<Step>, s: Step, i: nat, q: RowId)
    requires i < |front|
    ensures (front + [s])[i] == front[i]
    ensures AnsweredAt(front, i, q) ==> AnsweredAt(front + [s], i, q)
    ensures PublishedAt(front, i, q) ==> PublishedAt(front + [s], i, q)
    ensures AskedAt(front, i, q) ==> AskedAt(front + [s], i, q)
  {
    hide Run, Answers, Publishes, Asks;
    assert (front + [s])[..i] == front[..i];
  }

  lemma PutNext(front: seq<Step>, s: Step, q: RowId, c: Conn, d: Conn)
    requires PutThere(front, q, c) && Shows(Run(START, front), s, q, c, d)
    ensures PutThere(front + [s], q, d)
  {
    hide Run, Answers, Publishes, Asks;
    var steps := front + [s];
    assert steps[..|front|] == front && steps[|front|] == s;
    assert Answers(Run(START, front), s, q) ==> AnsweredAt(steps, |front|, q);
    assert Publishes(Run(START, front), s, q) ==> PublishedAt(steps, |front|, q);
    assert Asks(Run(START, front), s, q) ==> AskedAt(steps, |front|, q);
    forall i: nat | i < |front|
      ensures steps[i] == front[i] && (AnsweredAt(front, i, q) ==> AnsweredAt(steps, i, q)) &&
        (PublishedAt(front, i, q) ==> PublishedAt(steps, i, q)) && (AskedAt(front, i, q) ==> AskedAt(steps, i, q))
    {
      PutLasts(front, s, i, q);
    }
  }

  /**
    * In every interleaving: a stored secret is one that was submitted while the row was pairing and asked for it, a code
    * is one that was published for it, each with its instant, and a row asks only because it was told to.
    */
  lemma {:induction false} ShownWasPut(steps: seq<Step>, q: RowId)
    requires q in Run(START, steps).rows
    ensures PutThere(steps, q, Run(START, steps).rows[q])
  {
    hide Apply, Shows, PutThere;
    if steps != [] {
      var front, s := steps[..|steps| - 1], steps[|steps| - 1];
      var t := Run(START, front);
      AlwaysFresh(START, front);
      StepShows(t, s, q);
      assert front + [s] == steps;
      if q in t.rows {
        ShownWasPut(front, q);
        PutNext(front, s, q, t.rows[q], Apply(t, s).rows[q]);
      } else {
        BlankPut(steps, q, Apply(t, s).rows[q]);
      }
    }
  }

  lemma BlankPut(steps: seq<Step>, q: RowId, c: Conn)
    requires Blank(c)
    ensures PutThere(steps, q, c)
  {
  }

  // ---- operations from end to end ----

  lemma RunTwo(t: Tables, a: Step, b: Step)
    ensures Run(t, [a, b]) == Apply(Apply(t, a), b)
  {
    hide Apply;
    assert [a, b][..1] == [a] && [a][..0] == [];
    assert Run(t, [a]) == Apply(Run(t, []), a);
  }

  /** takeLoginSecret, with nothing in between: a secret is there before and gone after, and nothing else changes. */
  lemma SecretIsTaken(t: Tables, p: ProcId, q: RowId)
    requires p !in t.procs && q in t.rows && t.rows[q].revokedAt == None && t.rows[q].secret.Some? && t.rows[q].secretAt.Some?
    ensures Run(t, [TakeRead(p, q), TakeWrite(p)]) == t.(rows := t.rows[q := t.rows[q].(secret := None, secretAt := None)])
  {
    RunTwo(t, TakeRead(p, q), TakeWrite(p));
    hide Run, ApplyRows, ApplyRecovery;
    assert t.procs[p := Taking(q)] - {p} == t.procs;
  }

  /** createConnection on a channel without an open archive row: a configured instance with a key gets a blank one. */
  lemma ConnectedInOne(t: Tables, p: ProcId, channel: Channel, configured: bool)
    requires p !in t.procs && Fresh(t)
    requires forall q :: q in t.rows && t.rows[q].channel == channel && t.rows[q].purpose == Archive ==> t.rows[q].revokedAt != None
    ensures var end := Run(t, [CreateRead(p, channel, configured, []), CreateInsert(p)]);
      if t.keys != {} && (channel == WhatsApp || configured) then
        && t.serial in end.rows && Blank(end.rows[t.serial])
        && end.rows[t.serial].channel == channel && end.rows[t.serial].purpose == Archive
        && end == t.(rows := t.rows[t.serial := end.rows[t.serial]], serial := t.serial + 1)
      else end == t
  {
    RunTwo(t, CreateRead(p, channel, configured, []), CreateInsert(p));
    hide Run, ApplyRows, ApplyRecovery;
    assert !Taken(t.rows, channel, Archive);
    if t.keys != {} && (channel == WhatsApp || configured) {
      ConnectReads(t, p, channel, configured);
      hide ListsDead;
      assert t.procs[p := Creating(channel, [], None)] - {p} == t.procs;
    }
  }

  lemma ConnectReads(t: Tables, p: ProcId, channel: Channel, configured: bool)
    requires p !in t.procs && t.keys != {} && (channel == WhatsApp || configured)
    requires forall q :: q in t.rows && t.rows[q].channel == channel && t.rows[q].purpose == Archive ==> t.rows[q].revokedAt != None
    ensures Apply(t, CreateRead(p, channel, configured, [])) == t.(procs := t.procs[p := Creating(channel, [], None)])
  {
    hide ApplyRows, ApplyRecovery;
    assert ListsDead(t.rows, channel, []);
  }
}
