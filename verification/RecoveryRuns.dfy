/** Recovery from end to end, with nothing else under way: how an attempt begins, is judged, is claimed, is called off. */
module RecoveryRuns {
  import opened Prelude
  import opened Lifecycle
  import opened RecoveryLaws
  import opened LoginLaws
  import opened ConnectionTable

  /** The account once logged in on an archive row of the channel that still exists. */
  ghost predicate Owns(rows: map<RowId, Conn>, channel: Channel, account: string) {
    exists q :: q in rows && rows[q].purpose == Archive && rows[q].channel == channel && rows[q].account == Some(account)
  }

  /**
    * An open pending attempt is judged, recorded and ended: whoever owns the archive has a new key stored for them to
    * claim, anyone else has nothing, and the row says which.
    */
  lemma JudgedInOne(t: Tables, r: RowId, channel: Channel, account: string, now: Time)
    requires t.procs == map[] && r in t.rows
    requires t.rows[r].purpose == Recovery && t.rows[r].status == Pending && t.rows[r].revokedAt == None
    ensures var end := Run(t, [JudgeRead(0, r, channel, account), JudgeMint(0), JudgeRecord(0), End(0, now)]);
      var c := t.rows[r];
      if channel == c.channel && Owns(t.rows, channel, account) then
        end == t.(keys := t.keys + {t.serial}, serial := t.serial + 1, rows := t.rows[
          r := Ended(c.(verdict := Some(Matched), recoveryKey := Some(t.serial)),
                     "Recovery: this is the account the archive belongs to.", now)])
      else
        end == t.(rows := t.rows[
          r := Ended(c.(verdict := Some(Mismatched)),
                     "Recovery: the paired account is not the one this archive belongs to.", now)])
  {
    VerdictIs(t, r, channel, account, now);
    hide Run;
    assert Owns(t.rows, channel, account) <==> Known(t.rows, channel, account);
    hide Owns, Known;
  }

  /** A stored key of a matched attempt goes to whoever claims it, once; any other claim changes nothing. */
  lemma ClaimedInOne(t: Tables, u: ProcId, r: RowId)
    requires u !in t.procs
    ensures var end := Run(t, [ClaimRead(u, r), ClaimWrite(u)]);
      if r in t.rows && t.rows[r].purpose == Recovery && t.rows[r].verdict == Some(Matched) && t.rows[r].recoveryKey.Some? then
        end == t.(rows := t.rows[r := t.rows[r].(recoveryKey := None)], handed := t.handed + [(t.rows[r].recoveryKey.value, u)])
      else end == t
  {
    RunTwo(t, ClaimRead(u, r), ClaimWrite(u));
    hide Run, ApplyRows, ApplyProc;
    if r in t.rows && t.rows[r].recoveryKey.Some? {
      assert t.procs[u := Claiming(r, t.rows[r].recoveryKey.value)] - {u} == t.procs;
    }
  }

  /** An open attempt called off is revoked, and says so; an archive row is not touched. */
  lemma CancelledInOne(t: Tables, p: ProcId, r: RowId, now: Time)
    requires p !in t.procs
    ensures var end := Run(t, [CancelRead(p, r), End(p, now)]);
      if r in t.rows && t.rows[r].purpose == Recovery && t.rows[r].revokedAt == None then
        end == t.(rows := t.rows[r := Ended(t.rows[r], "You cancelled this recovery attempt.", now)])
      else end == t
  {
    RunTwo(t, CancelRead(p, r), End(p, now));
    hide Run, ApplyRows, ApplyProc;
    assert t.procs[p := Ending(r, CANCELLED)] - {p} == t.procs;
  }

  lemma RunThree(t: Tables, a: Step, b: Step, c: Step)
    ensures Run(t, [a, b, c]) == Apply(Apply(Apply(t, a), b), c)
  {
    hide Apply;
    assert [a, b, c][..2] == [a, b];
    RunTwo(t, a, b);
  }

  /** An open recovery row of the channel. */
  predicate Attempt(c: Conn, channel: Channel) {
    c.channel == channel && c.purpose == Recovery && c.revokedAt == None
  }

  /**
    * An attempt begins exactly where some archive row of the channel has an account, and the channel is configured: the
    * open attempts of that channel go, and a blank one takes their place.
    */
  lemma BegunInOne(t: Tables, p: ProcId, channel: Channel, configured: bool)
    requires p !in t.procs && Fresh(t)
    ensures var end := Run(t, [RecoverRead(p, channel, configured), RecoverClear(p), RecoverInsert(p)]);
      if (channel == WhatsApp || configured) && exists account :: Owns(t.rows, channel, account) then
        && end.serial == t.serial + 1 && t.serial in end.rows
        && Attempt(end.rows[t.serial], channel) && Blank(end.rows[t.serial])
        && (forall q :: q != t.serial ==> (q in end.rows <==> q in t.rows && !Attempt(t.rows[q], channel)))
        && (forall q :: q != t.serial && q in end.rows ==> end.rows[q] == t.rows[q])
        && end.(rows := t.rows, serial := t.serial) == t
      else end == t
  {
    RunThree(t, RecoverRead(p, channel, configured), RecoverClear(p), RecoverInsert(p));
    hide Run, ApplyRows, ApplyRecovery, Blank;
    AccountKnown(t.rows, channel);
    if (channel == WhatsApp || configured) && SomeAccount(t.rows, channel) {
      BegunSteps(t, p, channel, configured);
      hide Apply, Owns, SomeAccount;
    } else {
      hide Owns, SomeAccount;
      assert Apply(t, RecoverRead(p, channel, configured)) == t;
    }
  }

  function Cleared(rows: map<RowId, Conn>, channel: Channel): map<RowId, Conn> {
    map q | q in rows && !Attempt(rows[q], channel) :: rows[q]
  }

  lemma BegunReads(t: Tables, p: ProcId, channel: Channel, configured: bool)
    requires p !in t.procs && (channel == WhatsApp || configured) && SomeAccount(t.rows, channel)
    ensures Apply(t, RecoverRead(p, channel, configured)) == t.(procs := t.procs[p := Starting(channel, false)])
  {
    hide ApplyRows, ApplyRecovery, SomeAccount;
  }

  lemma BegunClears(t: Tables, p: ProcId, channel: Channel)
    requires p in t.procs && t.procs[p] == Starting(channel, false)
    ensures Apply(t, RecoverClear(p)) == t.(rows := Cleared(t.rows, channel), procs := t.procs[p := Starting(channel, true)])
  {
    hide ApplyRows, ApplyRecovery, SomeAccount;
  }

  lemma BegunInserts(t: Tables, p: ProcId, channel: Channel)
    requires p in t.procs && t.procs[p] == Starting(channel, true) && forall q :: q in t.rows ==> !Attempt(t.rows[q], channel)
    ensures Apply(t, RecoverInsert(p)) ==
      t.(rows := t.rows[t.serial := NewConn(channel, Recovery)], serial := t.serial + 1, procs := t.procs - {p})
  {
    hide ApplyRows, ApplyRecovery, SomeAccount;
    assert !Taken(t.rows, channel, Recovery);
  }

  lemma BegunSteps(t: Tables, p: ProcId, channel: Channel, configured: bool)
    requires p !in t.procs && Fresh(t) && (channel == WhatsApp || configured) && SomeAccount(t.rows, channel)
    ensures Apply(Apply(Apply(t, RecoverRead(p, channel, configured)), RecoverClear(p)), RecoverInsert(p)) ==
      t.(rows := Cleared(t.rows, channel)[t.serial := NewConn(channel, Recovery)], serial := t.serial + 1)
    ensures Blank(NewConn(channel, Recovery)) && Attempt(NewConn(channel, Recovery), channel)
  {
    hide Apply, SomeAccount;
    BegunReads(t, p, channel, configured);
    var t1 := Apply(t, RecoverRead(p, channel, configured));
    BegunClears(t1, p, channel);
    BegunInserts(Apply(t1, RecoverClear(p)), p, channel);
    assert t1.procs[p := Starting(channel, true)] - {p} == t.procs;
  }

  lemma AccountKnown(rows: map<RowId, Conn>, channel: Channel)
    ensures SomeAccount(rows, channel) <==> exists account :: Owns(rows, channel, account)
  {
    if q :| q in rows && rows[q].channel == channel && rows[q].purpose == Archive && rows[q].account.Some? {
      assert Owns(rows, channel, rows[q].account.value);
    }
  }
}
