/** The connection table as the two processes write it; each operation is the steps it is made of, uninterrupted. */
module ConnectionTable {
  import opened Prelude
  import opened Lifecycle
  import opened LifecycleSafety

  const STALE_SECRET_MS := 5 * 60_000

  class Connections {
    var rows: map<RowId, Conn>
    var keys: set<KeyId>
    var handed: seq<(KeyId, ProcId)>
    var serial: nat

    ghost function View(): Tables
      reads this
    {
      Tables(rows, keys, handed, map[], serial)
    }

    constructor ()
      ensures View() == START && Inv(View())
    {
      rows, keys, handed, serial := map[], {}, [], 0;
    }

    // ---- login.ts ----

    method PublishQr(id: RowId, url: string, now: Time)
      requires Inv(View())
      modifies this`rows
      ensures Inv(View()) && View() == Apply(old(View()), Step.PublishQr(id, url, now))
    {
      StepKeeps(View(), Step.PublishQr(id, url, now));
      if id in rows && rows[id].revokedAt.None? {
        rows := rows[id := rows[id].(qr := Some(url), qrAt := Some(now), lastError := None)];
      }
    }

    method RequestPassword(id: RowId)
      requires Inv(View())
      modifies this`rows
      ensures Inv(View()) && View() == Apply(old(View()), Step.RequestPassword(id))
    {
      StepKeeps(View(), Step.RequestPassword(id));
      if id in rows && rows[id].revokedAt.None? {
        rows := rows[id := rows[id].(needsPassword := true)];
      }
    }

    /** Read, forget, and only then decide whether the secret is still worth trying. */
    method TakeLoginSecret(id: RowId, now: Time) returns (secret: Option<string>)
      requires Inv(View())
      modifies this`rows
      ensures Inv(View()) && View() == Apply(Apply(old(View()), TakeRead(0, id)), TakeWrite(0))
      ensures secret.Some? <==>
        && id in old(rows) && old(rows)[id].revokedAt == None && old(rows)[id].secret.Some?
        && old(rows)[id].secretAt.Some? && now - old(rows)[id].secretAt.value <= 300_000
      ensures secret.Some? ==> secret == old(rows)[id].secret
      ensures secret.Some? ==> id in rows && rows[id].secret.None?
    {
      StepKeeps(View(), TakeRead(0, id));
      StepKeeps(Apply(View(), TakeRead(0, id)), TakeWrite(0));
      hide Inv;
      if id !in rows || rows[id].revokedAt.Some? || rows[id].secret.None? || rows[id].secretAt.None? {
        return None;
      }
      var row := rows[id];
      assert Apply(View(), TakeRead(0, id)).procs == map[0 := Taking(id)];
      rows := rows[id := row.(secret := None, secretAt := None)];
      assert map[0 := Taking(id)] - {0} == map[];
      if now - row.secretAt.value > STALE_SECRET_MS {
        return None;
      }
      return row.secret;
    }

    method RecordPasswordRejected(id: RowId)
      requires Inv(View())
      modifies this`rows
      ensures Inv(View()) && View() == Apply(old(View()), PasswordRejected(id))
    {
      StepKeeps(View(), PasswordRejected(id));
      if id in rows && rows[id].revokedAt.None? {
        rows := rows[id := rows[id].(lastError := Some(REJECTED), needsPassword := true)];
      }
    }

    /** Only a row that is still a live pending login becomes active; anything else is gone. */
    method CompleteLogin(id: RowId, session: string, account: string) returns (ok: bool)
      requires Inv(View())
      modifies this`rows
      ensures Inv(View()) && View() == Apply(old(View()), Step.CompleteLogin(id, session, account))
      ensures ok <==> Open(old(rows), id) && old(rows)[id].status == Pending
    {
      StepKeeps(View(), Step.CompleteLogin(id, session, account));
      ok := id in rows && rows[id].status == Pending && rows[id].revokedAt.None?;
      if ok {
        rows := rows[id := rows[id].(
          status := Active, account := Some(account), session := Some(session), lastError := None,
          qr := None, qrAt := None, needsPassword := false, secret := None, secretAt := None)];
      }
    }

    method FailLogin(id: RowId, message: string)
      requires Inv(View())
      modifies this`rows
      ensures Inv(View()) && View() == Apply(old(View()), Step.FailLogin(id, message))
    {
      StepKeeps(View(), Step.FailLogin(id, message));
      if id in rows && rows[id].revokedAt.None? {
        rows := rows[id := rows[id].(
          status := Failed, lastError := Some(message), qr := None, qrAt := None,
          needsPassword := false, secret := None, secretAt := None)];
      }
    }

    // ---- connections.ts ----

    method SubmitLoginPassword(id: RowId, secret: string, now: Time) returns (ok: bool)
      requires Inv(View())
      modifies this`rows
      ensures Inv(View()) && View() == Apply(old(View()), SubmitPassword(id, secret, now))
      ensures ok <==> Open(old(rows), id) && old(rows)[id].status == Pending && old(rows)[id].needsPassword
    {
      StepKeeps(View(), SubmitPassword(id, secret, now));
      ok := id in rows && rows[id].status == Pending && rows[id].revokedAt.None? && rows[id].needsPassword;
      if ok {
        rows := rows[id := rows[id].(secret := Some(secret), secretAt := Some(now), lastError := None)];
      }
    }

    method RevokeConnection(id: RowId, reason: string, now: Time) returns (ok: bool)
      requires Inv(View())
      modifies this`rows
      ensures Inv(View()) && View() == Apply(old(View()), Disconnect(id, reason, now))
      ensures ok <==> Open(old(rows), id)
    {
      StepKeeps(View(), Disconnect(id, reason, now));
      ok := UpdateRevoked(id, reason, now);
    }

    method UpdateRevoked(id: RowId, reason: string, now: Time) returns (ok: bool)
      modifies this`rows
      ensures rows == Revoke(old(rows), id, reason, now) && (ok <==> Open(old(rows), id))
    {
      ok := id in rows && rows[id].revokedAt.None?;
      if ok {
        rows := rows[id := rows[id].(
          status := Revoked, revokedAt := Some(now), lastError := Some(reason), session := None, qr := None, qrAt := None,
          needsPassword := false, secret := None, secretAt := None)];
      }
    }

    /** One transaction: the claim check, the browser's own dead rows, the insert; a refused insert rolls all of it back. */
    method CreateSetupConnection(channel: Channel, mine: Option<RowId>, configured: bool) returns (out: SetupResult)
      requires Inv(View())
      modifies this`rows, this`serial
      ensures Inv(View()) && (View(), out) == CreateSetup(old(View()), channel, mine, configured)
    {
      SetupInv(View(), channel, mine, configured);
      hide Inv, Taken, Claims, NewConn, Refusal;
      var refusal := RefuseSetup(channel, mine, configured);
      if refusal.Some? {
        return refusal.value;
      }
      var id := ReplaceOwn(Claims(rows), channel);
      return if id.Some? then SetupOk(id.value) else Threw;
    }

    /** The checks before anything is written. */
    method RefuseSetup(channel: Channel, mine: Option<RowId>, configured: bool) returns (out: Option<SetupResult>)
      ensures out == Refusal(View(), channel, mine, configured)
    {
      hide Pairing;
      if channel == Telegram && !configured {
        return Some(Unconfigured);
      }
      var live := Claims(rows);
      if exists r :: r in live && Some(r) != mine {
        return Some(Claimed);
      }
      if exists r :: r in live && rows[r].status == Active {
        return Some(AlreadyConnected);
      }
      return None;
    }

    /** The deletes and the insert; a refused insert puts the deleted rows back. */
    method ReplaceOwn(live: set<RowId>, channel: Channel) returns (id: Option<RowId>)
      modifies this`rows, this`serial
      ensures if Lifecycle.Taken(old(rows) - live, channel, Archive) then id == None && rows == old(rows) && serial == old(serial)
        else id == Some(old(serial)) && rows == (old(rows) - live)[old(serial) := NewConn(channel, Archive)] && serial == old(serial) + 1
    {
      hide Taken;
      var before := rows;
      DeleteOwn(live);
      id := InsertPending(channel, Archive);
      if id.None? {
        rows := before;
      }
    }

    /** The unique index refuses a second open row of the same channel and purpose. */
    method InsertPending(channel: Channel, purpose: Purpose) returns (id: Option<RowId>)
      modifies this`rows, this`serial
      ensures if Lifecycle.Taken(old(rows), channel, purpose) then id == None && rows == old(rows) && serial == old(serial)
        else id == Some(old(serial)) && rows == old(rows)[old(serial) := NewConn(channel, purpose)] && serial == old(serial) + 1
    {
      if exists r :: r in rows && rows[r].channel == channel && rows[r].purpose == purpose && rows[r].revokedAt.None? {
        return None;
      }
      id := Some(serial);
      rows := rows[serial := NewConn(channel, purpose)];
      serial := serial + 1;
    }

    method DeleteOwn(live: set<RowId>)
      modifies this`rows
      ensures rows == old(rows) - live
    {
      var todo := live;
      while todo != {}
        invariant todo <= live && rows == old(rows) - (live - todo)
        decreases |todo|
      {
        var r :| r in todo;
        rows := rows - {r};
        assert live - (todo - {r}) == live - todo + {r};
        todo := todo - {r};
      }
      assert live - {} == live;
    }

    // ---- recovery.ts ----

    /** The conditional update is the claim. */
    method ClaimRecoveryKey(id: RowId, claimer: ProcId) returns (key: Option<KeyId>)
      requires Inv(View())
      modifies this`rows, this`handed
      ensures Inv(View()) && View() == Apply(Apply(old(View()), ClaimRead(claimer, id)), ClaimWrite(claimer))
      ensures key.Some? ==> handed == old(handed) + [(key.value, claimer)] && !WasHanded(old(View()), key.value)
      ensures key.None? ==> View() == old(View())
    {
      StepKeeps(View(), ClaimRead(claimer, id));
      StepKeeps(Apply(View(), ClaimRead(claimer, id)), ClaimWrite(claimer));
      if id !in rows || rows[id].purpose != Recovery || rows[id].verdict != Some(Matched) || rows[id].recoveryKey.None? {
        return None;
      }
      key := rows[id].recoveryKey;
      assert Stores(View(), id, key.value);
      hide Inv;
      assert Apply(View(), ClaimRead(claimer, id)).procs == map[claimer := Claiming(id, key.value)];
      assert map[claimer := Claiming(id, key.value)] - {claimer} == map[];
      rows := rows[id := rows[id].(recoveryKey := None)];
      handed := handed + [(key.value, claimer)];
    }

    /** The worker's verdict: select, mint, record, revoke. */
    method CompleteRecovery(id: RowId, channel: Channel, account: string, now: Time) returns (verdict: Option<Verdict>)
      requires Inv(View())
      modifies this`rows, this`keys, this`serial
      ensures Inv(View())
      ensures View() == Run(old(View()), [JudgeRead(0, id, channel, account), JudgeMint(0), JudgeRecord(0), End(0, now)])
      ensures verdict.Some? <==> Judgeable(old(rows), id)
      ensures verdict.Some? ==> verdict.value == VerdictOn(old(rows), id, channel, account)
      ensures verdict.Some? ==> id in rows && rows[id].verdict == verdict
      ensures verdict == Some(Matched) ==> rows[id].recoveryKey == Some(old(serial))
    {
      RunKeeps(View(), [JudgeRead(0, id, channel, account), JudgeMint(0), JudgeRecord(0), End(0, now)]);
      VerdictIs(View(), id, channel, account, now);
      if Judgeable(rows, id) {
        SettledSays(View(), id, channel, account, now);
      }
      hide Inv, Run, Judgeable, VerdictOn, Settled;
      verdict := Judge(id, channel, account, now);
    }

    method Judge(id: RowId, channel: Channel, account: string, now: Time) returns (verdict: Option<Verdict>)
      modifies this`rows, this`keys, this`serial
      ensures View() == Settled(old(View()), id, channel, account, now)
      ensures verdict.Some? <==> Judgeable(old(rows), id)
      ensures verdict.Some? ==> verdict.value == VerdictOn(old(rows), id, channel, account)
    {
      hide Revoke, VerdictOn;
      if id !in rows || rows[id].purpose != Recovery || rows[id].status != Pending || rows[id].revokedAt.Some? {
        return None;
      }
      verdict := Some(VerdictOn(rows, id, channel, account));
      RecordVerdict(id, verdict.value, now);
    }

    /** A match mints the key it hands out; either way the attempt is recorded and ended. */
    method RecordVerdict(id: RowId, verdict: Verdict, now: Time)
      requires id in rows
      modifies this`rows, this`keys, this`serial
      ensures keys == if verdict == Matched then old(keys) + {old(serial)} else old(keys)
      ensures serial == old(serial) + (if verdict == Matched then 1 else 0)
      ensures var row := old(rows)[id].(verdict := Some(verdict));
        rows == if verdict == Matched then Revoke(old(rows)[id := row.(recoveryKey := Some(old(serial)))], id, THE_ACCOUNT, now)
                else Revoke(old(rows)[id := row], id, NOT_THE_ACCOUNT, now)
    {
      hide Revoke;
      var row := rows[id].(verdict := Some(verdict));
      if verdict == Matched {
        var key := serial;
        keys, serial := keys + {key}, serial + 1;
        row := row.(recoveryKey := Some(key));
      }
      rows := rows[id := row];
      var _ := UpdateRevoked(id, if verdict == Matched then THE_ACCOUNT else NOT_THE_ACCOUNT, now);
    }
  }

  lemma SetupInv(t: Tables, channel: Channel, mine: Option<RowId>, configured: bool)
    requires Inv(t)
    ensures Inv(CreateSetup(t, channel, mine, configured).0)
  {
    hide Inv, CreateSetup, ApplyProc, ApplyRecovery;
    StepKeeps(t, Setup(channel, mine, configured));
  }

  predicate Judgeable(rows: map<RowId, Conn>, r: RowId) {
    Open(rows, r) && rows[r].purpose == Recovery && rows[r].status == Pending
  }

  function VerdictOn(rows: map<RowId, Conn>, r: RowId, channel: Channel, account: string): Verdict
    requires r in rows
  {
    if channel == rows[r].channel && Known(rows, channel, account) then Matched else Mismatched
  }

  lemma ReadIs(t: Tables, id: RowId, channel: Channel, account: string)
    requires t.procs == map[]
    ensures Apply(t, JudgeRead(0, id, channel, account)) ==
      if Judgeable(t.rows, id) then t.(procs := map[0 := Judged(id, VerdictOn(t.rows, id, channel, account))]) else t
  {
    hide Known, ApplyRows, ApplyProc;
  }

  lemma MintIs(t: Tables, id: RowId)
    requires t.procs == map[0 := Judged(id, Matched)]
    ensures Apply(t, JudgeMint(0)) == t.(keys := t.keys + {t.serial}, serial := t.serial + 1, procs := map[0 := Minted(id, t.serial)])
  {
    hide ApplyRows, ApplyProc;
  }

  lemma NoMint(t: Tables, id: RowId)
    requires t.procs == map[0 := Judged(id, Mismatched)] || t.procs == map[]
    ensures Apply(t, JudgeMint(0)) == t
  {
    hide ApplyRows, ApplyProc;
  }

  lemma RecordIs(t: Tables, id: RowId, l: Local)
    requires Open(t.rows, id) && t.procs == map[0 := l] && (l == Judged(id, Mismatched) || (l.Minted? && l.row == id))
    ensures Apply(t, JudgeRecord(0)) ==
      if l.Minted? then t.(rows := t.rows[id := t.rows[id].(verdict := Some(Matched), recoveryKey := Some(l.key))],
                           procs := map[0 := Ending(id, THE_ACCOUNT)])
      else t.(rows := t.rows[id := t.rows[id].(verdict := Some(Mismatched))], procs := map[0 := Ending(id, NOT_THE_ACCOUNT)])
  {
    hide ApplyRows, ApplyProc;
  }

  lemma EndIs(t: Tables, id: RowId, reason: string, now: Time)
    requires t.procs == map[0 := Ending(id, reason)]
    ensures Apply(t, End(0, now)) == t.(rows := Revoke(t.rows, id, reason, now), procs := map[])
  {
    hide ApplyRows, ApplyProc, Revoke;
    assert t.procs - {0} == map[];
  }

  lemma IdleSteps(t: Tables, now: Time)
    requires t.procs == map[]
    ensures Apply(t, JudgeMint(0)) == t && Apply(t, JudgeRecord(0)) == t && Apply(t, End(0, now)) == t
  {
    hide ApplyRows, ApplyProc;
  }

  /** A verdict given, recorded and followed by the end of the attempt. */
  function Settled(t: Tables, id: RowId, channel: Channel, account: string, now: Time): Tables {
    if !Judgeable(t.rows, id) then t
    else if VerdictOn(t.rows, id, channel, account) == Matched then
      t.(rows := Revoke(t.rows[id := t.rows[id].(verdict := Some(Matched), recoveryKey := Some(t.serial))], id, THE_ACCOUNT, now),
         keys := t.keys + {t.serial}, serial := t.serial + 1)
    else t.(rows := Revoke(t.rows[id := t.rows[id].(verdict := Some(Mismatched))], id, NOT_THE_ACCOUNT, now))
  }

  lemma SettledSays(t: Tables, id: RowId, channel: Channel, account: string, now: Time)
    requires Judgeable(t.rows, id)
    ensures var verdict, end := VerdictOn(t.rows, id, channel, account), Settled(t, id, channel, account, now);
      id in end.rows && end.rows[id].verdict == Some(verdict) && (verdict == Matched ==> end.rows[id].recoveryKey == Some(t.serial))
  {
    hide Known;
  }

  /** The four steps of a verdict, with nothing in between. */
  lemma VerdictIs(t: Tables, id: RowId, channel: Channel, account: string, now: Time)
    requires t.procs == map[]
    ensures Run(t, [JudgeRead(0, id, channel, account), JudgeMint(0), JudgeRecord(0), End(0, now)]) ==
      Settled(t, id, channel, account, now)
  {
    hide Known, Revoke, Apply, Run;
    RunFour(t, JudgeRead(0, id, channel, account), JudgeMint(0), JudgeRecord(0), End(0, now));
    ReadIs(t, id, channel, account);
    if !Judgeable(t.rows, id) {
      IdleSteps(t, now);
    } else {
      var t1 := Apply(t, JudgeRead(0, id, channel, account));
      if VerdictOn(t.rows, id, channel, account) == Matched {
        MintIs(t1, id);
      } else {
        NoMint(t1, id);
      }
      var t2 := Apply(t1, JudgeMint(0));
      RecordIs(t2, id, t2.procs[0]);
      var t3 := Apply(t2, JudgeRecord(0));
      EndIs(t3, id, t3.procs[0].reason, now);
    }
  }

  lemma {:induction false} RunKeeps(t: Tables, steps: seq<Step>)
    requires Inv(t)
    ensures Inv(Run(t, steps))
  {
    hide Inv, Apply;
    if steps != [] {
      RunKeeps(t, steps[..|steps| - 1]);
      StepKeeps(Run(t, steps[..|steps| - 1]), steps[|steps| - 1]);
    }
  }
}
