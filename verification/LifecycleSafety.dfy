/** What no interleaving of portal and worker steps can break. */
module LifecycleSafety {
  import opened Prelude
  import opened Lifecycle

  // ---- the invariant ----

  /** A revoked row says so, and holds nothing that could log in. */
  predicate RowOk(c: Conn) {
    && (c.revokedAt.Some? <==> c.status == Revoked)
    && (c.revokedAt.Some? ==> c.session.None? && c.qr.None? && c.qrAt.None? && !c.needsPassword && c.secret.None? && c.secretAt.None?)
  }

  /** The partial unique index connections_live_channel_purpose. */
  ghost predicate IndexOk(rows: map<RowId, Conn>) {
    forall p, q :: p in rows && q in rows && SameSlot(rows[p], rows[q]) ==> p == q
  }

  predicate SameSlot(c: Conn, d: Conn) {
    c.revokedAt.None? && d.revokedAt.None? && c.channel == d.channel && c.purpose == d.purpose
  }

  ghost predicate OneClaim(rows: map<RowId, Conn>) {
    forall p, q :: p in rows && q in rows && Pairing(rows[p]) && Pairing(rows[q]) ==> p == q
  }

  /** The key a process carries between minting it and storing it. */
  predicate Carries(t: Tables, p: ProcId, k: KeyId) {
    p in t.procs && t.procs[p].Minted? && t.procs[p].key == k
  }

  predicate Stores(t: Tables, r: RowId, k: KeyId) {
    r in t.rows && t.rows[r].recoveryKey == Some(k)
  }

  predicate WasHanded(t: Tables, k: KeyId) {
    exists i :: 0 <= i < |t.handed| && t.handed[i].0 == k
  }

  /** A recovery key is in one place: carried by one process, stored in one row, or handed out, once. */
  ghost predicate KeysOk(t: Tables) {
    && (forall p, k: KeyId :: Carries(t, p, k) ==> k < t.serial && !WasHanded(t, k))
    && (forall p, r, k :: Carries(t, p, k) ==> !Stores(t, r, k))
    && (forall p, q, k :: Carries(t, p, k) && Carries(t, q, k) ==> p == q)
    && (forall r, k: KeyId :: Stores(t, r, k) ==> k < t.serial && !WasHanded(t, k))
    && (forall r, q, k :: Stores(t, r, k) && Stores(t, q, k) ==> r == q)
    && (forall i :: 0 <= i < |t.handed| ==> t.handed[i].0 < t.serial)
    && (forall i, j :: 0 <= i < j < |t.handed| ==> t.handed[i].0 != t.handed[j].0)
  }

  ghost predicate RowsOk(t: Tables) {
    && (forall r :: r in t.rows ==> RowOk(t.rows[r]) && r < t.serial)
    && IndexOk(t.rows)
    && (t.keys == {} ==> OneClaim(t.rows) && forall p :: p in t.procs ==> !t.procs[p].Creating?)
  }

  ghost predicate Inv(t: Tables) {
    RowsOk(t) && KeysOk(t)
  }

  // ---- rows ----

  /** A row rewritten in place: neither reopened nor re-purposed, and no claim that was not one. */
  predicate TameRow(c: Conn, d: Conn) {
    && RowOk(d) && d.channel == c.channel && d.purpose == c.purpose
    && (d.revokedAt.None? ==> c.revokedAt.None?) && (Pairing(d) ==> Pairing(c))
  }

  ghost predicate Tame(rows: map<RowId, Conn>, rows1: map<RowId, Conn>) {
    forall r :: r in rows1 ==> r in rows && TameRow(rows[r], rows1[r])
  }

  lemma TameSome(t: Tables, rows1: map<RowId, Conn>)
    requires RowsOk(t) && forall r :: r in rows1 ==> r in t.rows && rows1[r] == t.rows[r]
    ensures Tame(t.rows, rows1)
  {
    hide IndexOk, OneClaim;
  }

  lemma TamePut(t: Tables, r: RowId, c: Conn)
    requires RowsOk(t) && r in t.rows && TameRow(t.rows[r], c)
    ensures Tame(t.rows, t.rows[r := c])
  {
    hide IndexOk, OneClaim;
  }

  lemma RowIsOk(t: Tables, r: RowId)
    requires RowsOk(t) && r in t.rows
    ensures RowOk(t.rows[r])
  {
    hide IndexOk, OneClaim;
  }

  lemma TameKeeps(t: Tables, t1: Tables)
    requires RowsOk(t) && Tame(t.rows, t1.rows) && t.serial <= t1.serial && t.keys <= t1.keys
    requires t1.keys == {} ==> forall p :: p in t1.procs && t1.procs[p].Creating? ==> p in t.procs && t.procs[p].Creating?
    ensures RowsOk(t1)
  {
  }

  lemma InsertKeeps(t: Tables, rows: map<RowId, Conn>, channel: Channel, purpose: Purpose)
    requires RowsOk(t.(rows := rows)) && !Taken(rows, channel, purpose)
    requires t.keys == {} && purpose == Archive ==> forall r :: r in rows ==> !Pairing(rows[r])
    ensures RowsOk(t.(rows := rows[t.serial := NewConn(channel, purpose)], serial := t.serial + 1))
  {
  }

  lemma SetupKeeps(t: Tables, channel: Channel, mine: Option<RowId>, configured: bool)
    requires RowsOk(t)
    ensures RowsOk(CreateSetup(t, channel, mine, configured).0)
  {
    var rows := t.rows - Claims(t.rows);
    if CreateSetup(t, channel, mine, configured).1.SetupOk? {
      assert forall r :: r in rows ==> !Pairing(rows[r]);
      InsertKeeps(t, rows, channel, Archive);
    }
  }

  lemma RowStepsKeep(t: Tables, s: Step)
    requires RowsOk(t)
    ensures RowsOk(ApplyRows(t, s))
  {
    hide IndexOk, OneClaim, Tame;
    match s
    case Setup(channel, mine, configured) => hide RowsOk, CreateSetup; SetupKeeps(t, channel, mine, configured);
    case MintKey =>
    case _ =>
      hide RowsOk, ApplyRows;
      TameRows(t, s);
      TameKeeps(t, ApplyRows(t, s));
  }

  lemma TameRows(t: Tables, s: Step)
    requires RowsOk(t) && !s.Setup? && !s.MintKey?
    ensures Tame(t.rows, ApplyRows(t, s).rows) && ApplyRows(t, s) == t.(rows := ApplyRows(t, s).rows)
  {
    hide RowsOk, Tame, CreateSetup;
    TameSome(t, t.rows);
    match s
    case DeleteRow(r) => TameSome(t, t.rows - {r});
    case PublishQr(r, _, _) => TameIfOpen(t, s, r);
    case RequestPassword(r) => TameIfOpen(t, s, r);
    case PasswordRejected(r) => TameIfOpen(t, s, r);
    case SubmitPassword(r, _, _) => TameIfOpen(t, s, r);
    case CompleteLogin(r, _, _) => TameIfOpen(t, s, r);
    case FailLogin(r, _) => TameIfOpen(t, s, r);
    case StoreChat(r) => TameIfOpen(t, s, r);
    case Disconnect(r, reason, now) => TameRevoke(t, r, reason, now);
    case _ =>
  }

  lemma TameIfOpen(t: Tables, s: Step, r: RowId)
    requires RowsOk(t) && !s.Setup? && !s.MintKey? && !s.DeleteRow?
    requires var rows1 := ApplyRows(t, s).rows; rows1 == t.rows || (Open(t.rows, r) && r in rows1 && rows1 == t.rows[r := rows1[r]])
    requires Open(t.rows, r) && r in ApplyRows(t, s).rows && RowOk(t.rows[r]) ==> TameRow(t.rows[r], ApplyRows(t, s).rows[r])
    ensures Tame(t.rows, ApplyRows(t, s).rows)
  {
    hide RowsOk, Tame, ApplyRows, TameRow;
    TameSome(t, t.rows);
    if Open(t.rows, r) {
      RowIsOk(t, r);
      if r in ApplyRows(t, s).rows {
        TamePut(t, r, ApplyRows(t, s).rows[r]);
      }
    }
  }

  lemma InsertedKeeps(t: Tables, t1: Tables, p: ProcId, channel: Channel, purpose: Purpose)
    requires RowsOk(t) && t1 == Lifecycle.Done(Insert(t, channel, purpose), p) && (t.keys == {} ==> purpose == Recovery)
    ensures RowsOk(t1)
  {
    var mid := Insert(t, channel, purpose);
    if !Taken(t.rows, channel, purpose) {
      assert t.(rows := t.rows) == t;
      InsertKeeps(t, t.rows, channel, purpose);
    }
    hide IndexOk, OneClaim;
    TameKeeps(mid, t1);
  }

  lemma CreateInsertKeeps(t: Tables, p: ProcId)
    requires RowsOk(t)
    ensures RowsOk(ApplyProc(t, CreateInsert(p)))
  {
    var t1 := ApplyProc(t, CreateInsert(p));
    if t1 != t {
      hide RowsOk, IndexOk, OneClaim;
      KeysKnown(t, p);
      InsertedKeeps(t, t1, p, t.procs[p].channel, Archive);
    }
  }

  lemma RecoverInsertKeeps(t: Tables, p: ProcId)
    requires RowsOk(t)
    ensures RowsOk(ApplyProc(t, RecoverInsert(p)))
  {
    var t1 := ApplyProc(t, RecoverInsert(p));
    if t1 != t {
      hide RowsOk, IndexOk, OneClaim;
      InsertedKeeps(t, t1, p, t.procs[p].channel, Recovery);
    }
  }

  lemma ProcStepsKeep(t: Tables, s: Step)
    requires RowsOk(t)
    ensures RowsOk(ApplyProc(t, s))
  {
    hide ApplyProc, RowsOk, Tame;
    match s
    case CreateInsert(p) => CreateInsertKeeps(t, p);
    case RecoverInsert(p) => RecoverInsertKeeps(t, p);
    case _ =>
      TameProcs(t, s);
      TameKeeps(t, ApplyProc(t, s));
  }

  lemma KeysKnown(t: Tables, p: ProcId)
    requires RowsOk(t) && p in t.procs && t.procs[p].Creating?
    ensures t.keys != {}
  {
  }

  lemma TameProcs(t: Tables, s: Step)
    requires RowsOk(t) && !s.CreateInsert? && !s.RecoverInsert?
    ensures var t1 := ApplyProc(t, s);
      Tame(t.rows, t1.rows) && t1.serial == t.serial && t1.keys == t.keys &&
      (t1.keys == {} ==> forall p :: p in t1.procs && t1.procs[p].Creating? ==> p in t.procs && t.procs[p].Creating?)
  {
    hide IndexOk, OneClaim;
  }

  lemma RecoveryStepsKeep(t: Tables, s: Step)
    requires RowsOk(t)
    ensures RowsOk(ApplyRecovery(t, s))
  {
    hide IndexOk, OneClaim, RowsOk, ApplyRecovery, Tame;
    TameRecovery(t, s);
    TameKeeps(t, ApplyRecovery(t, s));
  }

  lemma TameRecovery(t: Tables, s: Step)
    requires RowsOk(t)
    ensures var t1 := ApplyRecovery(t, s);
      Tame(t.rows, t1.rows) && t.serial <= t1.serial && t.keys <= t1.keys &&
      forall p :: p in t1.procs && t1.procs[p].Creating? ==> p in t.procs && t.procs[p].Creating?
  {
    hide RowsOk, Tame, Known, TameRow;
    TameSome(t, t.rows);
    match s
    case JudgeRecord(p) => TameVerdict(t, p);
    case End(p, now) => if p in t.procs && t.procs[p].Ending? { TameRevoke(t, t.procs[p].row, t.procs[p].reason, now); }
    case ClaimWrite(p) => TameClaim(t, p);
    case _ =>
  }

  lemma TameRevoke(t: Tables, r: RowId, reason: string, now: Time)
    requires RowsOk(t)
    ensures Tame(t.rows, Revoke(t.rows, r, reason, now))
  {
    hide RowsOk, Tame;
    TameSome(t, t.rows);
    if Open(t.rows, r) {
      RowIsOk(t, r);
      TamePut(t, r, Revoke(t.rows, r, reason, now)[r]);
    }
  }

  lemma TameClaim(t: Tables, p: ProcId)
    requires RowsOk(t)
    ensures Tame(t.rows, ApplyRecovery(t, ClaimWrite(p)).rows)
  {
    hide RowsOk, Tame;
    TameSome(t, t.rows);
    if p in t.procs && t.procs[p].Claiming? {
      var r := t.procs[p].row;
      if r in t.rows {
        RowIsOk(t, r);
        TamePut(t, r, t.rows[r].(recoveryKey := None));
      }
    }
  }

  lemma TameVerdict(t: Tables, p: ProcId)
    requires RowsOk(t)
    ensures Tame(t.rows, ApplyRecovery(t, JudgeRecord(p)).rows)
  {
    hide RowsOk, Tame;
    TameSome(t, t.rows);
    if p in t.procs && t.procs[p].Judged? && Open(t.rows, t.procs[p].row) {
      var r := t.procs[p].row;
      RowIsOk(t, r);
      TamePut(t, r, t.rows[r].(verdict := Some(Mismatched)));
    } else if p in t.procs && t.procs[p].Minted? && Open(t.rows, t.procs[p].row) {
      var r := t.procs[p].row;
      RowIsOk(t, r);
      TamePut(t, r, t.rows[r].(verdict := Some(Matched), recoveryKey := Some(t.procs[p].key)));
    }
  }

  // ---- recovery keys ----

  /** No process carries, no row stores and no claimer got anything new. */
  ghost predicate NoNewKeys(t: Tables, t1: Tables) {
    && t.serial <= t1.serial && t1.handed == t.handed
    && (forall p, k: KeyId :: Carries(t1, p, k) ==> Carries(t, p, k))
    && (forall r, k: KeyId :: Stores(t1, r, k) ==> Stores(t, r, k))
  }

  lemma NoNewKeysKeeps(t: Tables, t1: Tables)
    requires KeysOk(t) && NoNewKeys(t, t1)
    ensures KeysOk(t1)
  {
    assert forall k: KeyId :: WasHanded(t1, k) <==> WasHanded(t, k);
  }

  lemma RowStepsNoKeys(t: Tables, s: Step)
    ensures NoNewKeys(t, ApplyRows(t, s))
  {
  }

  lemma ProcStepsNoKeys(t: Tables, s: Step)
    ensures NoNewKeys(t, ApplyProc(t, s))
  {
  }

  lemma RecoveryNoKeys(t: Tables, s: Step)
    requires !s.JudgeMint? && !s.JudgeRecord? && !s.ClaimWrite?
    ensures NoNewKeys(t, ApplyRecovery(t, s))
  {
  }

  lemma MintKeeps(t: Tables, p: ProcId)
    requires KeysOk(t)
    ensures KeysOk(ApplyRecovery(t, JudgeMint(p)))
  {
    var t1 := ApplyRecovery(t, JudgeMint(p));
    if t1 != t {
      assert forall q, k: KeyId :: Carries(t1, q, k) ==> if q == p then k == t.serial else Carries(t, q, k);
      assert forall r, k: KeyId :: Stores(t1, r, k) <==> Stores(t, r, k);
      assert forall k: KeyId :: WasHanded(t1, k) <==> WasHanded(t, k);
    }
  }

  lemma RecordKeeps(t: Tables, p: ProcId)
    requires KeysOk(t)
    ensures KeysOk(ApplyRecovery(t, JudgeRecord(p)))
  {
    var t1 := ApplyRecovery(t, JudgeRecord(p));
    if t1 != t && t.procs[p].Minted? {
      var r, k0 := t.procs[p].row, t.procs[p].key;
      assert Carries(t, p, k0);
      assert forall q, k: KeyId :: Carries(t1, q, k) ==> q != p && Carries(t, q, k);
      assert forall q, k: KeyId :: Stores(t1, q, k) ==> Stores(t, q, k) || (q == r && k == k0);
      assert forall k: KeyId :: WasHanded(t1, k) <==> WasHanded(t, k);
    } else if t1 != t {
      assert NoNewKeys(t, t1);
      NoNewKeysKeeps(t, t1);
    }
  }

  lemma ClaimKeeps(t: Tables, p: ProcId)
    requires KeysOk(t)
    ensures KeysOk(ApplyRecovery(t, ClaimWrite(p)))
  {
    var t1 := ApplyRecovery(t, ClaimWrite(p));
    if t1.handed == t.handed {
      assert NoNewKeys(t, t1);
      NoNewKeysKeeps(t, t1);
    } else {
      var r, k0 := t.procs[p].row, t.procs[p].key;
      assert Stores(t, r, k0);
      assert forall q, k: KeyId :: Carries(t1, q, k) ==> Carries(t, q, k);
      assert forall q, k: KeyId :: Stores(t1, q, k) ==> Stores(t, q, k) && q != r;
      assert forall k: KeyId :: WasHanded(t1, k) ==> WasHanded(t, k) || k == k0;
      assert forall i :: 0 <= i < |t.handed| ==> WasHanded(t, t.handed[i].0);
    }
  }

  lemma RecoveryKeysKeep(t: Tables, s: Step)
    requires KeysOk(t)
    ensures KeysOk(ApplyRecovery(t, s))
  {
    hide KeysOk, NoNewKeys, ApplyRecovery;
    match s
    case JudgeMint(p) => MintKeeps(t, p);
    case JudgeRecord(p) => RecordKeeps(t, p);
    case ClaimWrite(p) => ClaimKeeps(t, p);
    case _ => RecoveryNoKeys(t, s); NoNewKeysKeeps(t, ApplyRecovery(t, s));
  }

  lemma StepKeeps(t: Tables, s: Step)
    requires Inv(t)
    ensures Inv(Apply(t, s))
  {
    hide RowsOk, KeysOk, NoNewKeys, ApplyRows, ApplyProc, ApplyRecovery;
    RowStepsKeep(t, s);
    RowStepsNoKeys(t, s);
    NoNewKeysKeeps(t, ApplyRows(t, s));
    ProcStepsKeep(t, s);
    ProcStepsNoKeys(t, s);
    NoNewKeysKeeps(t, ApplyProc(t, s));
    RecoveryStepsKeep(t, s);
    RecoveryKeysKeep(t, s);
  }

  lemma {:induction false} AlwaysInv(steps: seq<Step>)
    ensures Inv(Run(START, steps))
  {
    if steps != [] {
      AlwaysInv(steps[..|steps| - 1]);
      hide Inv, Apply;
      StepKeeps(Run(START, steps[..|steps| - 1]), steps[|steps| - 1]);
    }
  }

  lemma RunFour(t: Tables, a: Step, b: Step, c: Step, d: Step)
    ensures Run(t, [a, b, c, d]) == Apply(Apply(Apply(Apply(t, a), b), c), d)
  {
    hide Apply;
    assert [a, b, c, d][..3] == [a, b, c] && [a, b, c][..2] == [a, b] && [a, b][..1] == [a] && [a][..0] == [];
    assert Run(t, [a]) == Apply(t, a);
    assert Run(t, [a, b]) == Apply(Run(t, [a]), b);
    assert Run(t, [a, b, c]) == Apply(Run(t, [a, b]), c);
  }

  // ---- the three promises ----

  /** Each recovery key is handed to at most one claimer, in every interleaving. */
  lemma HandedOnce(steps: seq<Step>, i: nat, j: nat)
    requires i < |Run(START, steps).handed| && j < |Run(START, steps).handed|
    requires Run(START, steps).handed[i].0 == Run(START, steps).handed[j].0
    ensures i == j
  {
    AlwaysInv(steps);
    hide Run, RowsOk;
  }

  /** While no key has ever been minted, at most one pairing is pending or active, across both channels. */
  lemma OneClaimBeforeTheFirstKey(steps: seq<Step>, p: RowId, q: RowId)
    requires var t := Run(START, steps); t.keys == {} && p in t.rows && q in t.rows && Pairing(t.rows[p]) && Pairing(t.rows[q])
    ensures p == q
  {
    AlwaysInv(steps);
    hide Run, KeysOk;
  }

  /** The row is gone for good, or revoked as it was. */
  ghost predicate StaysRevoked(t: Tables, r: RowId, at: Time) {
    r < t.serial &&
    (r in t.rows ==> t.rows[r].revokedAt == Some(at) && t.rows[r].status == Revoked && t.rows[r].session.None? &&
                     t.rows[r].qr.None? && !t.rows[r].needsPassword && t.rows[r].secret.None?)
  }

  lemma StepStaysRevoked(t: Tables, s: Step, r: RowId, at: Time)
    requires StaysRevoked(t, r, at)
    ensures StaysRevoked(Apply(t, s), r, at)
  {
    hide Known, SomeAccount, Taken, ListsDead, ApplyRows, ApplyProc, ApplyRecovery, StaysRevoked;
    RowsStayRevoked(t, s, r, at);
    ProcsStayRevoked(t, s, r, at);
    RecoveryStaysRevoked(t, s, r, at);
  }

  lemma RowsStayRevoked(t: Tables, s: Step, r: RowId, at: Time)
    requires StaysRevoked(t, r, at)
    ensures StaysRevoked(ApplyRows(t, s), r, at)
  {
    hide Taken;
  }

  lemma ProcsStayRevoked(t: Tables, s: Step, r: RowId, at: Time)
    requires StaysRevoked(t, r, at)
    ensures StaysRevoked(ApplyProc(t, s), r, at)
  {
    hide SomeAccount, Taken, ListsDead;
  }

  lemma RecoveryStaysRevoked(t: Tables, s: Step, r: RowId, at: Time)
    requires StaysRevoked(t, r, at)
    ensures StaysRevoked(ApplyRecovery(t, s), r, at)
  {
    hide Known;
  }

  /** A revoked row keeps its revocation, its status and its emptiness for as long as it exists. */
  lemma {:induction false} RevokedForever(before: seq<Step>, after: seq<Step>, r: RowId)
    requires r in Run(START, before).rows && Run(START, before).rows[r].revokedAt.Some?
    ensures StaysRevoked(Run(Run(START, before), after), r, Run(START, before).rows[r].revokedAt.value)
  {
    if after == [] {
      AlwaysInv(before);
      hide KeysOk, IndexOk, OneClaim;
    } else {
      RevokedForever(before, after[..|after| - 1], r);
      hide Apply, StaysRevoked;
      StepStaysRevoked(Run(Run(START, before), after[..|after| - 1]), after[|after| - 1], r, Run(START, before).rows[r].revokedAt.value);
    }
  }

  /**
    * On a fresh instance Connect throws exactly when the browser may go on and its own channel still holds an open row
    * that is not pairing: a failed attempt that was never revoked.
    */
  lemma SetupThrowsIff(steps: seq<Step>, channel: Channel, mine: Option<RowId>, configured: bool)
    requires !(channel == Telegram && !configured)
    requires var t := Run(START, steps); forall r :: r in Claims(t.rows) ==> Some(r) == mine && t.rows[r].status == Pending
    ensures var t := Run(START, steps); var (t1, out) := CreateSetup(t, channel, mine, configured);
      (out == Threw <==> exists r :: r in t.rows && DeadOn(t.rows[r], channel) && t.rows[r].status == Failed) &&
      (out == Threw ==> t1 == t) && (out != Threw ==> out.SetupOk? && Claims(t1.rows) == {out.id})
  {
    AlwaysInv(steps);
    var t := Run(START, steps);
    hide Run, KeysOk, IndexOk, OneClaim;
    var rows := t.rows - Claims(t.rows);
    if r :| r in t.rows && DeadOn(t.rows[r], channel) && t.rows[r].status == Failed {
      assert r in rows;
      assert Taken(rows, channel, Archive);
    }
    if Taken(rows, channel, Archive) {
      var r :| r in rows && rows[r].channel == channel && rows[r].purpose == Archive && rows[r].revokedAt.None?;
      assert RowOk(t.rows[r]) && !Pairing(t.rows[r]);
      assert t.rows[r].status == Failed;
    }
  }

  /** A browser whose own attempt failed and presses Connect again. */
  lemma SetupCanThrow()
    ensures var t := Run(START, [Setup(Channel.Telegram, None, true), FailLogin(0, "failed")]);
      CreateSetup(t, Channel.Telegram, Some(0), true) == (t, Threw)
  {
    var a, b := Setup(Channel.Telegram, None, true), FailLogin(0, "failed");
    assert [a, b][..1] == [a] && [a][..0] == [];
    var t1 := Apply(START, a);
    assert t1.rows == map[0 := NewConn(Channel.Telegram, Archive)];
    assert Run(START, [a]) == t1;
    var t2 := Apply(t1, b);
    assert Claims(t2.rows) == {};
    assert t2.rows - {} == t2.rows;
    assert 0 in t2.rows && Taken(t2.rows, Channel.Telegram, Archive);
  }
}
