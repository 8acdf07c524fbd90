/**
  * The connection lifecycle (lib/services/connections.ts, login.ts, recovery.ts): portal and worker processes interleave
  * single statements and transactions over one table.
  */
module Lifecycle {
  import opened Prelude

  type RowId = nat
  type KeyId = nat
  type ProcId = nat

  datatype Channel = Telegram | WhatsApp
  datatype Purpose = Archive | Recovery
  datatype Status = Pending | Active | Revoked | Failed
  datatype Verdict = Matched | Mismatched

  /** `holdsChat`: some row of chats references this connection, and goes with it. */
  datatype Conn = Conn(
    channel: Channel, purpose: Purpose, status: Status, revokedAt: Option<Time>, session: Option<string>,
    qr: Option<string>, qrAt: Option<Time>, needsPassword: bool, secret: Option<string>, secretAt: Option<Time>,
    lastError: Option<string>, account: Option<string>, verdict: Option<Verdict>, recoveryKey: Option<KeyId>, holdsChat: bool)

  function NewConn(channel: Channel, purpose: Purpose): Conn {
    Conn(channel, purpose, Pending, None, None, None, None, false, None, None, None, None, None, None, false)
  }

  /** Where a multi-statement operation stands between two of its statements. */
  datatype Local =
    | Taking(row: RowId)
    | Creating(channel: Channel, dead: seq<RowId>, found: Option<bool>)
    | Starting(channel: Channel, cleared: bool)
    | Judged(row: RowId, verdict: Verdict)
    | Minted(row: RowId, key: KeyId)
    | Ending(row: RowId, reason: string)
    | Claiming(row: RowId, key: KeyId)

  /** `keys` is every access key ever minted; `handed` records which recovery keys went to which claimers. */
  datatype Tables = Tables(
    rows: map<RowId, Conn>, keys: set<KeyId>, handed: seq<(KeyId, ProcId)>, procs: map<ProcId, Local>, serial: nat)

  const START := Tables(map[], {}, [], map[], 0)

  const REJECTED := "password_rejected"
  const REPLACED := "Replaced by a new connection attempt."
  const CANCELLED := "You cancelled this recovery attempt."
  const NOT_THE_ACCOUNT := "Recovery: the paired account is not the one this archive belongs to."
  const THE_ACCOUNT := "Recovery: this is the account the archive belongs to."

  // ---- single guarded statements ----

  predicate Open(rows: map<RowId, Conn>, r: RowId) {
    r in rows && rows[r].revokedAt.None?
  }

  function Publish(rows: map<RowId, Conn>, r: RowId, qr: string, now: Time): map<RowId, Conn> {
    if Open(rows, r) then rows[r := rows[r].(qr := Some(qr), qrAt := Some(now), lastError := None)] else rows
  }

  function AskPassword(rows: map<RowId, Conn>, r: RowId): map<RowId, Conn> {
    if Open(rows, r) then rows[r := rows[r].(needsPassword := true)] else rows
  }

  function RejectPassword(rows: map<RowId, Conn>, r: RowId): map<RowId, Conn> {
    if Open(rows, r) then rows[r := rows[r].(lastError := Some(REJECTED), needsPassword := true)] else rows
  }

  function Submit(rows: map<RowId, Conn>, r: RowId, secret: string, now: Time): map<RowId, Conn> {
    if Open(rows, r) && rows[r].status == Pending && rows[r].needsPassword
    then rows[r := rows[r].(secret := Some(secret), secretAt := Some(now), lastError := None)] else rows
  }

  function Complete(rows: map<RowId, Conn>, r: RowId, session: string, account: string): map<RowId, Conn> {
    if Open(rows, r) && rows[r].status == Pending
    then rows[r := rows[r].(status := Active, account := Some(account), session := Some(session), lastError := None,
                            qr := None, qrAt := None, needsPassword := false, secret := None, secretAt := None)]
    else rows
  }

  function Fail(rows: map<RowId, Conn>, r: RowId, message: string): map<RowId, Conn> {
    if Open(rows, r)
    then rows[r := rows[r].(status := Failed, lastError := Some(message), qr := None, qrAt := None,
                            needsPassword := false, secret := None, secretAt := None)]
    else rows
  }

  function Revoke(rows: map<RowId, Conn>, r: RowId, reason: string, now: Time): map<RowId, Conn> {
    if Open(rows, r)
    then rows[r := rows[r].(status := Revoked, revokedAt := Some(now), lastError := Some(reason), session := None,
                            qr := None, qrAt := None, needsPassword := false, secret := None, secretAt := None)]
    else rows
  }

  /** A session stores the first chat of its connection. */
  function Store(rows: map<RowId, Conn>, r: RowId): map<RowId, Conn> {
    if Open(rows, r) && rows[r].status == Active then rows[r := rows[r].(holdsChat := true)] else rows
  }

  /** The second statement of takeLoginSecret names the row alone. */
  function ForgetSecret(rows: map<RowId, Conn>, r: RowId): map<RowId, Conn> {
    if r in rows then rows[r := rows[r].(secret := None, secretAt := None)] else rows
  }

  // ---- inserting, under the unique index on (channel, purpose) of open rows ----

  predicate Taken(rows: map<RowId, Conn>, channel: Channel, purpose: Purpose) {
    exists r :: r in rows && rows[r].channel == channel && rows[r].purpose == purpose && rows[r].revokedAt.None?
  }

  /** An open archive row still pairing or paired: a claim on a fresh instance. */
  predicate Pairing(c: Conn) {
    c.purpose == Archive && c.revokedAt.None? && (c.status == Pending || c.status == Active)
  }

  function Claims(rows: map<RowId, Conn>): set<RowId> {
    set r | r in rows && Pairing(rows[r])
  }

  datatype SetupResult = SetupOk(id: RowId) | AlreadyConnected | Unconfigured | Claimed | Threw

  /** Why Connect is refused on a fresh instance before anything is written. */
  function Refusal(t: Tables, channel: Channel, mine: Option<RowId>, configured: bool): Option<SetupResult> {
    var live := Claims(t.rows);
    if channel == Telegram && !configured then Some(Unconfigured)
    else if exists r :: r in live && Some(r) != mine then Some(Claimed)
    else if exists r :: r in live && t.rows[r].status == Active then Some(AlreadyConnected)
    else None
  }

  /** createSetupConnection: one transaction; a refused INSERT undoes the delete before it. */
  function CreateSetup(t: Tables, channel: Channel, mine: Option<RowId>, configured: bool): (Tables, SetupResult) {
    var refusal := Refusal(t, channel, mine, configured);
    if refusal.Some? then (t, refusal.value)
    else
      var rows := t.rows - Claims(t.rows);
      if Taken(rows, channel, Archive) then (t, Threw)
      else (t.(rows := rows[t.serial := NewConn(channel, Archive)], serial := t.serial + 1), SetupOk(t.serial))
  }

  datatype Step =
    | PublishQr(row: RowId, qr: string, now: Time)
    | RequestPassword(row: RowId)
    | PasswordRejected(row: RowId)
    | SubmitPassword(row: RowId, secret: string, now: Time)
    | CompleteLogin(row: RowId, session: string, account: string)
    | FailLogin(row: RowId, message: string)
    | Disconnect(row: RowId, reason: string, now: Time)
    | DeleteRow(row: RowId)
    | StoreChat(row: RowId)
    | Setup(channel: Channel, mine: Option<RowId>, configured: bool)
    | MintKey
    | TakeRead(proc: ProcId, row: RowId)
    | TakeWrite(proc: ProcId)
    | CreateRead(proc: ProcId, channel: Channel, configured: bool, order: seq<RowId>)
    | CreateLook(proc: ProcId)
    | CreateClear(proc: ProcId, now: Time)
    | CreateInsert(proc: ProcId)
    | RecoverRead(proc: ProcId, channel: Channel, configured: bool)
    | RecoverClear(proc: ProcId)
    | RecoverInsert(proc: ProcId)
    | JudgeRead(proc: ProcId, row: RowId, channel: Channel, account: string)
    | JudgeMint(proc: ProcId)
    | JudgeRecord(proc: ProcId)
    | End(proc: ProcId, now: Time)
    | ClaimRead(proc: ProcId, row: RowId)
    | ClaimWrite(proc: ProcId)
    | CancelRead(proc: ProcId, row: RowId)
    | Crash(proc: ProcId)

  predicate DeadOn(c: Conn, channel: Channel) {
    c.channel == channel && c.purpose == Archive && c.revokedAt.None?
  }

  /** The SELECT's rows, in some order. */
  predicate ListsDead(rows: map<RowId, Conn>, channel: Channel, order: seq<RowId>) {
    (forall r :: r in order ==> r in rows && DeadOn(rows[r], channel)) &&
    (forall r :: r in rows && DeadOn(rows[r], channel) ==> r in order)
  }

  /** Some archive row of the channel, open or past, once reported this account. */
  predicate Known(rows: map<RowId, Conn>, channel: Channel, account: string) {
    exists r :: r in rows && rows[r].channel == channel && rows[r].purpose == Archive && rows[r].account == Some(account)
  }

  predicate SomeAccount(rows: map<RowId, Conn>, channel: Channel) {
    exists r :: r in rows && rows[r].channel == channel && rows[r].purpose == Archive && rows[r].account.Some?
  }

  function Put(t: Tables, p: ProcId, l: Local): Tables {
    t.(procs := t.procs[p := l])
  }

  function Done(t: Tables, p: ProcId): Tables {
    t.(procs := t.procs - {p})
  }

  function Insert(t: Tables, channel: Channel, purpose: Purpose): Tables {
    if Taken(t.rows, channel, purpose) then t
    else t.(rows := t.rows[t.serial := NewConn(channel, purpose)], serial := t.serial + 1)
  }

  function At(t: Tables, p: ProcId): Option<Local> {
    Get(t.procs, p)
  }

  /** The rows statement by statement; a step that is not possible where it stands changes nothing. */
  function ApplyRows(t: Tables, s: Step): Tables {
    match s
    case PublishQr(r, qr, now) => t.(rows := Publish(t.rows, r, qr, now))
    case RequestPassword(r) => t.(rows := AskPassword(t.rows, r))
    case PasswordRejected(r) => t.(rows := RejectPassword(t.rows, r))
    case SubmitPassword(r, secret, now) => t.(rows := Submit(t.rows, r, secret, now))
    case CompleteLogin(r, session, account) => t.(rows := Complete(t.rows, r, session, account))
    case FailLogin(r, message) => t.(rows := Fail(t.rows, r, message))
    case Disconnect(r, reason, now) => t.(rows := Revoke(t.rows, r, reason, now))
    case DeleteRow(r) => t.(rows := t.rows - {r})
    case StoreChat(r) => t.(rows := Store(t.rows, r))
    case Setup(channel, mine, configured) => CreateSetup(t, channel, mine, configured).0
    case MintKey => t.(keys := t.keys + {t.serial}, serial := t.serial + 1)
    case _ => t
  }

  function ApplyProc(t: Tables, s: Step): Tables {
    match s
    case TakeRead(p, r) =>
      if p !in t.procs && Open(t.rows, r) && t.rows[r].secret.Some? && t.rows[r].secretAt.Some? then Put(t, p, Taking(r)) else t
    case TakeWrite(p) =>
      if At(t, p).Some? && At(t, p).value.Taking? then Done(t.(rows := ForgetSecret(t.rows, t.procs[p].row)), p) else t
    // createConnection runs behind a session, so some key has been minted.
    case CreateRead(p, channel, configured, order) =>
      if p in t.procs || t.keys == {} || (channel == Telegram && !configured) then t
      else if !ListsDead(t.rows, channel, order) then t
      else if exists r :: r in t.rows && DeadOn(t.rows[r], channel) && t.rows[r].status == Active then t
      else Put(t, p, Creating(channel, order, None))
    // The lookup of a chat and the write that follows from it are two statements.
    case CreateLook(p) =>
      if At(t, p).Some? && At(t, p).value.Creating? && At(t, p).value.dead != [] && At(t, p).value.found.None? then
        var l := At(t, p).value;
        Put(t, p, l.(found := Some(l.dead[0] in t.rows && t.rows[l.dead[0]].holdsChat)))
      else t
    case CreateClear(p, now) =>
      if At(t, p).Some? && At(t, p).value.Creating? && At(t, p).value.dead != [] && At(t, p).value.found.Some? then
        var l := At(t, p).value;
        Put(t.(rows := if l.found.value then Revoke(t.rows, l.dead[0], REPLACED, now) else t.rows - {l.dead[0]}),
            p, l.(dead := l.dead[1..], found := None))
      else t
    case CreateInsert(p) =>
      if At(t, p).Some? && At(t, p).value.Creating? && At(t, p).value.dead == []
      then Done(Insert(t, t.procs[p].channel, Archive), p) else t
    case RecoverRead(p, channel, configured) =>
      if p in t.procs || (channel == Telegram && !configured) || !SomeAccount(t.rows, channel) then t
      else Put(t, p, Starting(channel, false))
    case RecoverClear(p) =>
      if At(t, p).Some? && At(t, p).value.Starting? && !At(t, p).value.cleared then
        var l := At(t, p).value;
        Put(t.(rows := map r | r in t.rows && !(t.rows[r].channel == l.channel && t.rows[r].purpose == Recovery && t.rows[r].revokedAt.None?)
                         :: t.rows[r]),
            p, l.(cleared := true))
      else t
    case RecoverInsert(p) =>
      if At(t, p).Some? && At(t, p).value.Starting? && At(t, p).value.cleared
      then Done(Insert(t, t.procs[p].channel, Recovery), p) else t
    case _ => t
  }

  function ApplyRecovery(t: Tables, s: Step): Tables {
    match s
    case JudgeRead(p, r, channel, account) =>
      if p in t.procs || !Open(t.rows, r) || t.rows[r].purpose != Recovery || t.rows[r].status != Pending then t
      else
        Put(t, p, Judged(r, if channel == t.rows[r].channel && Known(t.rows, channel, account) then Matched else Mismatched))
    case JudgeMint(p) =>
      if At(t, p).Some? && At(t, p).value.Judged? && At(t, p).value.verdict == Matched
      then Put(t.(keys := t.keys + {t.serial}, serial := t.serial + 1), p, Minted(t.procs[p].row, t.serial)) else t
    case JudgeRecord(p) =>
      if At(t, p).None? then t
      else
        (match t.procs[p]
         case Judged(r, Mismatched) =>
           Put(t.(rows := if Open(t.rows, r) then t.rows[r := t.rows[r].(verdict := Some(Mismatched))] else t.rows), p,
               Ending(r, NOT_THE_ACCOUNT))
         // A cancelled attempt: the key just minted is revoked, and nobody learns its id.
         case Minted(r, k) =>
           if !Open(t.rows, r) then Done(t, p)
           else Put(t.(rows := t.rows[r := t.rows[r].(verdict := Some(Matched), recoveryKey := Some(k))]), p, Ending(r, THE_ACCOUNT))
         case _ => t)
    case End(p, now) =>
      if At(t, p).Some? && At(t, p).value.Ending?
      then Done(t.(rows := Revoke(t.rows, t.procs[p].row, t.procs[p].reason, now)), p) else t
    case ClaimRead(p, r) =>
      if p !in t.procs && r in t.rows && t.rows[r].purpose == Recovery && t.rows[r].verdict == Some(Matched) && t.rows[r].recoveryKey.Some?
      then Put(t, p, Claiming(r, t.rows[r].recoveryKey.value)) else t
    case ClaimWrite(p) =>
      if At(t, p).Some? && At(t, p).value.Claiming? then
        var l := At(t, p).value;
        if l.row in t.rows && t.rows[l.row].recoveryKey == Some(l.key)
        then Done(t.(rows := t.rows[l.row := t.rows[l.row].(recoveryKey := None)], handed := t.handed + [(l.key, p)]), p)
        else Done(t, p)
      else t
    case CancelRead(p, r) =>
      if p !in t.procs && r in t.rows && t.rows[r].purpose == Recovery then Put(t, p, Ending(r, CANCELLED)) else t
    case Crash(p) => Done(t, p)
    case _ => t
  }

  function Apply(t: Tables, s: Step): Tables {
    match s
    case PublishQr(_, _, _) => ApplyRows(t, s)
    case RequestPassword(_) => ApplyRows(t, s)
    case PasswordRejected(_) => ApplyRows(t, s)
    case SubmitPassword(_, _, _) => ApplyRows(t, s)
    case CompleteLogin(_, _, _) => ApplyRows(t, s)
    case FailLogin(_, _) => ApplyRows(t, s)
    case Disconnect(_, _, _) => ApplyRows(t, s)
    case DeleteRow(_) => ApplyRows(t, s)
    case StoreChat(_) => ApplyRows(t, s)
    case Setup(_, _, _) => ApplyRows(t, s)
    case MintKey => ApplyRows(t, s)
    case TakeRead(_, _) => ApplyProc(t, s)
    case TakeWrite(_) => ApplyProc(t, s)
    case CreateRead(_, _, _, _) => ApplyProc(t, s)
    case CreateLook(_) => ApplyProc(t, s)
    case CreateClear(_, _) => ApplyProc(t, s)
    case CreateInsert(_) => ApplyProc(t, s)
    case RecoverRead(_, _, _) => ApplyProc(t, s)
    case RecoverClear(_) => ApplyProc(t, s)
    case RecoverInsert(_) => ApplyProc(t, s)
    case _ => ApplyRecovery(t, s)
  }

  function Run(t: Tables, steps: seq<Step>): Tables {
    if steps == [] then t else Apply(Run(t, steps[..|steps| - 1]), steps[|steps| - 1])
  }
}
