/** Specification of lib/services/import.ts: one push batch is one atomic fold over its entries. */
module Import {
  import opened Prelude
  import opened ArchiveTypes
  import opened Ingest
  import opened Disputes

  const MAX_PROBLEMS := 20

  function ToIncoming(e: Entry): Incoming {
    Incoming(e.chat, e.chatKind, e.chatTitle, e.ext, e.sender, e.senderName, e.fromOwner, e.sentAt, e.kind, e.text,
             false, e.replyTo, if e.raw.Some? then e.raw.value else StandIn(e.ext, e.sentAt), None)
  }

  predicate IsPushSource(s: Source, ref: SourceRef) {
    s.mode == Push && s.channel == ref.channel && s.account == Some(ref.account) && !s.revoked
  }

  ghost function FindSource(sources: map<SourceId, Source>, ref: SourceRef): Option<SourceId> {
    if s :| s in sources && IsPushSource(sources[s], ref) then Some(s) else None
  }

  ghost function UpsertSource(st: State, key: KeyId, ref: SourceRef): (State, SourceId) {
    match FindSource(st.sources, ref)
    case Some(s) => (st.(sources := st.sources[s := st.sources[s].(name := Some(ref.name))]), s)
    case None =>
      (st.(sources := st.sources[st.serial :=
             Source(Push, ref.channel, Some(ref.account), Some(ref.name), Some(key), false, None, 0, None)],
           serial := st.serial + 1),
       st.serial)
  }

  /** What stays fixed while one batch is folded. */
  datatype Ctx = Ctx(src: SourceId, channel: string, key: KeyId, now: Time)

  /** The fold's running state; usage is None in the variant that recounts the disputes at every capture. */
  datatype Acc = Acc(
    st: State, usage: Option<Budget>, inserted: nat, duplicates: nat, edited: nat, conflicts: nat,
    conflicting: seq<(string, string)>, touched: set<ChatKey>)

  datatype Folded = Folded(acc: Acc) | Refused

  ghost function OneEntry(a: Acc, ctx: Ctx, e: Entry): Folded {
    var (st1, rec) := Record(a.st, ctx.src, ctx.channel, ToIncoming(e), Some(ctx.key), e.editedAt);
    var b := a.(st := st1, touched := a.touched + {ChatKey(ctx.src, e.chat)});
    var p := Place(ctx.src, e.chat, e.ext);
    if rec.inserted then Folded(b.(inserted := b.inserted + 1))
    else
      var c := b.(duplicates := b.duplicates + 1);
      if rec.existingDeleted then Folded(c)
      else if e.editedAt.Some? then
        var (st2, applied) := PushedEdit(c.st, p, e.text, e.editedAt.value, Some(ctx.key));
        Folded(c.(st := st2, edited := c.edited + if applied then 1 else 0))
      else if rec.existingText != e.text then
        match Capture(c.st, p, ctx.key, e.text, ctx.now, c.usage)
        case OverCapacity => Refused
        case Captured(st2, usage) =>
          Folded(c.(st := st2, usage := usage, conflicts := c.conflicts + 1,
                    conflicting := if |c.conflicting| < MAX_PROBLEMS then c.conflicting + [(e.chat, e.ext)] else c.conflicting))
      else Folded(c)
  }

  ghost function Entries(a: Acc, ctx: Ctx, ms: seq<Entry>): Folded {
    if ms == [] then Folded(a)
    else
      match Entries(a, ctx, ms[..|ms| - 1])
      case Refused => Refused
      case Folded(b) => OneEntry(b, ctx, ms[|ms| - 1])
  }

  function Deletes(st: State, src: SourceId, ds: seq<Deletion>, now: Time): (State, nat) {
    if ds == [] then (st, 0)
    else
      var (st1, n) := Deletes(st, src, ds[..|ds| - 1], now);
      var d := ds[|ds| - 1];
      var (st2, m) := Delete(st1, src, DeleteRef(Some(d.chat), d.ext, None), now);
      (st2, n + m)
  }

  function Stamp(st: State, src: SourceId, key: KeyId, conflicts: nat, now: Time): State {
    if src !in st.sources then st
    else st.(sources := st.sources[src := st.sources[src].(
               lastSyncAt := Some(now), lastImportConflicts := conflicts, lastPushKey := Some(key))])
  }

  datatype ImportError = KeyRevoked | DisputeCapacity

  datatype ImportResult = ImportResult(
    source: SourceId, inserted: nat, duplicates: nat, edited: nat, deleted: nat, conflicts: nat,
    conflicting: seq<(string, string)>)

  predicate MayPush(st: State, key: KeyId) {
    key in st.keys && st.keys[key].canPush && !st.keys[key].revoked
  }

  function Start(st: State, usage: Option<Budget>): Acc {
    Acc(st, usage, 0, 0, 0, 0, [], {})
  }

  ghost function Finish(a: Acc, ctx: Ctx, b: Batch): (State, ImportResult) {
    var (st1, deleted) := Deletes(a.st, ctx.src, b.deletes, ctx.now);
    var st2 := Stamp(st1, ctx.src, ctx.key, a.conflicts, ctx.now);
    (MarkPushes(st2, ctx.src, ctx.key, a.touched, b.deletes, ctx.now),
     ImportResult(ctx.src, a.inserted, a.duplicates, a.edited, deleted, a.conflicts, a.conflicting))
  }

  /** importBatch. A thrown error leaves the tables as they were. */
  ghost function ImportBatch(st: State, key: KeyId, b: Batch, now: Time): (State, Result<ImportResult, ImportError>) {
    if !MayPush(st, key) then (st, Err(KeyRevoked))
    else
      var (st1, src) := UpsertSource(st, key, b.source);
      var ctx := Ctx(src, b.source.channel, key, now);
      match Entries(Start(st1, Some(Pending(st1.messages))), ctx, b.messages)
      case Refused => (st, Err(DisputeCapacity))
      case Folded(a) =>
        var (st2, r) := Finish(a, ctx, b);
        (st2, Ok(r))
  }
}
