/** The archive as a transition system: every transaction of the three services is one step. */
module Runs {
  import opened Prelude
  import opened ArchiveTypes
  import opened Ingest
  import opened Disputes
  import opened Import

  datatype Step =
    | MintKey(canPush: bool)
    | RevokeKey(key: KeyId)
    | OpenLive(channel: string)
    | RevokeSource(src: SourceId)
    | DropSource(src: SourceId)
    | PushBatch(key: KeyId, batch: Batch, now: Time)
    | LiveRecord(src: SourceId, m: Incoming)
    | LiveChange(src: SourceId, m: Incoming, now: Time)
    | LiveRemoval(src: SourceId, ref: DeleteRef, now: Time)
    | KeylessEdit(id: MessageId, text: Option<string>, at: Time)
    | Review(id: MessageId, token: Token, action: Action, now: Time)
    | PurgeKey(key: KeyId, expected: Option<Preview>)

  ghost function Apply(st: State, step: Step): State {
    match step
    case MintKey(canPush) => st.(keys := st.keys[st.serial := Key(canPush, false)], serial := st.serial + 1)
    case RevokeKey(k) => if k in st.keys then st.(keys := st.keys[k := st.keys[k].(revoked := true)]) else st
    case OpenLive(channel) =>
      st.(sources := st.sources[st.serial := Source(Live, channel, None, None, None, false, None, 0, None)],
          serial := st.serial + 1)
    case RevokeSource(s) =>
      if s in st.sources then st.(sources := st.sources[s := st.sources[s].(revoked := true)]) else st
    case DropSource(s) => DropSources(st, {s})
    case PushBatch(key, b, now) => ImportBatch(st, key, b, now).0
    // A chat row needs its source row: the foreign key refuses an unknown one.
    case LiveRecord(s, m) => if s in st.sources then Record(st, s, st.sources[s].channel, m, None, None).0 else st
    case LiveChange(s, m, now) => if s in st.sources then LiveEdit(st, s, st.sources[s].channel, m, now) else st
    case LiveRemoval(s, ref, now) => Delete(st, s, ref, now).0
    case KeylessEdit(id, text, at) =>
      if id.at in st.messages && st.messages[id.at].row.serial == id.serial
      then PushedEdit(st, id.at, text, at, None).0 else st
    case Review(id, token, action, now) => Resolve(st, id, token, action, now).0
    case PurgeKey(key, expected) => Purge(st, key, expected).0
  }

  ghost function Run(st: State, steps: seq<Step>): State {
    if steps == [] then st else Apply(Run(st, steps[..|steps| - 1]), steps[|steps| - 1])
  }

  lemma {:induction false} RunSplit(st: State, a: seq<Step>, b: seq<Step>)
    ensures Run(st, a + b) == Run(Run(st, a), b)
  {
    hide Apply;
    if b == [] {
      assert a + b == a;
    } else {
      RunSplit(st, a, b[..|b| - 1]);
      assert (a + b)[..|a + b| - 1] == a + b[..|b| - 1];
    }
  }

  // ---- the invariant ----

  /** Dispute consistency of one message. */
  ghost predicate SlotOk(s: Slot, serial: nat) {
    && s.row.serial < serial
    && (s.row.conflictedAt.Some? <==> s.cands != map[])
    && (forall k :: k in s.cands ==>
          k.revision == s.row.revision && k.text != s.row.text && s.row.deletedAt.None? && s.cands[k].serial < serial)
    && (forall j, k :: j in s.cands && k in s.cands && s.cands[j].serial == s.cands[k].serial ==> j == k)
  }

  ghost predicate SlotsOk(messages: map<Place, Slot>, serial: nat) {
    forall p :: p in messages ==> SlotOk(messages[p], serial)
  }

  ghost predicate LinksOk(st: State) {
    && (forall p :: p in st.messages ==>
          p.Room() in st.chats && st.messages[p].row.body.sentAt <= st.chats[p.Room()].lastMessageAt)
    && (forall c :: c in st.chats ==> c.source in st.sources)
    && (forall s :: s in st.sources ==> s < st.serial)
    && (forall k :: k in st.keys ==> k < st.serial)
  }

  /** The partial unique index connections_push_source. */
  ghost predicate SourcesUnique(sources: map<SourceId, Source>) {
    forall s, t, ref :: s in sources && t in sources && IsPushSource(sources[s], ref) && IsPushSource(sources[t], ref) ==> s == t
  }

  ghost predicate WithinCapacity(messages: map<Place, Slot>) {
    Pending(messages).n <= MAX_PENDING_CANDIDATES && Pending(messages).bytes <= MAX_PENDING_BYTES
  }

  ghost predicate Inv(st: State) {
    SlotsOk(st.messages, st.serial) && LinksOk(st) && SourcesUnique(st.sources) && WithinCapacity(st.messages)
  }
}
