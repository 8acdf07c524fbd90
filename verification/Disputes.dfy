/** Specification of lib/services/disputes.ts: candidates, their capacity, review and purge. */
module Disputes {
  import opened Prelude
  import opened ArchiveTypes

  const MAX_PENDING_BYTES := 512 * 1024 * 1024
  const MAX_PENDING_CANDIDATES := 10_000

  /** Buffer.byteLength: UTF-8 bytes of one scalar value, and of a text (null counts as the empty text). */
  function CharBytes(c: char): nat {
    var code := c as int;
    if code < 0x80 then 1 else if code < 0x800 then 2 else if code < 0x1_0000 then 3 else 4
  }

  function StringBytes(s: string): nat {
    if s == "" then 0 else StringBytes(s[..|s| - 1]) + CharBytes(s[|s| - 1])
  }

  function TextBytes(text: Option<string>): nat {
    if text.Some? then StringBytes(text.value) else 0
  }

  /** The message_disputes table: one reference per stored candidate. */
  datatype Ref = Ref(at: Place, key: CandKey)

  function Refs(messages: map<Place, Slot>): set<Ref> {
    set p, k | p in messages && k in messages[p].cands :: Ref(p, k)
  }

  ghost function SumBytes(refs: set<Ref>): nat {
    if refs == {} then 0
    else
      var r :| r in refs;
      TextBytes(r.key.text) + SumBytes(refs - {r})
  }

  datatype Budget = Budget(n: nat, bytes: nat)

  /** Recounting the table: pendingBudget. */
  ghost function Pending(messages: map<Place, Slot>): Budget {
    Budget(|Refs(messages)|, SumBytes(Refs(messages)))
  }

  predicate Full(usage: Budget, text: Option<string>) {
    usage.n >= MAX_PENDING_CANDIDATES || usage.bytes + TextBytes(text) > MAX_PENDING_BYTES
  }

  datatype Captured = Captured(st: State, usage: Option<Budget>) | OverCapacity

  /** The candidate row of a repeated disagreement, or a first one. */
  function Bump(s: Slot, k: CandKey, now: Time): Slot
    requires k in s.cands
  {
    Slot(s.row.(conflictedAt := Some(now)),
         s.cands[k := s.cands[k].(occurrences := s.cands[k].occurrences + 1, lastSeen := now)])
  }

  function AddCandidate(s: Slot, k: CandKey, now: Time, serial: nat): Slot {
    Slot(s.row.(conflictedAt := Some(now)), s.cands[k := Cand(serial, now, now, 1)])
  }

  /** captureDispute; `usage` is the batch's running budget, None when the table is recounted each time. */
  ghost function Capture(st: State, p: Place, key: KeyId, text: Option<string>, now: Time, usage: Option<Budget>): Captured {
    if p !in st.messages || st.messages[p].row.deletedAt.Some? || st.messages[p].row.text == text then Captured(st, usage)
    else
      var s := st.messages[p];
      var k := CandKey(s.row.revision, key, text);
      if k in s.cands then
        Captured(st.(messages := st.messages[p := Bump(s, k, now)]), usage)
      else
        var known := if usage.Some? && !Full(usage.value, text) then usage.value else Pending(st.messages);
        if Full(known, text) then OverCapacity
        else
          Captured(st.(messages := st.messages[p := AddCandidate(s, k, now, st.serial)], serial := st.serial + 1),
                   if usage.Some? then Some(Budget(known.n + 1, known.bytes + TextBytes(text))) else None)
  }

  // ---- review ----

  datatype Mark = Mark(serial: nat, occurrences: nat, lastSeen: Time)

  /** candidateToken: the hash is injective, and ordering the candidates by id makes a list out of a set. */
  datatype Token = Token(revision: nat, conflictedAt: Option<Time>, marks: set<Mark>)

  function TokenOf(s: Slot): Token {
    Token(s.row.revision, s.row.conflictedAt,
          set k | k in s.cands :: Mark(s.cands[k].serial, s.cands[k].occurrences, s.cands[k].lastSeen))
  }

  /** The slot getDispute shows, when the message is live and marked. */
  function UnderReview(st: State, id: MessageId): Option<Slot> {
    if id.at in st.messages && st.messages[id.at].row.serial == id.serial &&
       st.messages[id.at].row.deletedAt.None? && st.messages[id.at].row.conflictedAt.Some?
    then Some(st.messages[id.at]) else None
  }

  datatype Action = Keep | Accept(candidate: nat) | Remove

  datatype Resolution = Resolved | Stale | CandidateMissing

  ghost function Candidate(s: Slot, serial: nat): Option<CandKey> {
    if k :| k in s.cands && s.cands[k].serial == serial then Some(k) else None
  }

  function Settled(s: Slot, action: Action, chosen: Option<CandKey>, now: Time): Slot
    requires action.Accept? ==> chosen.Some?
  {
    var row := s.row.(conflictedAt := None, revision := s.row.revision + 1);
    match action
    case Keep => Slot(row, map[])
    case Remove => Slot(row.(deletedAt := Some(now)), map[])
    case Accept(_) =>
      var at := if row.editedAt.Some? then Max(now, row.editedAt.value) else Max(now, 0);
      Slot(row.(text := chosen.value.text, editedAt := Some(at), contentKey := Some(chosen.value.key),
                contentActor := Some(ByKey)), map[])
  }

  ghost function Resolve(st: State, id: MessageId, token: Token, action: Action, now: Time): (State, Resolution) {
    match UnderReview(st, id)
    case None => (st, Stale)
    case Some(s) =>
      if TokenOf(s) != token then (st, Stale)
      else
        var chosen := if action.Accept? then Candidate(s, action.candidate) else None;
        if action.Accept? && chosen.None? then (st, CandidateMissing)
        else (st.(messages := st.messages[id.at := Settled(s, action, chosen, now)]), Resolved)
  }

  // ---- purge ----

  /** What purgePreview lists: the live messages the key delivered, and every candidate that will go. */
  datatype Preview = Preview(rows: set<(MessageId, nat)>, cands: set<(MessageId, nat, nat)>)

  predicate Delivered(s: Slot, key: KeyId) {
    s.row.pushKey == Some(key)
  }

  predicate Purged(s: Slot, key: KeyId) {
    Delivered(s, key) && s.row.deletedAt.None?
  }

  function PreviewOf(messages: map<Place, Slot>, key: KeyId): Preview {
    Preview(
      set p | p in messages && Purged(messages[p], key) :: (MessageId(p, messages[p].row.serial), messages[p].row.revision),
      set p, k | p in messages && k in messages[p].cands && (k.key == key || Delivered(messages[p], key)) ::
        (MessageId(p, messages[p].row.serial), messages[p].cands[k].serial, k.revision))
  }

  function TouchedSources(v: Preview): set<SourceId> {
    (set r | r in v.rows :: r.0.at.source) + (set c | c in v.cands :: c.0.at.source)
  }

  function OfOthers(cands: map<CandKey, Cand>, key: KeyId): map<CandKey, Cand> {
    map k | k in cands && k.key != key :: cands[k]
  }

  /** A slot without one key's candidates; losing the last one settles the message. */
  function WithoutKey(s: Slot, key: KeyId): Slot {
    var kept := OfOthers(s.cands, key);
    if kept != s.cands && kept == map[] then
      Slot(s.row.(conflictedAt := None, revision := s.row.revision + 1), kept)
    else Slot(s.row, kept)
  }

  function PurgedMessages(messages: map<Place, Slot>, key: KeyId): map<Place, Slot> {
    map p | p in messages && !Purged(messages[p], key) :: WithoutKey(messages[p], key)
  }

  predicate Emptied(messages: map<Place, Slot>, src: SourceId) {
    forall p :: p in messages ==> p.source != src
  }

  /** Deleting a source row cascades over its chats and messages. */
  function DropSources(st: State, gone: set<SourceId>): State {
    st.(sources := map s | s in st.sources && s !in gone :: st.sources[s],
        chats := map c | c in st.chats && c.source !in gone :: st.chats[c],
        messages := map p | p in st.messages && p.source !in gone :: st.messages[p])
  }

  function PurgedPlaces(messages: map<Place, Slot>, key: KeyId): set<Place> {
    set p | p in messages && Purged(messages[p], key)
  }

  /** The touched sources that the purge leaves without a single row. */
  function Swept(v: Preview, messages: map<Place, Slot>): set<SourceId> {
    set s | s in TouchedSources(v) && Emptied(messages, s)
  }

  /** The DELETE names push sources only. */
  function PushOnly(sources: map<SourceId, Source>, swept: set<SourceId>): set<SourceId> {
    set s | s in swept && s in sources && sources[s].mode == Push
  }

  datatype PurgeResult = PurgeDone(messagesDeleted: nat, sourcesDeleted: nat) | NotFound | PurgeStale

  function Purge(st: State, key: KeyId, expected: Option<Preview>): (State, PurgeResult) {
    if key !in st.keys || !st.keys[key].revoked || !st.keys[key].canPush then (st, NotFound)
    else
      var preview := PreviewOf(st.messages, key);
      if expected.Some? && expected.value != preview then (st, PurgeStale)
      else
        var messages := PurgedMessages(st.messages, key);
        var swept := Swept(preview, messages);
        (DropSources(st.(messages := messages), PushOnly(st.sources, swept)),
         PurgeDone(|PurgedPlaces(st.messages, key)|, |swept|))
  }
}
