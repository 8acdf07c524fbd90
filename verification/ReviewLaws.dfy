/** What a review does to a message, column by column, and where the text it accepts came from. */
module ReviewLaws {
  import opened Prelude
  import opened ArchiveTypes
  import opened Disputes
  import opened Runs

  /** A live, marked message with this id, and the token of what is stored. */
  ghost predicate Current(st: State, id: MessageId, token: Token) {
    && id.at in st.messages && st.messages[id.at].row.serial == id.serial
    && st.messages[id.at].row.deletedAt == None && st.messages[id.at].row.conflictedAt != None
    && token == TokenOf(st.messages[id.at])
  }

  /** Nothing but the one message, and nothing at all unless the review is resolved. */
  lemma ReviewTouchesOne(st: State, id: MessageId, token: Token, action: Action, now: Time)
    ensures var (end, out) := Resolve(st, id, token, action, now);
      && end == st.(messages := end.messages) && end.messages.Keys == st.messages.Keys
      && (forall p :: p in st.messages && p != id.at ==> end.messages[p] == st.messages[p])
      && (out != Resolved ==> end == st) && (out == Stale <==> !Current(st, id, token))
  {
    hide TokenOf, Settled;
  }

  /** Settled: no candidates, no mark, the next revision, and the columns that never change. */
  ghost predicate Closes(s: Slot, t: Slot) {
    t.cands == map[] && t.row.conflictedAt == None && t.row.revision == s.row.revision + 1 &&
    t.row.serial == s.row.serial && t.row.body == s.row.body && t.row.pushKey == s.row.pushKey
  }

  /** Keep: text, date, tombstone and attribution stay. */
  lemma KeepKeeps(st: State, id: MessageId, token: Token, now: Time)
    requires Current(st, id, token)
    ensures var (end, out) := Resolve(st, id, token, Keep, now); var s, t := st.messages[id.at], end.messages[id.at];
      && out == Resolved && Closes(s, t) && t.row.text == s.row.text && t.row.editedAt == s.row.editedAt
      && t.row.deletedAt == None && t.row.contentKey == s.row.contentKey && t.row.contentActor == s.row.contentActor
  {
    hide TokenOf;
  }

  /** Remove: a tombstone of this instant, over the text as it was. */
  lemma RemoveBuries(st: State, id: MessageId, token: Token, now: Time)
    requires Current(st, id, token)
    ensures var (end, out) := Resolve(st, id, token, Remove, now); var s, t := st.messages[id.at], end.messages[id.at];
      && out == Resolved && Closes(s, t) && t.row.deletedAt == Some(now)
      && t.row.text == s.row.text && t.row.editedAt == s.row.editedAt
      && t.row.contentKey == s.row.contentKey && t.row.contentActor == s.row.contentActor
  {
    hide TokenOf;
  }

  /** The date an accepted text gets: the later of now and the old date, or of now and the epoch if it had none. */
  predicate DatedFrom(at: Option<Time>, was: Option<Time>, now: Time) {
    at.Some? && at.value >= now && at.value >= (if was.Some? then was.value else 0) &&
    (at.value == now || at.value == if was.Some? then was.value else 0)
  }

  /** Accept: resolved exactly if there is such a candidate, and then the text and the credit are that candidate's. */
  lemma AcceptTakes(st: State, id: MessageId, token: Token, c: nat, now: Time)
    requires Inv(st) && Current(st, id, token)
    ensures var (end, out) := Resolve(st, id, token, Accept(c), now); var s := st.messages[id.at];
      && (out == Resolved <==> exists k :: k in s.cands && s.cands[k].serial == c)
      && (out != Resolved ==> out == CandidateMissing)
      && (forall k :: k in s.cands && s.cands[k].serial == c ==> Accepted(s, end.messages[id.at], k, now))
  {
    var s := st.messages[id.at];
    assert SlotOk(s, st.serial);
    hide TokenOf, Inv, Accepted;
    if Candidate(s, c).Some? {
      CandidateIs(s, c);
    }
    forall k | k in s.cands && s.cands[k].serial == c ensures Candidate(s, c) == Some(k) && Accepted(s, Settled(s, Accept(c), Some(k), now), k, now) {
      OneCandidate(s, st.serial, k);
      SettledAccepted(s, c, k, now, st.serial);
    }
    hide SlotOk, Candidate, Settled;
  }

  /** The message now says what the candidate said, credited to the key that sent it. */
  ghost predicate Accepted(s: Slot, t: Slot, k: CandKey, now: Time) {
    && Closes(s, t) && t.row.text == k.text && t.row.contentKey == Some(k.key) && t.row.contentActor == Some(ByKey)
    && t.row.deletedAt == None && DatedFrom(t.row.editedAt, s.row.editedAt, now)
  }

  lemma SettledAccepted(s: Slot, c: nat, k: CandKey, now: Time, serial: nat)
    requires SlotOk(s, serial) && k in s.cands
    ensures Accepted(s, Settled(s, Accept(c), Some(k), now), k, now)
  {
  }

  lemma CandidateIs(s: Slot, c: nat)
    requires Candidate(s, c).Some?
    ensures var k := Candidate(s, c).value; k in s.cands && s.cands[k].serial == c
  {
  }

  lemma OneCandidate(s: Slot, serial: nat, k: CandKey)
    requires SlotOk(s, serial) && k in s.cands
    ensures Candidate(s, s.cands[k].serial) == Some(k)
  {
  }
}
