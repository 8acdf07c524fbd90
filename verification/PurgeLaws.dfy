/** Purging a revoked key removes exactly its contributions, once. */
module PurgeLaws {
  import opened Prelude
  import opened ArchiveTypes
  import opened Disputes
  import opened Runs
  import opened Consistency

  /** The key's last word on a message: it held every remaining candidate. */
  predicate LosesLast(s: Slot, key: KeyId) {
    s.cands != map[] && forall k :: k in s.cands ==> k.key == key
  }

  /** What one surviving message looks like afterwards. */
  ghost predicate OnlyKeyGone(s: Slot, t: Slot, key: KeyId) {
    && t.row == s.row.(conflictedAt := t.row.conflictedAt, revision := t.row.revision)
    && t.row.conflictedAt == (if LosesLast(s, key) then None else s.row.conflictedAt)
    && t.row.revision == s.row.revision + (if LosesLast(s, key) then 1 else 0)
    && (forall k :: k in t.cands <==> k in s.cands && k.key != key)
    && (forall k :: k in t.cands ==> t.cands[k] == s.cands[k])
  }

  /** A live message the key delivered. */
  predicate Goes(s: Slot, key: KeyId) {
    s.row.pushKey == Some(key) && s.row.deletedAt == None
  }

  /** A candidate of the key, or one against a message it delivered. */
  predicate CandidateGoes(s: Slot, k: CandKey, key: KeyId) {
    k in s.cands && (k.key == key || s.row.pushKey == Some(key))
  }

  /** A source the purge concerned: a live row of the key, a candidate of the key, or a dispute on its rows. */
  ghost predicate Concerned(st: State, key: KeyId, src: SourceId) {
    exists p :: p in st.messages && p.source == src &&
      (Goes(st.messages[p], key) || exists k :: CandidateGoes(st.messages[p], k, key))
  }

  /** A source without a message. */
  ghost predicate Bare(messages: map<Place, Slot>, src: SourceId) {
    forall p :: p in messages ==> p.source != src
  }

  lemma WithoutKeyExact(s: Slot, key: KeyId)
    ensures OnlyKeyGone(s, WithoutKey(s, key), key)
  {
    var kept := map k | k in s.cands && k.key != key :: s.cands[k];
    if LosesLast(s, key) {
      assert kept == map[];
    } else if s.cands != map[] {
      var k :| k in s.cands && k.key != key;
      assert k in kept;
    } else {
      assert kept == s.cands;
    }
  }

  lemma TouchedIsConcerned(st: State, key: KeyId, src: SourceId)
    ensures src in TouchedSources(PreviewOf(st.messages, key)) <==> Concerned(st, key, src)
  {
    var v := PreviewOf(st.messages, key);
    if Concerned(st, key, src) {
      var p :| p in st.messages && p.source == src &&
        (Goes(st.messages[p], key) || exists k :: CandidateGoes(st.messages[p], k, key));
      var id := MessageId(p, st.messages[p].row.serial);
      if Goes(st.messages[p], key) {
        assert (id, st.messages[p].row.revision) in v.rows;
      } else {
        var k :| CandidateGoes(st.messages[p], k, key);
        assert (id, st.messages[p].cands[k].serial, k.revision) in v.cands;
      }
    }
    if r :| r in v.rows && r.0.at.source == src {
      assert Goes(st.messages[r.0.at], key);
    }
    if c :| c in v.cands && c.0.at.source == src {
      var k :| k in st.messages[c.0.at].cands && (k.key == key || Delivered(st.messages[c.0.at], key));
      assert CandidateGoes(st.messages[c.0.at], k, key);
    }
  }

  /**
    * The preview names, with its revision, every live message the key delivered, and every candidate that goes with the
    * key or with such a message.
    */
  lemma PreviewIsExact(st: State, key: KeyId)
    ensures var v := PreviewOf(st.messages, key);
      && (forall at, serial, revision :: (MessageId(at, serial), revision) in v.rows <==>
            at in st.messages && Goes(st.messages[at], key) &&
            st.messages[at].row.serial == serial && st.messages[at].row.revision == revision)
      && (forall at, serial, cand, revision :: (MessageId(at, serial), cand, revision) in v.cands <==>
            at in st.messages && st.messages[at].row.serial == serial &&
            exists k :: CandidateGoes(st.messages[at], k, key) && st.messages[at].cands[k].serial == cand && k.revision == revision)
  {
    var v := PreviewOf(st.messages, key);
    forall at, serial, cand, revision
      ensures (MessageId(at, serial), cand, revision) in v.cands <==>
        at in st.messages && st.messages[at].row.serial == serial &&
        exists k :: CandidateGoes(st.messages[at], k, key) && st.messages[at].cands[k].serial == cand && k.revision == revision
    {
      if at in st.messages &&
         exists k :: CandidateGoes(st.messages[at], k, key) && st.messages[at].cands[k].serial == cand && k.revision == revision {
        var k :| CandidateGoes(st.messages[at], k, key) && st.messages[at].cands[k].serial == cand && k.revision == revision;
        assert (MessageId(at, st.messages[at].row.serial), st.messages[at].cands[k].serial, k.revision) in v.cands;
      }
    }
  }

  /** A purge runs exactly for a revoked key that could push, and only if the preview shown before is still the present one. */
  lemma PurgeRunsIff(st: State, key: KeyId, expected: Option<Preview>)
    ensures var (end, out) := Purge(st, key, expected);
      && (out.NotFound? <==> key !in st.keys || !st.keys[key].revoked || !st.keys[key].canPush)
      && (out.PurgeDone? <==> !out.NotFound? && (expected == None || expected == Some(PreviewOf(st.messages, key))))
      && (!out.PurgeDone? ==> end == st)
  {
    hide PreviewOf, TouchedSources, PurgedMessages;
  }

  /** The messages that survive, and what became of them; the sources that survive; and the two counts. */
  lemma PurgeIsExact(st: State, key: KeyId, expected: Option<Preview>)
    requires Purge(st, key, expected).1.PurgeDone?
    ensures var (end, out) := Purge(st, key, expected);
      && (forall p :: p in end.messages <==> p in st.messages && !Goes(st.messages[p], key))
      && (forall p :: p in end.messages ==> OnlyKeyGone(st.messages[p], end.messages[p], key))
      && (forall s :: s in end.sources <==>
            s in st.sources && !(st.sources[s].mode == Push && Concerned(st, key, s) && Bare(end.messages, s)))
      && (forall s :: s in end.sources ==> end.sources[s] == st.sources[s])
      && out.messagesDeleted == |set p | p in st.messages && Goes(st.messages[p], key)|
      && out.sourcesDeleted == |set p | p in st.messages && Concerned(st, key, p.source) && Bare(end.messages, p.source) :: p.source|
  {
    var (end, out) := Purge(st, key, expected);
    var messages := PurgedMessages(st.messages, key);
    PurgeUnfolds(st, key, expected);
    assert PurgedPlaces(st.messages, key) == set p | p in st.messages && Goes(st.messages[p], key);
    SweptIs(st, key, messages);
    hide Purge, TouchedSources, PreviewOf, WithoutKey, Concerned, OnlyKeyGone, Swept;
    forall p | p in end.messages ensures OnlyKeyGone(st.messages[p], end.messages[p], key) {
      WithoutKeyExact(st.messages[p], key);
    }
  }

  lemma PurgeUnfolds(st: State, key: KeyId, expected: Option<Preview>)
    requires Purge(st, key, expected).1.PurgeDone?
    ensures var messages := PurgedMessages(st.messages, key);
      var swept := Swept(PreviewOf(st.messages, key), messages); var (end, out) := Purge(st, key, expected);
      && end.messages == messages && out == PurgeDone(|PurgedPlaces(st.messages, key)|, |swept|)
      && end.sources == map s | s in st.sources && s !in PushOnly(st.sources, swept) :: st.sources[s]
  {
    hide PreviewOf, TouchedSources, PurgedMessages;
  }

  lemma SweptIs(st: State, key: KeyId, messages: map<Place, Slot>)
    ensures forall s :: s in Swept(PreviewOf(st.messages, key), messages) <==> Concerned(st, key, s) && Bare(messages, s)
    ensures Swept(PreviewOf(st.messages, key), messages) ==
      set p | p in st.messages && Concerned(st, key, p.source) && Bare(messages, p.source) :: p.source
  {
    var swept := Swept(PreviewOf(st.messages, key), messages);
    forall s ensures s in swept <==> Concerned(st, key, s) && Bare(messages, s) {
      TouchedIsConcerned(st, key, s);
    }
    forall s | Concerned(st, key, s) ensures exists p :: p in st.messages && p.source == s {
    }
    hide Swept, PreviewOf, Concerned, Bare;
  }

  /** Chat rows go only with their source; no key changes. */
  lemma PurgeSparesRooms(st: State, key: KeyId, expected: Option<Preview>)
    ensures var end := Purge(st, key, expected).0;
      && (forall c :: c in end.chats <==> c in st.chats && (c.source in st.sources ==> c.source in end.sources))
      && (forall c :: c in end.chats ==> end.chats[c] == st.chats[c])
      && end.keys == st.keys
  {
    hide PreviewOf, TouchedSources, PurgedMessages, Swept;
  }

  /** Purging again finds nothing: the tables stay as they are. */
  lemma PurgeTwice(st: State, key: KeyId)
    requires Inv(st) && Purge(st, key, None).1.PurgeDone?
    ensures var end := Purge(st, key, None).0; Purge(end, key, None) == (end, PurgeDone(0, 0))
  {
    var end := Purge(st, key, None).0;
    PurgeIsExact(st, key, None);
    PurgeKeeps(st, key, None);
    hide Purge, LinksOk, SourcesUnique, WithinCapacity, PreviewOf, TouchedSources, Concerned;
    assert end.keys == st.keys by { PurgeKeysSame(st, key); }
    forall p | p in end.messages
      ensures !Purged(end.messages[p], key) && WithoutKey(end.messages[p], key) == end.messages[p]
      ensures forall k :: k in end.messages[p].cands ==> k.key != key && !Delivered(end.messages[p], key)
    {
      assert OnlyKeyGone(st.messages[p], end.messages[p], key) && SlotOk(end.messages[p], end.serial);
      NothingLeft(end.messages[p], key);
    }
    hide SlotsOk, WithoutKey, OnlyKeyGone;
    forall s ensures !Concerned(end, key, s) {
      Unconcerned(end, key, s);
    }
    PurgeIdle(end, key);
  }

  lemma NothingLeft(s: Slot, key: KeyId)
    requires forall k :: k in s.cands ==> k.key != key
    ensures WithoutKey(s, key) == s
  {
    assert (map k | k in s.cands && k.key != key :: s.cands[k]) == s.cands;
  }

  lemma Unconcerned(st: State, key: KeyId, src: SourceId)
    requires forall p :: p in st.messages ==> !Purged(st.messages[p], key)
    requires forall p, k :: p in st.messages && k in st.messages[p].cands ==> k.key != key && !Delivered(st.messages[p], key)
    ensures !Concerned(st, key, src)
  {
  }

  lemma PurgeKeysSame(st: State, key: KeyId)
    ensures Purge(st, key, None).0.keys == st.keys
    ensures Purge(st, key, None).1.PurgeDone? <==> key in st.keys && st.keys[key].revoked && st.keys[key].canPush
  {
    hide PreviewOf, TouchedSources, PurgedMessages;
  }

  lemma PurgeIdle(st: State, key: KeyId)
    requires key in st.keys && st.keys[key].revoked && st.keys[key].canPush
    requires forall p :: p in st.messages ==> !Purged(st.messages[p], key) && WithoutKey(st.messages[p], key) == st.messages[p]
    requires forall s :: !Concerned(st, key, s)
    ensures Purge(st, key, None) == (st, PurgeDone(0, 0))
  {
    forall s ensures s !in TouchedSources(PreviewOf(st.messages, key)) {
      TouchedIsConcerned(st, key, s);
    }
    hide TouchedSources, PreviewOf, WithoutKey, Concerned, DropSources;
    assert PurgedMessages(st.messages, key) == st.messages;
    assert PurgedPlaces(st.messages, key) == {};
    assert Swept(PreviewOf(st.messages, key), st.messages) == {};
    assert PushOnly(st.sources, {}) == {};
    DropNothing(st);
  }

  lemma DropNothing(st: State)
    ensures DropSources(st, {}) == st
  {
    var end := DropSources(st, {});
    assert end.sources == st.sources && end.chats == st.chats && end.messages == st.messages;
  }
}
