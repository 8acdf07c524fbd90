/** The limits on stored disagreements, in candidates and in bytes, and what recording one leaves behind. */
module CapacityLaws {
  import opened Prelude
  import opened ArchiveTypes
  import opened Disputes
  import opened Capacity
  import opened Runs
  import opened Consistency

  // ---- bytes: the encoding of section 3 of RFC 3629 ----

  function Utf8(c: char): seq<int> {
    var n := c as int;
    var low, high := n % 64, n / 64;
    if n <= 0x7F then [n]
    else if n <= 0x7FF then [0xC0 + high, 0x80 + low]
    else if n <= 0xFFFF then [0xE0 + high / 64, 0x80 + high % 64, 0x80 + low]
    else [0xF0 + high / 64 / 64, 0x80 + high / 64 % 64, 0x80 + high % 64, 0x80 + low]
  }

  function Utf8Text(s: string): seq<int> {
    if s == "" then [] else Utf8Text(s[..|s| - 1]) + Utf8(s[|s| - 1])
  }

  lemma InSixBits(n: nat)
    ensures n == n / 64 * 64 + n % 64 && n % 64 < 64
  {
  }

  /** The character a sequence of bytes stands for. */
  function Decoded(b: seq<int>): int
    requires 1 <= |b| <= 4
  {
    match |b|
    case 1 => b[0]
    case 2 => (b[0] - 0xC0) * 64 + (b[1] - 0x80)
    case 3 => ((b[0] - 0xE0) * 64 + (b[1] - 0x80)) * 64 + (b[2] - 0x80)
    case _ => (((b[0] - 0xF0) * 64 + (b[1] - 0x80)) * 64 + (b[2] - 0x80)) * 64 + (b[3] - 0x80)
  }

  /** The first byte tells the length, the others continue, and together they carry the character. */
  lemma Utf8Decodes(c: char)
    ensures var b := Utf8(c);
      && |b| == (if b[0] < 0x80 then 1 else if b[0] < 0xE0 then 2 else if b[0] < 0xF0 then 3 else 4)
      && (|b| == 1 || b[0] >= 0xC2) && b[0] <= 0xF4 && (forall k :: 1 <= k < |b| ==> 0x80 <= b[k] < 0xC0)
      && Decoded(b) == c as int
  {
    var n := c as int;
    InSixBits(n);
    InSixBits(n / 64);
    InSixBits(n / 64 / 64);
  }

  lemma {:induction false} BytesAreUtf8(s: string)
    ensures StringBytes(s) == |Utf8Text(s)|
  {
    if s != "" {
      BytesAreUtf8(s[..|s| - 1]);
    }
  }

  lemma {:induction false} Utf8Joins(a: string, b: string)
    ensures Utf8Text(a + b) == Utf8Text(a) + Utf8Text(b)
  {
    hide Utf8;
    if b == "" {
      assert a + b == a;
    } else {
      Utf8Joins(a, b[..|b| - 1]);
      assert (a + b)[..|a + b| - 1] == a + b[..|b| - 1];
    }
  }

  // ---- the limits ----

  /** Every stored candidate, once. */
  ghost predicate ListsAll(messages: map<Place, Slot>, refs: seq<Ref>) {
    Distinct(refs) && forall r :: r in refs <==> r.at in messages && r.key in messages[r.at].cands
  }

  /** The texts one after the other; no text is the empty one. */
  function Texts(refs: seq<Ref>): string {
    if refs == [] then ""
    else
      var last := refs[|refs| - 1].key.text;
      Texts(refs[..|refs| - 1]) + if last.Some? then last.value else ""
  }

  function Bytes(refs: seq<Ref>): nat {
    |Utf8Text(Texts(refs))|
  }

  lemma {:induction false} SumIsBytes(refs: seq<Ref>)
    requires Distinct(refs)
    ensures SumBytes(set r | r in refs) == Bytes(refs)
  {
    var all := set r | r in refs;
    if refs == [] {
      assert all == {};
    } else {
      var front, last := refs[..|refs| - 1], refs[|refs| - 1];
      assert all - {last} == set r | r in front;
      SumRemove(all, last);
      SumIsBytes(front);
      var text := if last.key.text.Some? then last.key.text.value else "";
      Utf8Joins(Texts(front), text);
      BytesAreUtf8(text);
    }
  }

  lemma PendingIs(messages: map<Place, Slot>, refs: seq<Ref>)
    requires ListsAll(messages, refs)
    ensures Pending(messages) == Budget(|refs|, Bytes(refs))
  {
    var all := set r | r in refs;
    assert all == Refs(messages);
    DistinctCount(refs);
    SumIsBytes(refs);
  }

  /** In every reachable archive: at most ten thousand candidates, and at most 512 MiB of text between them. */
  lemma StaysWithinLimits(steps: seq<Step>, refs: seq<Ref>)
    requires ListsAll(Run(EMPTY, steps).messages, refs)
    ensures |refs| <= 10_000 && Bytes(refs) <= 536_870_912
  {
    ReachableConsistent(steps);
    PendingIs(Run(EMPTY, steps).messages, refs);
    hide Run, Bytes;
  }

  /** The message is live and says something else. */
  ghost predicate Differs(st: State, p: Place, text: Option<string>) {
    p in st.messages && st.messages[p].row.deletedAt == None && st.messages[p].row.text != text
  }

  /** The disagreement, were it recorded now. */
  function KeyNow(s: Slot, key: KeyId, text: Option<string>): CandKey {
    CandKey(s.row.revision, key, text)
  }

  /** A disagreement is refused exactly when it is new and one more would be too many, or too much. */
  lemma RefusedIff(st: State, p: Place, key: KeyId, text: Option<string>, now: Time, refs: seq<Ref>)
    requires ListsAll(st.messages, refs)
    ensures Capture(st, p, key, text, now, None).OverCapacity? <==>
      && Differs(st, p, text) && KeyNow(st.messages[p], key, text) !in st.messages[p].cands
      && (|refs| >= 10_000 || Bytes(refs) + |Utf8Text(if text.Some? then text.value else "")| > 536_870_912)
  {
    PendingIs(st.messages, refs);
    BytesAreUtf8(if text.Some? then text.value else "");
    hide Bytes, Pending, StringBytes, Utf8Text, Bump, AddCandidate;
  }

  /** A slot with one disagreement recorded: counted once more, or for the first time; the message itself stays. */
  ghost predicate RecordedOnce(s: Slot, t: Slot, k: CandKey, now: Time, serial: nat) {
    && t.row == s.row.(conflictedAt := Some(now))
    && t.cands.Keys == s.cands.Keys + {k}
    && (forall j :: j in s.cands && j != k ==> t.cands[j] == s.cands[j])
    && t.cands[k].lastSeen == now
    && (if k in s.cands then
          t.cands[k].serial == s.cands[k].serial && t.cands[k].firstSeen == s.cands[k].firstSeen &&
          t.cands[k].occurrences == s.cands[k].occurrences + 1
        else t.cands[k].serial == serial && t.cands[k].firstSeen == now && t.cands[k].occurrences == 1)
  }

  /** What is not refused is recorded, if the message is live and says something else; every other slot stays. */
  lemma RecordsIff(st: State, p: Place, key: KeyId, text: Option<string>, now: Time, usage: Option<Budget>)
    requires Capture(st, p, key, text, now, usage).Captured?
    ensures var end := Capture(st, p, key, text, now, usage).st;
      if !Differs(st, p, text) then end == st
      else
        && end.messages.Keys == st.messages.Keys && (forall q :: q in st.messages && q != p ==> end.messages[q] == st.messages[q])
        && RecordedOnce(st.messages[p], end.messages[p], KeyNow(st.messages[p], key, text), now, st.serial)
  {
    hide Pending, Full;
  }
}
