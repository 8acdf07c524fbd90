/** Who may edit and delete live, and what a live edit and a live delete leave behind, column by column. */
module LiveLaws {
  import opened Prelude
  import opened ArchiveTypes
  import opened Ingest
  import opened Runs

  /** The columns an edit or a delete never touches. */
  predicate SameOrigin(r: Row, t: Row) {
    t.serial == r.serial && t.body == r.body && t.pushKey == r.pushKey
  }

  /** The text, its date and its credit. */
  predicate SameContent(r: Row, t: Row) {
    t.text == r.text && t.editedAt == r.editedAt && t.contentKey == r.contentKey && t.contentActor == r.contentActor
  }

  /**
    * A live edit of a stored message: it changes the message if and only if the message is not a tombstone and the edit
    * names no actor, or the owner for a message of the owner's, or a contact by a nonblank id for a message of that same
    * contact's. It then leaves exactly the edit's text, dated now and credited to the channel.
    */
  lemma LiveEditIff(st: State, s: SourceId, m: Incoming, now: Time)
    requires s in st.sources && Place(s, m.chat, m.ext) in st.messages
    ensures var end := Apply(st, LiveChange(s, m, now)); var p := Place(s, m.chat, m.ext);
      var was := st.messages[p].row;
      && end.messages.Keys == st.messages.Keys && (forall q :: q in st.messages && q != p ==> end.messages[q] == st.messages[q])
      && if was.deletedAt == None &&
            (m.actor == None ||
             (m.actor.value.fromOwner && was.body.fromOwner) ||
             (!m.actor.value.fromOwner && !was.body.fromOwner && m.actor.value.sender != None && m.actor.value.sender != Some("") &&
              m.actor.value.sender == was.body.sender))
         then
           var t := end.messages[p];
           && t.cands == map[] && SameOrigin(was, t.row) && t.row.revision == was.revision + 1
           && t.row.text == m.text && t.row.editedAt == Some(now) && t.row.deletedAt == None && t.row.conflictedAt == None
           && t.row.contentKey == None && t.row.contentActor == Some(ByChannel)
         else end.messages[p] == st.messages[p]
  {
    hide ChatAfter;
  }

  /** A live edit of a message the archive does not have: stored as it is where an edit is a whole message, else dropped. */
  lemma LiveEditOfUnknown(st: State, s: SourceId, m: Incoming, now: Time)
    requires s in st.sources && Place(s, m.chat, m.ext) !in st.messages
    ensures var end := Apply(st, LiveChange(s, m, now)); var p := Place(s, m.chat, m.ext);
      && (p in end.messages <==> m.actor == None && st.sources[s].channel != "whatsapp")
      && (forall q :: q in end.messages && q != p ==> q in st.messages && end.messages[q] == st.messages[q])
      && (forall q :: q in st.messages ==> q in end.messages)
      && (p in end.messages ==>
            var t := end.messages[p];
            && t.cands == map[] && t.row.text == m.text && t.row.editedAt == None && t.row.deletedAt == None
            && t.row.conflictedAt == None && t.row.pushKey == None && t.row.contentKey == None
            && t.row.body.sender == m.sender && t.row.body.senderName == m.senderName && t.row.body.fromOwner == m.fromOwner
            && t.row.body.sentAt == m.sentAt && t.row.body.kind == m.kind && t.row.body.hasMedia == m.hasMedia
            && t.row.body.replyTo == m.replyTo && t.row.body.raw == m.raw)
  {
    hide ChatAfter;
  }

  /** A live message: the first one is stored column by column, a second one under the same id changes no message. */
  lemma LiveRecordStores(st: State, s: SourceId, m: Incoming)
    requires s in st.sources
    ensures var end := Apply(st, LiveRecord(s, m)); var p := Place(s, m.chat, m.ext);
      && (forall q :: q in st.messages ==> q in end.messages && end.messages[q] == st.messages[q])
      && (forall q :: q in end.messages && q !in st.messages ==> q == p)
      && p in end.messages
      && (p !in st.messages ==>
            var t := end.messages[p];
            && t.cands == map[] && t.row.text == m.text && t.row.editedAt == None && t.row.deletedAt == None
            && t.row.conflictedAt == None && t.row.revision == 0 && t.row.pushKey == None && t.row.contentKey == None
            && t.row.contentActor == Some(ByChannel)
            && t.row.body.sender == m.sender && t.row.body.senderName == m.senderName && t.row.body.fromOwner == m.fromOwner
            && t.row.body.sentAt == m.sentAt && t.row.body.kind == m.kind && t.row.body.hasMedia == m.hasMedia
            && t.row.body.replyTo == m.replyTo && t.row.body.raw == m.raw)
  {
    hide ChatAfter;
  }

  // ---- deletes ----

  /** The chats a live delete may search: the one it names, or those numbered from -999999999999 on. */
  ghost predicate InReach(ref: DeleteRef, chat: string) {
    if ref.chat != None && ref.chat != Some("") then ref.chat == Some(chat)
    else exists n: int, digits: string :: n >= -999_999_999_999 && Spells(chat, digits, n)
  }

  predicate Numeral(s: string) {
    forall i :: 0 <= i < |s| ==> '0' <= s[i] <= '9'
  }

  /** An optional minus sign and at least one digit, worth n. */
  ghost predicate Spells(chat: string, digits: string, n: int) {
    digits != "" && Numeral(digits) &&
    ((chat == digits && n == Worth(digits)) || (chat == "-" + digits && n == 0 - Worth(digits)))
  }

  /** Positional notation, from the front. */
  function Worth(digits: string): int
    requires Numeral(digits)
  {
    if digits == "" then 0 else (digits[0] as int - '0' as int) * Ten(|digits| - 1) + Worth(digits[1..])
  }

  function Ten(n: nat): nat {
    if n == 0 then 1 else 10 * Ten(n - 1)
  }

  lemma {:induction false} WorthSnoc(digits: string)
    requires digits != "" && Numeral(digits)
    ensures Worth(digits) == 10 * Worth(digits[..|digits| - 1]) + (digits[|digits| - 1] as int - '0' as int)
  {
    var n := |digits| - 1;
    if n > 0 {
      WorthSnoc(digits[1..]);
      assert digits[1..][..n - 1] == digits[..n][1..];
      assert digits[..n][0] == digits[0];
      var d := digits[0] as int - '0' as int;
      assert d * Ten(n) == 10 * (d * Ten(n - 1));
    } else {
      assert digits[1..] == "" && digits[..0] == "";
      assert Ten(0) == 1;
    }
  }

  lemma NumeralIs(digits: string)
    ensures Numeral(digits) <==> forall c :: c in digits ==> IsDigit(c)
  {
    if forall c :: c in digits ==> IsDigit(c) {
      forall i | 0 <= i < |digits| ensures '0' <= digits[i] <= '9' {
        assert digits[i] in digits;
        assert IsDigit(digits[i]);
      }
    }
  }

  lemma {:induction false} WorthIs(digits: string)
    requires Numeral(digits)
    ensures forall c :: c in digits ==> IsDigit(c)
    ensures DigitsValue(digits) == Worth(digits)
  {
    NumeralIs(digits);
    if digits != "" {
      WorthIs(digits[..|digits| - 1]);
      WorthSnoc(digits);
    }
  }

  lemma CommonIffReach(chat: string)
    ensures IsCommonChat(chat) <==> exists n: int, digits: string :: n >= -999_999_999_999 && Spells(chat, digits, n)
  {
    hide DigitsValue, Worth;
    if IsCommonChat(chat) {
      var negative := chat != "" && chat[0] == '-';
      var digits := if negative then chat[1..] else chat;
      NumeralIs(digits);
      WorthIs(digits);
      var v := Worth(digits);
      assert chat == if negative then "-" + digits else digits;
      assert Spells(chat, digits, if negative then 0 - v else v);
    }
    if n: int, digits: string :| n >= -999_999_999_999 && Spells(chat, digits, n) {
      NumeralIs(digits);
      WorthIs(digits);
      if chat == digits {
        assert chat[0] in digits && chat[0] != '-';
      } else {
        assert chat[1..] == digits;
      }
    }
  }

  /**
    * A live delete of a stored message in a chat it may search: it buries the message if and only if the message is not a
    * tombstone and the delete names no actor, or one that wrote it. The tombstone keeps the text, and every other
    * message is as it was.
    */
  lemma LiveDeleteIff(st: State, s: SourceId, ref: DeleteRef, now: Time, p: Place)
    requires p in st.messages && p.Room() in st.chats
    ensures var end := Apply(st, LiveRemoval(s, ref, now)); var was := st.messages[p].row;
      && end.messages.Keys == st.messages.Keys
      && if p.source == s && p.ext == ref.ext && InReach(ref, p.chat) && was.deletedAt == None &&
            (ref.actor == None ||
             (ref.actor.value.fromOwner && was.body.fromOwner) ||
             (!ref.actor.value.fromOwner && !was.body.fromOwner && ref.actor.value.sender != None && ref.actor.value.sender != Some("") &&
              ref.actor.value.sender == was.body.sender))
         then
           var t := end.messages[p];
           && t.cands == map[] && SameOrigin(was, t.row) && SameContent(was, t.row) && t.row.revision == was.revision + 1
           && t.row.deletedAt == Some(now) && t.row.conflictedAt == None
         else end.messages[p] == st.messages[p]
  {
    hide IsCommonChat, Spells;
    CommonIffReach(p.chat);
  }
}
