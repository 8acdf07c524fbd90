/** What becomes a link and where it leads, told in characters. */
module LinkLaws {
  import opened Prelude
  import opened Linkify

  const UPPER := "ABCDEFGHIJKLMNOPQRSTUVWXYZ"
  const LOWER := "abcdefghijklmnopqrstuvwxyz"
  const DIGITS := "0123456789"
  const SPACES := "\t\n\U{B}\U{C}\r \U{A0}\U{1680}\U{2000}\U{2001}\U{2002}\U{2003}" +
    "\U{2004}\U{2005}\U{2006}\U{2007}\U{2008}\U{2009}\U{200A}\U{2028}\U{2029}\U{202F}\U{205F}\U{3000}\U{FEFF}"
  const QUOTES := "<>\"'"

  /** The same character but for the case of an ASCII letter. */
  predicate Alike(c: char, small: char) {
    c == small || exists k :: 0 <= k < 26 && c == UPPER[k] && small == LOWER[k]
  }

  ghost predicate Begins(text: string, i: nat, word: string) {
    i + |word| <= |text| && forall k :: 0 <= k < |word| ==> Alike(text[i + k], word[k])
  }

  predicate InLink(c: char) {
    c !in SPACES && c !in QUOTES
  }

  lemma LowerIs(c: char, small: char)
    requires small !in UPPER
    ensures Lower(c) == small <==> Alike(c, small)
  {
    assert forall k: nat :: k < 26 ==> UPPER[k] as int == 65 + k && LOWER[k] as int == 97 + k;
    if 'A' <= c <= 'Z' {
      var k := c as int - 65;
      assert c == UPPER[k];
      assert Lower(c) == LOWER[k];
    }
  }

  predicate InWord(c: char) {
    c in UPPER || c in LOWER || c in DIGITS || c == '_'
  }

  lemma WordIs(c: char)
    ensures WordChar(c) <==> InWord(c)
  {
    assert forall k: nat :: k < 26 ==> UPPER[k] as int == 65 + k && LOWER[k] as int == 97 + k;
    assert forall k: nat :: k < 10 ==> DIGITS[k] as int == 48 + k;
    if 'A' <= c <= 'Z' {
      assert c == UPPER[c as int - 65];
    } else if 'a' <= c <= 'z' {
      assert c == LOWER[c as int - 97];
    } else if '0' <= c <= '9' {
      assert c == DIGITS[c as int - 48];
    }
  }

  lemma TailIs(c: char)
    ensures TailChar(c) <==> InLink(c)
  {
  }

  lemma SpellsIs(text: string, i: nat, word: string)
    requires forall c :: c in word ==> c !in UPPER
    ensures Spells(text, i, word) <==> Begins(text, i, word)
  {
    if i + |word| <= |text| {
      forall k | 0 <= k < |word| ensures Lower(text[i + k]) == word[k] <==> Alike(text[i + k], word[k]) {
        LowerIs(text[i + k], word[k]);
      }
    }
    hide Lower, Alike;
  }

  // ---- where links begin and end ----

  const PREFIXES := ["https://", "http://", "www."]

  /** A prefix of a link stands at i, with something behind it. */
  ghost predicate Opens(text: string, i: nat, word: string) {
    Begins(text, i, word) && i + |word| < |text| && InLink(text[i + |word|])
  }

  lemma SpellsAll(text: string, i: nat)
    ensures Spells(text, i, "https://") <==> Begins(text, i, "https://")
    ensures Spells(text, i, "http://") <==> Begins(text, i, "http://")
    ensures Spells(text, i, "www.") <==> Begins(text, i, "www.")
  {
    NoCapitals();
    hide UPPER, Spells, Begins;
    SpellsIs(text, i, "https://");
    SpellsIs(text, i, "http://");
    SpellsIs(text, i, "www.");
  }

  lemma NoCapitals()
    ensures forall c :: c in "https://" || c in "http://" || c in "www." ==> c !in UPPER
  {
  }

  lemma SpelledAt(text: string, i: nat, word: string, k: nat)
    requires Spells(text, i, word) && k < |word|
    ensures Lower(text[i + k]) == word[k]
  {
  }

  lemma OneSpelling(text: string, i: nat)
    ensures Spells(text, i, "https://") ==> !Spells(text, i, "http://") && !Spells(text, i, "www.")
    ensures Spells(text, i, "http://") ==> !Spells(text, i, "www.")
  {
    if Spells(text, i, "https://") {
      SpelledAt(text, i, "https://", 0);
      SpelledAt(text, i, "https://", 4);
    }
    if Spells(text, i, "http://") {
      SpelledAt(text, i, "http://", 0);
      SpelledAt(text, i, "http://", 4);
    }
    if Spells(text, i, "www.") {
      SpelledAt(text, i, "www.", 0);
    }
    hide Spells;
  }

  lemma PrefixIs(text: string, i: nat, w: string)
    requires w in PREFIXES && Begins(text, i, w)
    ensures PrefixLength(text, i) == |w| > 0
  {
    SpellsAll(text, i);
    OneSpelling(text, i);
    hide Spells, Begins;
  }

  lemma PrefixFound(text: string, i: nat) returns (w: string)
    requires PrefixLength(text, i) > 0
    ensures w in PREFIXES && Begins(text, i, w)
  {
    SpellsAll(text, i);
    hide Spells, Begins;
    w := if Spells(text, i, "https://") then PREFIXES[0] else if Spells(text, i, "http://") then PREFIXES[1] else PREFIXES[2];
  }

  lemma TailTakes(text: string, j: nat)
    requires j <= |text|
    ensures var e := TailEnd(text, j);
      && j <= e <= |text| && (j < e <==> j < |text| && InLink(text[j]))
      && (forall k :: j <= k < e ==> InLink(text[k])) && (e < |text| ==> !InLink(text[e]))
  {
    forall c: char ensures TailChar(c) <==> InLink(c) {
      TailIs(c);
    }
    hide TailChar, InLink;
  }

  /** No word character stands before i, and one of the three prefixes begins there with something behind it. */
  ghost predicate LinkOpens(text: string, i: nat)
    requires i <= |text|
  {
    (i == 0 || !InWord(text[i - 1])) && exists w :: w in PREFIXES && Opens(text, i, w)
  }

  /** The match takes every character behind its prefix that may be in a link. */
  lemma MatchTakes(text: string, i: nat, w: string)
    requires i <= |text| && (i == 0 || !InWord(text[i - 1])) && w in PREFIXES && Opens(text, i, w)
    ensures MatchAt(text, i).Some? && i + |w| < MatchAt(text, i).value <= |text|
    ensures var e := MatchAt(text, i).value;
      (forall k :: i + |w| <= k < e ==> InLink(text[k])) && (e < |text| ==> !InLink(text[e]))
  {
    PrefixIs(text, i, w);
    TailTakes(text, i + |w|);
    if i > 0 {
      WordIs(text[i - 1]);
    }
    hide TailEnd, InLink, WordChar, InWord, Begins, PrefixLength, PREFIXES, MatchAt;
    MatchIs(text, i);
  }

  lemma MatchIs(text: string, i: nat)
    requires i <= |text| && (i == 0 || !WordChar(text[i - 1]))
    ensures var n := PrefixLength(text, i);
      n > 0 && i + n <= |text| && TailEnd(text, i + n) > i + n ==> MatchAt(text, i) == Some(TailEnd(text, i + n))
  {
    hide TailEnd, WordChar, PrefixLength;
  }

  /** A match begins exactly there; the prefix is found whatever its case. */
  lemma MatchIff(text: string, i: nat)
    requires i <= |text|
    ensures MatchAt(text, i).Some? <==> LinkOpens(text, i)
  {
    if MatchAt(text, i).Some? {
      MatchOpens(text, i);
    }
    hide MatchAt, PREFIXES, Opens;
    if LinkOpens(text, i) {
      var w :| w in PREFIXES && Opens(text, i, w);
      MatchTakes(text, i, w);
    }
  }

  lemma MatchOpens(text: string, i: nat)
    requires i <= |text| && MatchAt(text, i).Some?
    ensures LinkOpens(text, i)
  {
    var w := PrefixFound(text, i);
    PrefixIs(text, i, w);
    if i > 0 {
      WordIs(text[i - 1]);
    }
    hide TailEnd, InLink, WordChar, InWord, Begins, PrefixLength, PREFIXES;
    TailTakes(text, i + |w|);
    assert Opens(text, i, w);
  }

  // ---- what comes off, and where a link leads ----

  function Positions(s: string, c: char): set<nat> {
    set i: nat | i < |s| && s[i] == c
  }

  /** A trailing character that is almost never part of an address: listed punctuation, or an unbalanced bracket. */
  predicate Loose(s: string) {
    s != "" && var c := s[|s| - 1];
    c in ['.', ',', ';', ':', '!', '?', ']', '}', '\'', '\"'] || (c == ')' && |Positions(s, '(')| < |Positions(s, ')')|)
  }

  lemma {:induction false} CountIs(s: string, c: char)
    ensures Count(s, c) == |Positions(s, c)|
  {
    if s != "" {
      var n := |s| - 1;
      CountIs(s[..n], c);
      assert Positions(s, c) == Positions(s[..n], c) + if s[n] == c then {n} else {};
    }
  }

  lemma PeelsIs(s: string)
    ensures Peels(s) <==> Loose(s)
  {
    CountIs(s, '(');
    CountIs(s, ')');
    hide Count, Positions;
  }

  /** What is kept of a match is its longest part from the left that does not end loosely. */
  lemma KeepsTheLongest(raw: string)
    ensures Peeled(raw) <= raw && !Loose(Peeled(raw))
    ensures forall k :: |Peeled(raw)| < k <= |raw| ==> Loose(raw[..k])
  {
    PeelsIs(Peeled(raw));
    forall k | |Peeled(raw)| < k <= |raw| ensures Loose(raw[..k]) {
      PeelsOnlyTrailing(raw, k);
      PeelsIs(raw[..k]);
    }
  }

  /** A link leads where it says, over https when it names no protocol; it is not empty and does not end loosely. */
  lemma LinksLead(text: string, i: nat)
    requires i < |Segments(text)| && Segments(text)[i].Link?
    ensures var l := Segments(text)[i];
      && l.value != "" && !Loose(l.value)
      && l.href == (if Begins(l.value, 0, "http://") || Begins(l.value, 0, "https://") then "" else "https://") + l.value
  {
    LinkifyLosesNothing(text);
    var l := Segments(text)[i];
    hide Segments, Values, Links, PeeledAll, Matches, AreMatches;
    PeelsIs(l.value);
    SpellsAll(l.value, 0);
    hide Peels, Loose, Spells, Begins;
    assert "" + l.value == l.value;
  }
}
