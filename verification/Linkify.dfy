/** lib/transcript.ts linkify: a message's text cut into plain runs and links, with nothing lost. */
module Linkify {
  import opened Prelude
  import opened Populate

  datatype Segment = Text(value: string) | Link(value: string, href: string)

  // ---- the pattern: a word boundary, http(s):// or www., then at least one character that may be in a link ----

  function Lower(c: char): char {
    if 'A' <= c <= 'Z' then c - 'A' + 'a' else c
  }

  predicate WordChar(c: char) {
    'a' <= Lower(c) <= 'z' || '0' <= c <= '9' || c == '_'
  }

  /** The prefix is present at i, whatever its case. */
  predicate Spells(text: string, i: nat, word: string) {
    i + |word| <= |text| && forall k :: 0 <= k < |word| ==> Lower(text[i + k]) == word[k]
  }

  function PrefixLength(text: string, i: nat): nat {
    if Spells(text, i, "https://") then 8
    else if Spells(text, i, "http://") then 7
    else if Spells(text, i, "www.") then 4
    else 0
  }

  predicate TailChar(c: char) {
    !IsSpace(c) && c != '<' && c != '>' && c != '"' && c != '\''
  }

  function TailEnd(text: string, i: nat): (e: nat)
    requires i <= |text|
    ensures i <= e <= |text| && (forall k :: i <= k < e ==> TailChar(text[k])) && (e < |text| ==> !TailChar(text[e]))
    decreases |text| - i
  {
    if i < |text| && TailChar(text[i]) then TailEnd(text, i + 1) else i
  }

  /** Where a match that starts at i ends. */
  function MatchAt(text: string, i: nat): (e: Option<nat>)
    requires i <= |text|
    ensures e.Some? ==> i < e.value <= |text|
  {
    var n := PrefixLength(text, i);
    if n == 0 || (i > 0 && WordChar(text[i - 1])) || i + n > |text| || TailEnd(text, i + n) == i + n then None
    else Some(TailEnd(text, i + n))
  }

  datatype Span = Span(start: nat, end: nat)

  /** matchAll: leftmost first, each search resuming where the last match ended. */
  function Matches(text: string, from: nat): seq<Span>
    requires from <= |text|
    decreases |text| - from
  {
    if from == |text| then []
    else
      match MatchAt(text, from)
      case Some(e) => [Span(from, e)] + Matches(text, e)
      case None => Matches(text, from + 1)
  }

  // ---- peeling ----

  const TRAILING := ".,;:!?]}'\""

  function Count(s: string, c: char): nat {
    if s == "" then 0 else Count(s[..|s| - 1], c) + if s[|s| - 1] == c then 1 else 0
  }

  /** The last character comes off: listed punctuation, or a closing bracket too many. */
  predicate Peels(raw: string) {
    raw != "" &&
    if raw[|raw| - 1] == ')' then Count(raw, ')') > Count(raw, '(') else raw[|raw| - 1] in TRAILING
  }

  function Peeled(raw: string): (r: string)
    ensures !Peels(r) && r <= raw
  {
    if Peels(raw) then Peeled(raw[..|raw| - 1]) else raw
  }

  function Href(raw: string): string {
    if Spells(raw, 0, "https://") || Spells(raw, 0, "http://") then raw else "https://" + raw
  }

  // ---- the segments ----

  function Rest(text: string, last: nat): seq<Segment>
    requires last <= |text|
  {
    if last < |text| then [Text(text[last..])] else []
  }

  predicate Ordered(text: string, spans: seq<Span>, last: nat) {
    last <= |text| &&
    (spans != [] ==> last <= spans[0].start < spans[0].end <= |text| && Ordered(text, spans[1..], spans[0].end))
  }

  function Build(text: string, spans: seq<Span>, last: nat): seq<Segment>
    requires last <= |text| && (spans != [] ==> Ordered(text, spans, last))
  {
    if spans == [] then Rest(text, last)
    else
      var s := spans[0];
      var raw := Peeled(text[s.start..s.end]);
      OrderedLater(text, spans[1..], s.start + |raw|, s.end);
      (if s.start > last then [Text(text[last..s.start])] else []) + [Link(raw, Href(raw))] +
      Build(text, spans[1..], s.start + |raw|)
  }

  lemma OrderedLater(text: string, spans: seq<Span>, last: nat, end: nat)
    requires last <= end && Ordered(text, spans, end)
    ensures Ordered(text, spans, last)
  {
  }

  lemma {:induction false} MatchesOrdered(text: string, from: nat)
    requires from <= |text|
    ensures Ordered(text, Matches(text, from), from)
    decreases |text| - from
  {
    if from < |text| {
      match MatchAt(text, from)
      case Some(e) => MatchesOrdered(text, e); assert ([Span(from, e)] + Matches(text, e))[1..] == Matches(text, e);
      case None => MatchesOrdered(text, from + 1); OrderedLater(text, Matches(text, from + 1), from, from + 1);
    }
  }

  function Segments(text: string): seq<Segment> {
    MatchesOrdered(text, 0);
    Build(text, Matches(text, 0), 0)
  }

  // ---- nothing is lost ----

  function Values(segments: seq<Segment>): string {
    if segments == [] then "" else segments[0].value + Values(segments[1..])
  }

  function Links(segments: seq<Segment>): seq<string> {
    if segments == [] then []
    else (if segments[0].Link? then [segments[0].value] else []) + Links(segments[1..])
  }

  function PeeledAll(text: string, spans: seq<Span>): seq<string>
    requires forall s :: s in spans ==> s.start <= s.end <= |text|
  {
    if spans == [] then []
    else
      assert spans[0] in spans;
      [Peeled(text[spans[0].start..spans[0].end])] + PeeledAll(text, spans[1..])
  }

  ghost predicate WellFormed(segments: seq<Segment>) {
    && (forall i :: 0 <= i < |segments| ==> segments[i].value != "")
    && (forall i :: 0 <= i < |segments| - 1 ==> segments[i].Link? || segments[i + 1].Link?)
    && (forall i :: 0 <= i < |segments| && segments[i].Link? ==> segments[i].href == Href(segments[i].value) && !Peels(segments[i].value))
  }

  /** A match begins with a letter, so peeling never empties it. */
  lemma {:induction false} PeeledKeepsHead(raw: string)
    requires raw != "" && raw[0] != ')' && raw[0] !in TRAILING
    ensures Peeled(raw) != ""
  {
    if Peels(raw) {
      PeeledKeepsHead(raw[..|raw| - 1]);
    }
  }

  lemma SpellsHead(text: string, i: nat, word: string)
    requires Spells(text, i, word) && word != "" && (word[0] == 'h' || word[0] == 'w')
    ensures i < |text| && text[i] != ')' && text[i] !in TRAILING
  {
    assert Lower(text[i + 0]) == word[0];
  }

  lemma MatchHead(text: string, i: nat)
    requires i <= |text| && MatchAt(text, i).Some?
    ensures i < |text| && text[i] != ')' && text[i] !in TRAILING
  {
    if Spells(text, i, "https://") {
      SpellsHead(text, i, "https://");
    } else if Spells(text, i, "http://") {
      SpellsHead(text, i, "http://");
    } else {
      SpellsHead(text, i, "www.");
    }
  }

  ghost predicate AreMatches(text: string, spans: seq<Span>) {
    forall s :: s in spans ==> s.start <= |text| && MatchAt(text, s.start) == Some(s.end)
  }

  lemma {:induction false} MatchesMatch(text: string, from: nat)
    requires from <= |text|
    ensures AreMatches(text, Matches(text, from))
    decreases |text| - from
  {
    hide MatchAt;
    if from < |text| {
      match MatchAt(text, from)
      case Some(e) => MatchBounds(text, from); MatchesMatch(text, e);
      case None => MatchesMatch(text, from + 1);
    }
  }

  lemma MatchBounds(text: string, i: nat)
    requires i <= |text| && MatchAt(text, i).Some?
    ensures i < MatchAt(text, i).value <= |text|
  {
  }

  /** Whatever begins like a link lies inside a match. */
  lemma {:induction false} MatchesCover(text: string, from: nat, i: nat)
    requires from <= i < |text| && MatchAt(text, i).Some?
    ensures exists s :: s in Matches(text, from) && s.start <= i < s.end
    decreases |text| - from
  {
    hide MatchAt;
    match MatchAt(text, from)
    case Some(e) =>
      MatchBounds(text, from);
      assert Span(from, e) in Matches(text, from);
      if i >= e {
        MatchesCover(text, e, i);
        var s :| s in Matches(text, e) && s.start <= i < s.end;
        assert s in Matches(text, from);
      }
    case None =>
      MatchesCover(text, from + 1, i);
  }

  lemma {:induction false} ValuesConcat(a: seq<Segment>, b: seq<Segment>)
    ensures Values(a + b) == Values(a) + Values(b)
  {
    if a == [] {
      assert a + b == b;
    } else {
      ValuesConcat(a[1..], b);
      assert (a + b)[1..] == a[1..] + b;
    }
  }

  lemma {:induction false} LinksConcat(a: seq<Segment>, b: seq<Segment>)
    ensures Links(a + b) == Links(a) + Links(b)
  {
    if a == [] {
      assert a + b == b;
    } else {
      LinksConcat(a[1..], b);
      var here := if a[0].Link? then [a[0].value] else [];
      assert (a + b)[0] == a[0] && (a + b)[1..] == a[1..] + b;
      assert here + (Links(a[1..]) + Links(b)) == here + Links(a[1..]) + Links(b);
    }
  }

  lemma SpansBounded(text: string, spans: seq<Span>)
    requires AreMatches(text, spans)
    ensures forall s :: s in spans ==> s.start <= s.end <= |text|
  {
  }

  /** The segments from `last` on spell the text from `last` on, and their links are the peeled matches. */
  lemma {:induction false} BuildLosesNothing(text: string, spans: seq<Span>, last: nat)
    requires AreMatches(text, spans) && (forall s :: s in spans ==> s.start <= s.end <= |text|)
    requires last <= |text| && (spans != [] ==> Ordered(text, spans, last))
    ensures var out := Build(text, spans, last);
      Values(out) == text[last..] && Links(out) == PeeledAll(text, spans) && WellFormed(out)
  {
    hide MatchAt, Href, Peels, Build, Peeled, WellFormed, Values, Links;
    if spans == [] {
      BuildNone(text, last);
    } else {
      var s, later := spans[0], spans[1..];
      var raw := Peeled(text[s.start..s.end]);
      assert s in spans && forall x :: x in later ==> x in spans;
      MatchHead(text, s.start);
      PeeledKeepsHead(text[s.start..s.end]);
      BuildNext(text, spans, last);
      BuildLosesNothing(text, later, s.start + |raw|);
      var before := if s.start > last then [Text(text[last..s.start])] else [];
      hide Ordered, AreMatches;
      JoinSegments(text, before, raw, Build(text, later, s.start + |raw|), last, s.start);
    }
  }

  lemma BuildIsRest(text: string, last: nat)
    requires last <= |text|
    ensures Build(text, [], last) == Rest(text, last)
  {
  }

  lemma BuildNone(text: string, last: nat)
    requires last <= |text|
    ensures Values(Build(text, [], last)) == text[last..] && Links(Build(text, [], last)) == [] && WellFormed(Build(text, [], last))
  {
    if last < |text| {
      assert Build(text, [], last) == [Text(text[last..])];
      assert Values([Text(text[last..])]) == text[last..] + "";
    }
  }

  lemma BuildNext(text: string, spans: seq<Span>, last: nat)
    requires spans != [] && Ordered(text, spans, last)
    ensures var s := spans[0]; var raw := Peeled(text[s.start..s.end]);
      Ordered(text, spans[1..], s.start + |raw|) && s.start + |raw| <= |text| &&
      Build(text, spans, last) ==
        (if s.start > last then [Text(text[last..s.start])] else []) + [Link(raw, Href(raw))] + Build(text, spans[1..], s.start + |raw|)
  {
    hide Peeled, Href;
    var s := spans[0];
    OrderedLater(text, spans[1..], s.start + |Peeled(text[s.start..s.end])|, s.end);
  }

  lemma JoinSegments(text: string, before: seq<Segment>, raw: string, rest: seq<Segment>, last: nat, start: nat)
    requires last <= start && start + |raw| <= |text| && raw == text[start..start + |raw|] && raw != "" && !Peels(raw)
    requires before == if start > last then [Text(text[last..start])] else []
    requires Values(rest) == text[start + |raw|..] && WellFormed(rest)
    ensures var out := before + [Link(raw, Href(raw))] + rest;
      Values(out) == text[last..] && Links(out) == [raw] + Links(rest) && WellFormed(out)
  {
    hide Href, Peels;
    JoinValues(text, before, raw, rest, last, start);
    var link := [Link(raw, Href(raw))];
    LinksConcat(before + link, rest);
    LinksConcat(before, link);
    assert Links(link) == [raw] + [] && Links(before) == [];
    hide Values, Links;
  }

  lemma JoinValues(text: string, before: seq<Segment>, raw: string, rest: seq<Segment>, last: nat, start: nat)
    requires last <= start && start + |raw| <= |text| && raw == text[start..start + |raw|]
    requires before == if start > last then [Text(text[last..start])] else []
    requires Values(rest) == text[start + |raw|..]
    ensures Values(before + [Link(raw, Href(raw))] + rest) == text[last..]
  {
    hide Href;
    var link := [Link(raw, Href(raw))];
    ValuesConcat(before + link, rest);
    ValuesConcat(before, link);
    assert Values(link) == raw + "";
    assert Values(before) == text[last..start];
    hide Values;
    assert text[last..start] + raw + text[start + |raw|..] == text[last..];
  }

  /**
    * The segment values concatenate back to the text, none is empty, no two texts are adjacent, and the links are, in
    * order, the peeled matches: none ends in punctuation that should have come off.
    */
  lemma LinkifyLosesNothing(text: string)
    ensures Values(Segments(text)) == text && WellFormed(Segments(text))
    ensures AreMatches(text, Matches(text, 0)) && forall s :: s in Matches(text, 0) ==> s.start <= s.end <= |text|
    ensures Links(Segments(text)) == PeeledAll(text, Matches(text, 0))
  {
    MatchesOrdered(text, 0);
    MatchesMatch(text, 0);
    SpansBounded(text, Matches(text, 0));
    BuildLosesNothing(text, Matches(text, 0), 0);
  }

  /** Only trailing punctuation is peeled: each longer prefix of the match ended in something that comes off. */
  lemma {:induction false} PeelsOnlyTrailing(raw: string, k: nat)
    requires |Peeled(raw)| < k <= |raw|
    ensures Peels(raw[..k])
  {
    if k == |raw| {
      assert raw[..k] == raw;
    } else {
      PeelsOnlyTrailing(raw[..|raw| - 1], k);
      assert raw[..|raw| - 1][..k] == raw[..k];
    }
  }

  // ---- the scanner ----

  method CountOf(s: string, c: char) returns (n: nat)
    ensures n == Count(s, c)
  {
    n := 0;
    for i := 0 to |s|
      invariant n == Count(s[..i], c)
    {
      assert s[..i + 1][..i] == s[..i];
      if s[i] == c {
        n := n + 1;
      }
    }
    assert s[..|s|] == s;
  }

  method Peel(whole: string) returns (raw: string)
    ensures raw == Peeled(whole)
  {
    raw := whole;
    while true
      invariant Peeled(raw) == Peeled(whole)
      decreases |raw|
    {
      if raw == "" {
        break;
      }
      var ch := raw[|raw| - 1];
      if ch == ')' {
        var opens := CountOf(raw, '(');
        var closes := CountOf(raw, ')');
        if closes <= opens {
          break;
        }
      } else if ch !in TRAILING {
        break;
      }
      raw := raw[..|raw| - 1];
    }
  }

  /** The next match at or after `from`. */
  method NextMatch(text: string, from: nat) returns (found: Option<Span>)
    requires from <= |text|
    ensures found.None? ==> Matches(text, from) == []
    ensures found.Some? ==> from <= found.value.start < found.value.end <= |text|
    ensures found.Some? ==> Matches(text, from) == [found.value] + Matches(text, found.value.end)
  {
    hide MatchAt;
    for i := from to |text|
      invariant Matches(text, i) == Matches(text, from)
    {
      var e := MatchAt(text, i);
      if e.Some? {
        MatchBounds(text, i);
        return Some(Span(i, e.value));
      }
    }
    return None;
  }

  lemma SegmentsAre(text: string)
    ensures Ordered(text, Matches(text, 0), 0) && Segments(text) == Build(text, Matches(text, 0), 0)
  {
    MatchesOrdered(text, 0);
  }

  lemma Regroup(out: seq<Segment>, before: seq<Segment>, link: Segment, rest: seq<Segment>, all: seq<Segment>)
    requires out + (before + [link] + rest) == all
    ensures out + before + [link] + rest == all
  {
    assert out + before + [link] + rest == out + (before + [link] + rest);
  }

  method Linkify(text: string) returns (out: seq<Segment>)
    ensures out == Segments(text)
  {
    hide MatchAt, Href, Peeled, Matches, Ordered, Build, Segments;
    MatchesOrdered(text, 0);
    SegmentsAre(text);
    out := [];
    var last: nat, from: nat := 0, 0;
    while true
      invariant last <= from <= |text| && Ordered(text, Matches(text, from), last)
      invariant out + Build(text, Matches(text, from), last) == Segments(text)
      decreases |text| - from
    {
      var m := NextMatch(text, from);
      if m.None? {
        BuildIsRest(text, last);
        break;
      }
      var start, end := m.value.start, m.value.end;
      var raw := Peel(text[start..end]);
      MatchesOrdered(text, end);
      OrderedLater(text, Matches(text, end), start + |raw|, end);
      BuildNext(text, Matches(text, from), last);
      ghost var rest := Build(text, Matches(text, end), start + |raw|);
      Regroup(out, if start > last then [Text(text[last..start])] else [], Link(raw, Href(raw)), rest, Segments(text));
      assert out + [] == out;
      if start > last {
        out := out + [Text(text[last..start])];
      }
      out := out + [Link(raw, Href(raw))];
      last, from := start + |raw|, end;
    }
    if last < |text| {
      out := out + [Text(text[last..])];
    }
  }
}
