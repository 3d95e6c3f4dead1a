/** Rendering the longest tail of a text that fits an HTML code block. Lengths are bytes
    of UTF-8 after HTML escaping. */
module CodeBlocks {

  /** Section 3 of RFC 3629. */
  function Utf8Size(c: char): nat {
    if c as int < 0x80 then 1 else if c as int < 0x800 then 2 else if c as int < 0x10000 then 3 else 4
  }

  function Bytes(s: string): nat {
    if s == "" then 0 else Bytes(s[..|s| - 1]) + Utf8Size(s[|s| - 1])
  }

  function EscapeChar(c: char): string {
    if c == '<' then "&lt;"
    else if c == '>' then "&gt;"
    else if c == '&' then "&amp;"
    else if c == '\'' then "&#39;"
    else if c == '"' then "&#34;"
    else [c]
  }

  function Escape(s: string): string {
    if s == "" then "" else Escape(s[..|s| - 1]) + EscapeChar(s[|s| - 1])
  }

  const PLAIN_OPEN := "<pre><code>"
  const CLOSE := "</code></pre>"

  function Open(language: string): string {
    if language == "" then PLAIN_OPEN else "<pre><code class=\"language-" + Escape(language) + "\">"
  }

  /** renderHTMLCodeBlock; the language is trimmed and in lower case. */
  function Render(content: string, language: string): string {
    Open(language) + Escape(content) + CLOSE
  }

  predicate Fits(content: string, language: string, maxLen: int) {
    Bytes(Render(content, language)) <= maxLen
  }

  predicate Space(c: char) {
    var n := c as int;
    0x09 <= n <= 0x0D || n == 0x20 || n == 0x85 || n == 0xA0 || n == 0x1680 || 0x2000 <= n <= 0x200A || n == 0x2028 || n == 0x2029 ||
    n == 0x202F || n == 0x205F || n == 0x3000
  }

  function TrimLeft(s: string): (from: nat)
    ensures from <= |s|
    ensures from < |s| ==> !Space(s[from])
    ensures forall i :: 0 <= i < from ==> Space(s[i])
  {
    if s != "" && Space(s[0]) then 1 + TrimLeft(s[1..]) else 0
  }

  function TrimRight(s: string): (to: nat)
    ensures to <= |s|
    ensures to > 0 ==> !Space(s[to - 1])
    ensures forall i :: to <= i < |s| ==> Space(s[i])
  {
    if s != "" && Space(s[|s| - 1]) then TrimRight(s[..|s| - 1]) else |s|
  }

  function Trim(s: string): string {
    var kept := s[..TrimRight(s)];
    kept[TrimLeft(kept)..]
  }

  lemma {:induction false} BytesConcat(a: string, b: string)
    ensures Bytes(a + b) == Bytes(a) + Bytes(b)
    decreases |b|
  {
    if b == "" {
      assert a + b == a;
    } else {
      assert (a + b)[..|a + b| - 1] == a + b[..|b| - 1];
      BytesConcat(a, b[..|b| - 1]);
    }
  }

  lemma {:induction false} EscapeConcat(a: string, b: string)
    ensures Escape(a + b) == Escape(a) + Escape(b)
    decreases |b|
  {
    hide EscapeChar;
    if b == "" {
      assert a + b == a;
    } else {
      assert (a + b)[..|a + b| - 1] == a + b[..|b| - 1];
      EscapeConcat(a, b[..|b| - 1]);
    }
  }

  /** What a reader of the block sees: the five entities decoded, everything else as is. */
  function Unescape(e: string): string
    decreases |e|
  {
    if e == "" then ""
    else if "&lt;" <= e then "<" + Unescape(e[4..])
    else if "&gt;" <= e then ">" + Unescape(e[4..])
    else if "&amp;" <= e then "&" + Unescape(e[5..])
    else if "&#39;" <= e then "'" + Unescape(e[5..])
    else if "&#34;" <= e then "\"" + Unescape(e[5..])
    else [e[0]] + Unescape(e[1..])
  }

  lemma UnescapeOne(c: char, e: string)
    ensures Unescape(EscapeChar(c) + e) == [c] + Unescape(e)
  {
    var full := EscapeChar(c) + e;
    assert full[|EscapeChar(c)|..] == e;
    assert full[0] == EscapeChar(c)[0];
    if c in {'<', '>', '&', '\'', '"'} {
      assert full[1] == EscapeChar(c)[1] && full[2] == EscapeChar(c)[2] && full[3] == EscapeChar(c)[3];
      assert EscapeChar(c) <= full;
    }
  }

  /** Escaping loses nothing. */
  lemma {:induction false} EscapeRoundTrip(s: string)
    ensures Unescape(Escape(s)) == s
    decreases |s|
  {
    if s != "" {
      EscapeRoundTrip(s[1..]);
      EscapeConcat([s[0]], s[1..]);
      assert s == [s[0]] + s[1..];
      assert Escape([s[0]]) == EscapeChar(s[0]) by {
        assert [s[0]][..0] == "";
      }
      UnescapeOne(s[0], Escape(s[1..]));
    }
  }

  predicate Markup(c: char) {
    c == '<' || c == '>' || c == '"' || c == '\''
  }

  /** Nothing in an escaped text could open a tag or end an attribute. */
  lemma {:induction false} EscapeIsInert(s: string)
    ensures forall i :: 0 <= i < |Escape(s)| ==> !Markup(Escape(s)[i])
    decreases |s|
  {
    if s != "" {
      EscapeIsInert(s[..|s| - 1]);
      EscapeCharIsInert(s[|s| - 1]);
    }
  }

  lemma EscapeCharIsInert(c: char)
    ensures forall i :: 0 <= i < |EscapeChar(c)| ==> !Markup(EscapeChar(c)[i])
  {
  }

  lemma RenderBytes(content: string, language: string)
    ensures Bytes(Render(content, language)) == Bytes(Open(language)) + Bytes(Escape(content)) + Bytes(CLOSE)
  {
    BytesConcat(Open(language) + Escape(content), CLOSE);
    BytesConcat(Open(language), Escape(content));
  }

  /** A contiguous piece of a text that fits, fits. */
  lemma PiecesFit(before: string, piece: string, after: string, language: string, maxLen: int)
    requires Fits(before + piece + after, language, maxLen)
    ensures Fits(piece, language, maxLen)
  {
    EscapeConcat(before + piece, after);
    EscapeConcat(before, piece);
    BytesConcat(Escape(before) + Escape(piece), Escape(after));
    BytesConcat(Escape(before), Escape(piece));
    RenderBytes(before + piece + after, language);
    RenderBytes(piece, language);
  }

  lemma ShorterSuffixesFit(s: string, i: nat, j: nat, language: string, maxLen: int)
    requires i <= j <= |s| && Fits(s[i..], language, maxLen)
    ensures Fits(s[j..], language, maxLen)
  {
    assert s[i..] == s[i..j] + s[j..] + "";
    PiecesFit(s[i..j], s[j..], "", language, maxLen);
  }

  lemma TrimIsAPiece(s: string) returns (a: nat, b: nat)
    ensures a <= b <= |s| && Trim(s) == s[a..b]
  {
    b := TrimRight(s);
    a := TrimLeft(s[..b]);
    assert s[a..b] == s[..b][a..];
  }

  lemma SliceFits(s: string, a: nat, b: nat, language: string, maxLen: int)
    requires a <= b <= |s| && Fits(s, language, maxLen)
    ensures Fits(s[a..b], language, maxLen)
  {
    hide Fits;
    assert s == s[..a] + s[a..b] + s[b..];
    PiecesFit(s[..a], s[a..b], s[b..], language, maxLen);
  }

  lemma TrimFits(s: string, language: string, maxLen: int)
    requires Fits(s, language, maxLen)
    ensures Fits(Trim(s), language, maxLen)
  {
    hide Fits, Trim;
    var a, b := TrimIsAPiece(s);
    SliceFits(s, a, b, language, maxLen);
  }

  /** What is shown is a contiguous piece of the suffix, so it fits when the suffix does. */
  lemma ShownFits(s: string, start: nat, language: string, maxLen: int)
    requires start <= |s|
    ensures Fits(s[start..], language, maxLen) ==> Fits(Shown(s, start), language, maxLen)
    ensures exists a, b :: start <= a <= b <= |s| && Shown(s, start) == s[a..b]
  {
    hide Fits, Trim;
    if start == 0 {
      assert s[0..] == s == s[0..|s|];
    } else {
      var tail := s[start..];
      var line := tail[AfterFirstLine(tail)..];
      var a, b := TrimIsAPiece(line);
      var from := start + AfterFirstLine(tail);
      assert Shown(s, start) == s[from + a..from + b];
      if Fits(tail, language, maxLen) {
        assert line == tail[AfterFirstLine(tail)..|tail|];
        SliceFits(tail, AfterFirstLine(tail), |tail|, language, maxLen);
        TrimFits(line, language, maxLen);
      }
    }
  }

  /** The least start from which the suffix fits; the length when not even nothing fits. */
  ghost predicate LeastFit(s: string, language: string, maxLen: int, start: nat) {
    && start <= |s|
    && (forall i :: 0 <= i < start ==> !Fits(s[i..], language, maxLen))
    && (start < |s| || Fits("", language, maxLen) ==> Fits(s[start..], language, maxLen))
  }

  method LeastStart(s: string, language: string, maxLen: int) returns (bestStart: nat)
    ensures LeastFit(s, language, maxLen, bestStart)
  {
    bestStart := |s|;
    var low: int, high: int := 0, |s|;
    while low <= high
      invariant 0 <= low <= |s| + 1 && -1 <= high <= |s| && bestStart <= |s|
      invariant forall i :: 0 <= i < low && i <= |s| ==> !Fits(s[i..], language, maxLen)
      invariant high < |s| ==> bestStart == high + 1 && Fits(s[bestStart..], language, maxLen)
      invariant high == |s| ==> bestStart == |s|
      invariant low <= high + 1
      decreases high - low
    {
      var mid := (low + high) / 2;
      var candidate := s[mid..];
      if Bytes(Render(candidate, language)) <= maxLen {
        bestStart := mid;
        high := mid - 1;
      } else {
        forall i | 0 <= i <= mid
          ensures !Fits(s[i..], language, maxLen)
        {
          if Fits(s[i..], language, maxLen) {
            ShorterSuffixesFit(s, i, mid, language, maxLen);
          }
        }
        low := mid + 1;
      }
    }
    assert s[|s|..] == "";
  }

  /** From after the first newline on, unless nothing follows it. */
  function AfterFirstLine(s: string): (from: nat)
    ensures from <= |s|
    ensures from > 0 ==> from < |s| && s[from - 1] == '\n' && forall i :: 0 <= i < from - 1 ==> s[i] != '\n'
    ensures from == 0 ==> forall i :: 0 <= i < |s| - 1 ==> s[i] != '\n'
  {
    var n := FirstNewline(s, 0);
    if n + 1 < |s| then n + 1 else 0
  }

  function FirstNewline(s: string, from: nat): (n: nat)
    requires from <= |s|
    ensures from <= n <= |s| && (n < |s| ==> s[n] == '\n') && forall i :: from <= i < n ==> s[i] != '\n'
    decreases |s| - from
  {
    if from == |s| || s[from] == '\n' then from else FirstNewline(s, from + 1)
  }

  /** What is shown of a trimmed text when its suffix from `start` fits. */
  function Shown(s: string, start: nat): string
    requires start <= |s|
  {
    if start == 0 then s
    else
      var tail := s[start..];
      Trim(tail[AfterFirstLine(tail)..])
  }

  /** `kept` is the text without the white space at its ends. */
  ghost predicate Trimmed(text: string, kept: string) {
    exists a, b ::
      && 0 <= a <= b <= |text| && kept == text[a..b]
      && (forall i :: 0 <= i < a || b <= i < |text| ==> Space(text[i]))
      && (a < b ==> !Space(text[a]) && !Space(text[b - 1]))
  }

  lemma TrimKeepsTheRest(s: string)
    ensures Trimmed(s, Trim(s))
  {
    var a, b := TrimIsAPiece(s);
    assert s[a..b] == s[..b][a..];
    TrimEnds(s);
  }

  lemma TrimEnds(s: string)
    ensures
      var b := TrimRight(s);
      var a := TrimLeft(s[..b]);
      && a <= b && Trim(s) == s[a..b]
      && (forall i :: 0 <= i < a || b <= i < |s| ==> Space(s[i]))
      && (a < b ==> !Space(s[a]) && !Space(s[b - 1]))
  {
    var b := TrimRight(s);
    var a := TrimLeft(s[..b]);
    assert s[..b][a..] == s[a..b];
    assert forall i :: 0 <= i < a ==> s[..b][i] == s[i];
    assert a < b ==> s[..b][a] == s[a];
  }

  lemma NoFirstLine(s: string)
    requires forall i :: 0 <= i < |s| - 1 ==> s[i] != '\n'
    ensures AfterFirstLine(s) == 0
  {
  }

  /** A cut text loses exactly the rest of the line it was cut in, when another line
      follows, and the white space at its ends; a text that fits is shown whole. */
  lemma ShownExactly(s: string, start: nat)
    requires start <= |s|
    ensures start == 0 ==> Shown(s, start) == s
    ensures start > 0 ==> exists from ::
      && start <= from <= |s| && Trimmed(s[from..], Shown(s, start))
      && (if exists i :: start <= i < |s| - 1 && s[i] == '\n'
          then start < from < |s| && s[from - 1] == '\n' && forall i :: start <= i < from - 1 ==> s[i] != '\n'
          else from == start)
  {
    if start > 0 {
      var tail := s[start..];
      var cut := AfterFirstLine(tail);
      var from := start + cut;
      assert tail[cut..] == s[from..];
      TrimKeepsTheRest(tail[cut..]);
      assert forall i :: 0 <= i < |tail| ==> tail[i] == s[start + i];
      if i :| start <= i < |s| - 1 && s[i] == '\n' {
        assert tail[i - start] == '\n';
        assert s[from - 1] == tail[cut - 1];
        forall j | start <= j < from - 1
          ensures s[j] != '\n'
        {
          assert tail[j - start] != '\n';
        }
      } else {
        NoFirstLine(tail);
      }
    }
  }

  /** renderHTMLCodeBlockTail: it fits whenever the empty block fits, and what it shows
      is taken from the longest suffix that fits. */
  method RenderTail(text: string, maxLen: int, language: string) returns (block: string, ghost start: nat)
    ensures Fits("", language, maxLen) ==> Bytes(block) <= maxLen
    ensures maxLen <= |PLAIN_OPEN + CLOSE| ==> block == Render("", language)
    ensures maxLen > |PLAIN_OPEN + CLOSE| ==>
      LeastFit(Trim(text), language, maxLen, start) && start <= |Trim(text)| && block == Render(Shown(Trim(text), start), language)
  {
    var content := Trim(text);
    start := 0;
    if maxLen <= |PLAIN_OPEN + CLOSE| {
      block := Render("", language);
      return;
    }
    if content == "" {
      block := Render("", language);
      return;
    }
    block := Render(content, language);
    if Bytes(block) <= maxLen {
      assert content[0..] == content;
      return;
    }
    var bestStart := LeastStart(content, language, maxLen);
    start := bestStart;
    assert content[0..] == content;
    var tail := content[bestStart..];
    if bestStart > 0 {
      tail := tail[AfterFirstLine(tail)..];
    }
    ShownFits(content, bestStart, language, maxLen);
    assert bestStart > 0 || !Fits("", language, maxLen);
    block := Render(Trim(tail), language);
  }
}
