/** Python string operations used by the parsers, the chunker and the lexical index. */
module Text {
  import opened Lists

  datatype Option<+T> = None | Some(value: T)

  datatype Result<+T> = Ok(value: T) | Error(code: string)

  /** `str.isspace` for one character; `str.strip`, `str.split` and the regex class `\s` agree on it. */
  predicate IsSpace(c: char) {
    var n := c as int;
    9 <= n <= 13 || 28 <= n <= 32 || n == 0x85 || n == 0xA0 || n == 0x1680 || 0x2000 <= n <= 0x200A
    || n == 0x2028 || n == 0x2029 || n == 0x202F || n == 0x205F || n == 0x3000
  }

  /** The characters at which `str.splitlines` breaks. */
  predicate IsLineBreak(c: char) {
    var n := c as int;
    10 <= n <= 13 || 28 <= n <= 30 || n == 0x85 || n == 0x2028 || n == 0x2029
  }

  /** One by one: tab to carriage return, the four separators, the blanks of Latin-1 and those of Unicode. */
  const WHITE_SPACE: string :=
    "\t\n\U{0B}\U{0C}\r\U{1C}\U{1D}\U{1E}\U{1F} \U{85}\U{A0}\U{1680}\U{2000}\U{2001}\U{2002}\U{2003}\U{2004}\U{2005}" +
    "\U{2006}\U{2007}\U{2008}\U{2009}\U{200A}\U{2028}\U{2029}\U{202F}\U{205F}\U{3000}"

  lemma WhiteSpaceIs(c: char)
    ensures IsSpace(c) <==> c in WHITE_SPACE
    ensures IsLineBreak(c) <==> c in "\n\U{0B}\U{0C}\r\U{1C}\U{1D}\U{1E}\U{85}\U{2028}\U{2029}"
  {
  }

  function Min(a: int, b: int): int { if a <= b then a else b }

  function Max(a: int, b: int): int { if a <= b then b else a }

  /** The column or slice limit `s[:n]`. */
  function Cut(s: string, n: nat): (r: string)
    ensures |r| <= n && r <= s
  {
    if |s| <= n then s else s[..n]
  }

  predicate IsBlank(s: string) {
    forall i | 0 <= i < |s| :: IsSpace(s[i])
  }

  // ----- strip -----

  /** Index of the first non-space character, or `|s|`. */
  function StripStart(s: string): (k: nat)
    ensures k <= |s|
    ensures forall i | 0 <= i < k :: IsSpace(s[i])
    ensures k < |s| ==> !IsSpace(s[k])
  {
    if s == "" || !IsSpace(s[0]) then 0 else 1 + StripStart(s[1..])
  }

  /** One past the last non-space character, or 0. */
  function StripEnd(s: string): (k: nat)
    ensures k <= |s|
    ensures forall i | k <= i < |s| :: IsSpace(s[i])
    ensures k > 0 ==> !IsSpace(s[k - 1])
  {
    if s == "" then 0
    else if !IsSpace(s[|s| - 1]) then |s|
    else StripEnd(s[..|s| - 1])
  }

  function Strip(s: string): (r: string)
    ensures r != "" ==> !IsSpace(r[0]) && !IsSpace(r[|r| - 1])
    ensures r == "" <==> IsBlank(s)
    ensures |r| <= |s|
  {
    var a, b := StripStart(s), StripEnd(s);
    if a < b then s[a..b] else ""
  }

  // ----- ink: what remains of a text when all white space is dropped -----

  function NotSpace(): char -> bool {
    (c: char) => !IsSpace(c)
  }

  function Ink(s: string): string {
    Filter(NotSpace(), s)
  }

  lemma InkConcat(a: string, b: string)
    ensures Ink(a + b) == Ink(a) + Ink(b)
  {
    FilterConcat(NotSpace(), a, b);
  }

  lemma InkBlank(s: string)
    ensures Ink(s) == "" <==> IsBlank(s)
  {
    FilterEmpty(NotSpace(), s);
  }

  lemma InkAround(before: string, blank: string, after: string)
    requires IsBlank(blank)
    ensures Ink(before + blank + after) == Ink(before) + Ink(after)
  {
    InkConcat(before + blank, after);
    InkConcat(before, blank);
    InkBlank(blank);
  }

  lemma InkTrimmed(s: string, a: nat, b: nat)
    requires a <= b <= |s| && IsBlank(s[..a]) && IsBlank(s[b..])
    ensures Ink(s[a..b]) == Ink(s)
  {
    assert s == s[..a] + (s[a..b] + s[b..]);
    InkConcat(s[..a], s[a..b] + s[b..]);
    InkConcat(s[a..b], s[b..]);
    InkBlank(s[..a]);
    InkBlank(s[b..]);
  }

  lemma StrippedEnds(s: string, a: nat, b: nat)
    requires a == StripStart(s) && b == StripEnd(s)
    ensures a < b ==> IsBlank(s[..a]) && IsBlank(s[b..])
    ensures a >= b ==> IsBlank(s)
  {
  }

  lemma {:induction false} InkStrip(s: string)
    ensures Ink(Strip(s)) == Ink(s)
  {
    var a, b := StripStart(s), StripEnd(s);
    StrippedEnds(s, a, b);
    if a < b {
      InkTrimmed(s, a, b);
    } else {
      InkBlank(s);
      InkBlank("");
    }
  }

  function InkOf(): string -> string {
    (s: string) => Ink(s)
  }

  /** Ink of consecutive lines. */
  function InkLines(lines: seq<string>): string {
    FlatMap(InkOf(), lines)
  }

  lemma InkLinesConcat(a: seq<string>, b: seq<string>)
    ensures InkLines(a + b) == InkLines(a) + InkLines(b)
  {
    FlatMapConcat(InkOf(), a, b);
  }

  lemma InkOneLine(line: string)
    ensures InkLines([line]) == Ink(line)
  {
    assert [line][1..] == [];
    assert InkLines([line]) == Ink(line) + InkLines([line][1..]);
  }

  // ----- join -----

  function Join(separator: char, parts: seq<string>): string {
    if parts == [] then ""
    else if |parts| == 1 then parts[0]
    else parts[0] + [separator] + Join(separator, parts[1..])
  }

  lemma {:induction false} InkJoin(separator: char, parts: seq<string>)
    requires IsSpace(separator)
    ensures Ink(Join(separator, parts)) == InkLines(parts)
  {
    if |parts| == 1 {
      InkOneLine(parts[0]);
      assert parts == [parts[0]];
    } else if |parts| > 1 {
      InkJoin(separator, parts[1..]);
      InkAround(parts[0], [separator], Join(separator, parts[1..]));
      InkOneLine(parts[0]);
      InkLinesConcat([parts[0]], parts[1..]);
      assert parts == [parts[0]] + parts[1..];
    }
  }

  // ----- splitlines -----

  function LineEnd(s: string): (k: nat)
    ensures k <= |s|
    ensures forall i | 0 <= i < k :: !IsLineBreak(s[i])
    ensures k < |s| ==> IsLineBreak(s[k])
  {
    if s == "" || IsLineBreak(s[0]) then 0 else 1 + LineEnd(s[1..])
  }

  /** Where the line after the one ending at `e` starts; a carriage return and line feed are one break. */
  function NextLine(s: string, e: nat): (next: nat)
    requires e < |s| && IsLineBreak(s[e])
    ensures e < next <= |s| && IsBlank(s[e..next])
  {
    if s[e] == '\r' && e + 1 < |s| && s[e + 1] == '\n' then e + 2 else e + 1
  }

  function SplitLines(s: string): seq<string> {
    if s == "" then []
    else
      var e := LineEnd(s);
      if e == |s| then [s] else [s[..e]] + SplitLines(s[NextLine(s, e)..])
  }

  lemma InkThreeParts(s: string, a: nat, b: nat)
    requires a <= b <= |s|
    requires IsBlank(s[a..b])
    ensures Ink(s) == Ink(s[..a]) + Ink(s[b..])
  {
    assert s == s[..a] + s[a..b] + s[b..];
    InkAround(s[..a], s[a..b], s[b..]);
  }

  /** Splitting into lines loses no non-space character. */
  lemma {:induction false} InkSplitLines(s: string)
    ensures InkLines(SplitLines(s)) == Ink(s)
    decreases |s|
  {
    if s != "" {
      var e := LineEnd(s);
      if e < |s| {
        var rest := s[NextLine(s, e)..];
        InkSplitLines(rest);
        InkThreeParts(s, e, NextLine(s, e));
        InkLinesConcat([s[..e]], SplitLines(rest));
        InkOneLine(s[..e]);
      } else {
        InkOneLine(s);
      }
    }
  }

  predicate IsLine(line: string) {
    line != "" && forall c | c in line :: !IsLineBreak(c)
  }

  lemma LineAlone(line: string)
    requires IsLine(line)
    ensures SplitLines(line) == [line]
  {
    forall i | 0 <= i < |line| ensures !IsLineBreak(line[i]) { assert line[i] in line; }
  }

  lemma LineFirst(line: string, rest: string)
    requires IsLine(line)
    ensures SplitLines(line + ("\n" + rest)) == [line] + SplitLines(rest)
  {
    var s := line + ("\n" + rest);
    forall i | 0 <= i < |line| ensures !IsLineBreak(s[i]) { assert line[i] in line; }
    assert s[|line|] == '\n';
    assert LineEnd(s) == |line|;
    assert s[..|line|] == line && s[|line| + 1..] == rest;
  }

  /** Joining lines by line feeds and splitting again gives the lines back. */
  lemma {:induction false} SplitLinesJoin(lines: seq<string>)
    requires forall l | l in lines :: IsLine(l)
    ensures SplitLines(Join('\n', lines)) == lines
  {
    if |lines| == 1 {
      LineAlone(lines[0]);
    } else if |lines| > 1 {
      SplitLinesJoin(lines[1..]);
      LineFirst(lines[0], Join('\n', lines[1..]));
      assert Join('\n', lines) == lines[0] + ("\n" + Join('\n', lines[1..]));
    }
  }

  lemma {:induction false} LinesHaveNoBreaks(s: string)
    ensures forall l, c | l in SplitLines(s) && c in l :: !IsLineBreak(c)
    decreases |s|
  {
    if s != "" && LineEnd(s) < |s| {
      LinesHaveNoBreaks(s[NextLine(s, LineEnd(s))..]);
    }
  }

  lemma StripTwice(s: string)
    ensures Strip(Strip(s)) == Strip(s)
  {
    var r := Strip(s);
    assert r != "" ==> StripStart(r) == 0 && StripEnd(r) == |r|;
  }

  lemma StripNothing(s: string)
    requires s != "" && !IsSpace(s[0]) && !IsSpace(s[|s| - 1])
    ensures Strip(s) == s
  {
  }

  lemma StripWithin(s: string)
    ensures forall c | c in Strip(s) :: c in s
  {
  }

  // ----- split on white space -----

  function WordEnd(s: string): (k: nat)
    ensures k <= |s|
    ensures forall i | 0 <= i < k :: !IsSpace(s[i])
    ensures k < |s| ==> IsSpace(s[k])
  {
    if s == "" || IsSpace(s[0]) then 0 else 1 + WordEnd(s[1..])
  }

  function SplitWords(s: string): seq<string> {
    if s == "" then []
    else if IsSpace(s[0]) then SplitWords(s[1..])
    else
      var e := WordEnd(s);
      [s[..e]] + SplitWords(s[e..])
  }

  predicate IsWord(w: string) {
    w != "" && forall c | c in w :: !IsSpace(c)
  }

  lemma {:induction false} SplitFirstWord(w: string, rest: string)
    requires IsWord(w)
    requires rest == "" || IsSpace(rest[0])
    ensures SplitWords(w + rest) == [w] + SplitWords(rest)
  {
    var s := w + rest;
    forall i | 0 <= i < |w| ensures !IsSpace(s[i]) { assert w[i] in w; }
    assert rest != "" ==> s[|w|] == rest[0];
    assert WordEnd(s) == |w|;
    assert s[..|w|] == w && s[|w|..] == rest;
    assert s[0] == w[0] && w[0] in w;
  }

  /** `" ".join(words).split() == words` for words that are non-empty and contain no white space. */
  lemma {:induction false} SplitJoin(words: seq<string>)
    requires forall w | w in words :: IsWord(w)
    ensures SplitWords(Join(' ', words)) == words
  {
    if |words| == 1 {
      SplitFirstWord(words[0], "");
      assert words[0] + "" == words[0];
    } else if |words| > 1 {
      var rest := Join(' ', words[1..]);
      SplitJoin(words[1..]);
      SplitFirstWord(words[0], " " + rest);
      assert Join(' ', words) == words[0] + (" " + rest);
      assert (" " + rest)[1..] == rest;
    }
  }
}
