/** ingestion/parsers.py: Markdown and plain text become sections, and what becomes of every line. */
module Markdown {
  import opened Text
  import opened Lists
  import opened Chunker

  // ----- headings: ^#{1,6}\s+(.+?)\s*$ -----

  function HashRun(line: string): (k: nat)
    ensures k <= |line|
    ensures forall i | 0 <= i < k :: line[i] == '#'
    ensures k < |line| ==> line[k] != '#'
  {
    if line == "" || line[0] != '#' then 0 else 1 + HashRun(line[1..])
  }

  /** How a parser reads lines: which are headings, what they say, and what a heading and its lines become. */
  datatype Syntax = Syntax(isHeading: string -> bool, headingText: string -> string, section: (string, seq<string>) -> Section)

  /**
   * Markdown: one to six hashes, a white-space character, and at least one more character. (The captured
   * text may be white space itself, which strips to the empty heading.)
   */
  function MarkdownSyntax(): Syntax {
    Syntax((line: string) => var k := HashRun(line); 1 <= k <= 6 && |line| >= k + 2 && IsSpace(line[k]),
           (line: string) => Strip(line[HashRun(line)..]),
           (heading: string, body: seq<string>) => Section(heading, Strip(Join('\n', body)), None))
  }

  const HASHES: string := "######"

  lemma {:induction false} HashesRun(k: nat, rest: string)
    requires k <= |HASHES| && rest != "" && rest[0] != '#'
    ensures HashRun(HASHES[..k] + rest) == k
    decreases k
  {
    if k > 0 {
      assert (HASHES[..k] + rest)[1..] == HASHES[..k - 1] + rest;
      HashesRun(k - 1, rest);
    }
  }

  /** One to six hashes, white space and at least one more character: the heading says the rest, stripped. */
  lemma HeadingSays(k: nat, rest: string)
    requires 1 <= k <= 6 && |rest| >= 2 && IsSpace(rest[0])
    ensures MarkdownSyntax().isHeading("######"[..k] + rest)
    ensures MarkdownSyntax().headingText("######"[..k] + rest) == Strip(rest)
  {
    HashesRun(k, rest);
    assert (HASHES[..k] + rest)[k..] == rest;
  }

  /** The line is k hashes, white space and at least one more character. */
  predicate OpensWith(line: string, k: nat) {
    1 <= k <= 6 && |line| >= k + 2 && line[..k] == "######"[..k] && IsSpace(line[k])
  }

  lemma HeadingOpens(line: string)
    requires MarkdownSyntax().isHeading(line)
    ensures OpensWith(line, HashRun(line))
  {
    var n := HashRun(line);
    assert line[..n] == HASHES[..n];
  }

  lemma OpeningIsHeading(line: string, k: nat)
    requires OpensWith(line, k)
    ensures MarkdownSyntax().isHeading(line)
  {
    assert line == HASHES[..k] + line[k..];
    HeadingSays(k, line[k..]);
  }

  /** And there are no other headings. */
  lemma HeadingIff(line: string)
    ensures MarkdownSyntax().isHeading(line) <==> exists k: nat :: OpensWith(line, k)
  {
    if MarkdownSyntax().isHeading(line) {
      HeadingOpens(line);
    } else if k: nat :| OpensWith(line, k) {
      OpeningIsHeading(line, k);
    }
  }

  // ----- _parse_markdown -----

  function Emit(syntax: Syntax, heading: string, body: seq<string>): seq<Section> {
    if body == [] then [] else [syntax.section(heading, body)]
  }

  /** Sections of the lines still to come, given the heading and body collected so far. */
  function SectionsFrom(syntax: Syntax, lines: seq<string>, heading: string, body: seq<string>): seq<Section>
    decreases |lines|
  {
    if lines == [] then Emit(syntax, heading, body)
    else if syntax.isHeading(lines[0]) then Emit(syntax, heading, body) + SectionsFrom(syntax, lines[1..], syntax.headingText(lines[0]), [])
    else SectionsFrom(syntax, lines[1..], heading, body + [lines[0]])
  }

  method ParseMarkdown(text: string) returns (sections: seq<Section>)
    ensures sections == SectionsFrom(MarkdownSyntax(), SplitLines(text), "", [])
  {
    sections := CollectSections(MarkdownSyntax(), SplitLines(text));
  }

  method CollectSections(syntax: Syntax, lines: seq<string>) returns (sections: seq<Section>)
    ensures sections == SectionsFrom(syntax, lines, "", [])
  {
    sections := [];
    var heading := "";
    var body: seq<string> := [];
    var i := 0;
    while i < |lines|
      invariant 0 <= i <= |lines|
      invariant sections + SectionsFrom(syntax, lines[i..], heading, body) == SectionsFrom(syntax, lines, "", [])
    {
      var line := lines[i];
      assert lines[i..][1..] == lines[i + 1..];
      if syntax.isHeading(line) {
        sections := Close(syntax, sections, heading, body);
        heading, body := syntax.headingText(line), [];
      } else {
        body := body + [line];
      }
      i := i + 1;
    }
    sections := Close(syntax, sections, heading, body);
  }

  /** Appends the section collected so far, if it has a line. */
  method Close(syntax: Syntax, sections: seq<Section>, heading: string, body: seq<string>) returns (r: seq<Section>)
    ensures r == sections + Emit(syntax, heading, body)
  {
    r := sections;
    if body != [] {
      r := r + [syntax.section(heading, body)];
    }
  }

  // ----- parse_document -----

  function TotalLength(sections: seq<Section>): nat {
    if sections == [] then 0 else |sections[0].text| + TotalLength(sections[1..])
  }

  function WithText(sections: seq<Section>): seq<Section> {
    Filter(HasText(), sections)
  }

  function HasText(): Section -> bool {
    (s: Section) => Strip(s.text) != ""
  }

  function RawSections(markdown: bool, text: string): seq<Section> {
    if markdown then SectionsFrom(MarkdownSyntax(), SplitLines(text), "", []) else [Section("", text, None)]
  }

  function ParsedDocument(markdown: bool, text: string, maxCharacters: int): Result<seq<Section>> {
    var kept := WithText(RawSections(markdown, text));
    if kept == [] then Error("no_text") else if TotalLength(kept) > maxCharacters then Error("too_long") else Ok(kept)
  }

  /** parse_document, for Markdown and plain text. */
  method ParseDocument(markdown: bool, text: string, maxCharacters: int) returns (r: Result<seq<Section>>)
    ensures r == ParsedDocument(markdown, text, maxCharacters)
  {
    var sections;
    if markdown {
      sections := ParseMarkdown(text);
    } else {
      sections := [Section("", text, None)];
    }
    var kept := WithText(sections);
    if kept == [] {
      return Error("no_text");
    }
    if TotalLength(kept) > maxCharacters {
      return Error("too_long");
    }
    return Ok(kept);
  }

  lemma WithTextMember(sections: seq<Section>, s: Section)
    ensures s in WithText(sections) <==> s in sections && !IsBlank(s.text)
  {
    FilterMember(HasText(), sections, s);
  }

  // ----- what parsing keeps -----

  /** The ink of the sections, in order. */
  function SectionInk(sections: seq<Section>): string {
    FlatMap(InkOfSection(), sections)
  }

  function InkOfSection(): Section -> string {
    (s: Section) => Ink(s.text)
  }

  lemma SectionInkConcat(a: seq<Section>, b: seq<Section>)
    ensures SectionInk(a + b) == SectionInk(a) + SectionInk(b)
  {
    FlatMapConcat(InkOfSection(), a, b);
  }

  lemma SectionInkOne(s: Section)
    ensures SectionInk([s]) == Ink(s.text)
  {
    assert [s][1..] == [];
    assert SectionInk([s][1..]) == "";
  }

  /** The lines that are not headings. */
  function BodyLines(syntax: Syntax, lines: seq<string>): seq<string> {
    Filter(IsBody(syntax), lines)
  }

  function IsBody(syntax: Syntax): string -> bool {
    (line: string) => !syntax.isHeading(line)
  }

  /** A section has the ink of its lines. */
  ghost predicate KeepsInk(syntax: Syntax) {
    forall heading, body :: Ink(syntax.section(heading, body).text) == InkLines(body)
  }

  lemma EmitInk(syntax: Syntax, heading: string, body: seq<string>)
    requires KeepsInk(syntax)
    ensures SectionInk(Emit(syntax, heading, body)) == InkLines(body)
  {
    if body != [] {
      SectionInkOne(syntax.section(heading, body));
    }
  }

  lemma {:induction false} SectionsKeepInk(syntax: Syntax, lines: seq<string>, heading: string, body: seq<string>)
    requires KeepsInk(syntax)
    ensures SectionInk(SectionsFrom(syntax, lines, heading, body)) == InkLines(body) + InkLines(BodyLines(syntax, lines))
    decreases |lines|
  {
    if lines == [] {
      EmitInk(syntax, heading, body);
    } else if syntax.isHeading(lines[0]) {
      var rest := SectionsFrom(syntax, lines[1..], syntax.headingText(lines[0]), []);
      SectionsKeepInk(syntax, lines[1..], syntax.headingText(lines[0]), []);
      EmitInk(syntax, heading, body);
      SectionInkConcat(Emit(syntax, heading, body), rest);
      assert BodyLines(syntax, lines) == BodyLines(syntax, lines[1..]) && InkLines([]) == "";
    } else {
      SectionsKeepInk(syntax, lines[1..], heading, body + [lines[0]]);
      BodyLineInk(body, lines[0], BodyLines(syntax, lines[1..]));
      assert BodyLines(syntax, lines) == [lines[0]] + BodyLines(syntax, lines[1..]);
    }
  }

  lemma BodyLineInk(body: seq<string>, line: string, rest: seq<string>)
    ensures InkLines(body + [line]) + InkLines(rest) == InkLines(body) + InkLines([line] + rest)
  {
    InkLinesConcat(body, [line]);
    InkLinesConcat([line], rest);
  }

  lemma WithTextKeepsInk(sections: seq<Section>)
    ensures SectionInk(WithText(sections)) == SectionInk(sections)
    ensures WithText(sections) == [] <==> SectionInk(sections) == ""
  {
    forall s ensures HasText()(s) <==> InkOfSection()(s) != "" { InkBlank(s.text); }
    FilterKeepsFlat(HasText(), InkOfSection(), sections);
  }

  /** The text of the file that is to be kept: all of it, or for Markdown the lines that are not headings. */
  function BodyInk(markdown: bool, text: string): string {
    if markdown then InkLines(BodyLines(MarkdownSyntax(), SplitLines(text))) else Ink(text)
  }

  lemma RawInk(markdown: bool, text: string)
    ensures SectionInk(RawSections(markdown, text)) == BodyInk(markdown, text)
  {
    if markdown {
      forall heading, body ensures Ink(MarkdownSyntax().section(heading, body).text) == InkLines(body) {
        InkOfBlock(heading, body);
      }
      SectionsKeepInk(MarkdownSyntax(), SplitLines(text), "", []);
      assert InkLines([]) == "";
    } else {
      SectionInkOne(Section("", text, None));
    }
  }

  /**
   * Parsing loses, doubles and moves nothing but headings and white space: the sections hold exactly the
   * ink of the body, in order. A file is refused as empty exactly when its body is blank.
   */
  lemma ParsingKeepsInk(markdown: bool, text: string, maxCharacters: int)
    ensures var r := ParsedDocument(markdown, text, maxCharacters);
            (r == Error("no_text") <==> BodyInk(markdown, text) == "")
            && (r.Ok? ==> SectionInk(r.value) == BodyInk(markdown, text) && forall s | s in r.value :: !IsBlank(s.text))
  {
    RawInk(markdown, text);
    WithTextKeepsInk(RawSections(markdown, text));
    forall s | s in WithText(RawSections(markdown, text)) ensures !IsBlank(s.text) {
      WithTextMember(RawSections(markdown, text), s);
    }
  }

  function TextOf(): Section -> string {
    (s: Section) => s.text
  }

  lemma {:induction false} TotalIsLength(sections: seq<Section>)
    ensures TotalLength(sections) == |FlatMap(TextOf(), sections)|
  {
    if sections != [] {
      TotalIsLength(sections[1..]);
    }
  }

  /** A file with text is refused exactly when the texts of its sections that are not blank are too long together. */
  lemma TooLongIff(markdown: bool, text: string, maxCharacters: int)
    requires BodyInk(markdown, text) != ""
    ensures var r, kept := ParsedDocument(markdown, text, maxCharacters), WithText(RawSections(markdown, text));
            (r == Error("too_long") <==> |FlatMap(TextOf(), kept)| > maxCharacters) && (r.Error? || r == Ok(kept))
  {
    ParsingKeepsInk(markdown, text, maxCharacters);
    TotalIsLength(WithText(RawSections(markdown, text)));
  }

  lemma {:induction false} JoinEnds(lines: seq<string>)
    requires lines != [] && forall i | 0 <= i < |lines| :: lines[i] != ""
    ensures var text := Join('\n', lines);
            text != "" && text[0] == lines[0][0] && text[|text| - 1] == lines[|lines| - 1][|lines[|lines| - 1]| - 1]
  {
    if |lines| > 1 {
      JoinEnds(lines[1..]);
      EndsOfSum(lines[0] + ['\n'], Join('\n', lines[1..]));
    }
  }

  lemma EndsOfSum(a: string, b: string)
    requires a != "" && b != ""
    ensures (a + b)[0] == a[0] && (a + b)[|a + b| - 1] == b[|b| - 1]
  {
  }

  /** The section of a block has its heading, no page and a stripped text, whose lines are those of the block. */
  lemma SectionHasItsLines(heading: string, block: seq<string>)
    ensures var s := MarkdownSyntax().section(heading, block);
            s.heading == heading && s.page == None && Strip(s.text) == s.text
    ensures block != [] && (forall l | l in block :: IsTrimmed(l)) ==>
              SplitLines(MarkdownSyntax().section(heading, block).text) == block
  {
    var text := Join('\n', block);
    StripTwice(text);
    if block != [] && forall l | l in block :: IsTrimmed(l) {
      forall i | 0 <= i < |block| ensures IsTrimmed(block[i]) { assert block[i] in block; }
      JoinEnds(block);
      StripNothing(text);
      SplitLinesJoin(block);
    }
  }

  // ----- where each line goes -----

  /** The first line of the block that line i belongs to: just after the nearest heading before it. */
  function BlockStart(syntax: Syntax, lines: seq<string>, i: nat): (lo: nat)
    requires i <= |lines|
    ensures lo <= i
    ensures forall j | lo <= j < i :: !syntax.isHeading(lines[j])
    ensures lo > 0 ==> syntax.isHeading(lines[lo - 1])
  {
    if i == 0 || syntax.isHeading(lines[i - 1]) then i else BlockStart(syntax, lines, i - 1)
  }

  /** One past the last line of the block. */
  function BlockEnd(syntax: Syntax, lines: seq<string>, i: nat): (hi: nat)
    requires i <= |lines|
    ensures i <= hi <= |lines|
    ensures forall j | i <= j < hi :: !syntax.isHeading(lines[j])
    ensures hi < |lines| ==> syntax.isHeading(lines[hi])
    decreases |lines| - i
  {
    if i == |lines| || syntax.isHeading(lines[i]) then i else BlockEnd(syntax, lines, i + 1)
  }

  /** The text of the nearest heading before line i, or the one in force before the first line. */
  function Above(syntax: Syntax, lines: seq<string>, heading: string, i: nat): string
    requires i <= |lines|
  {
    var lo := BlockStart(syntax, lines, i);
    if lo == 0 then heading else syntax.headingText(lines[lo - 1])
  }

  /** The lines between the headings around line i. */
  function Block(syntax: Syntax, lines: seq<string>, i: nat): seq<string>
    requires i <= |lines|
  {
    lines[BlockStart(syntax, lines, i)..BlockEnd(syntax, lines, i)]
  }

  /** A run of non-heading lines just extends the body. */
  lemma {:induction false} BodyGrows(syntax: Syntax, lines: seq<string>, heading: string, n: nat)
    requires n <= |lines| && forall j | 0 <= j < n :: !syntax.isHeading(lines[j])
    ensures SectionsFrom(syntax, lines, heading, []) == SectionsFrom(syntax, lines[n..], heading, lines[..n])
    decreases n
  {
    if n == 0 {
      assert lines[0..] == lines && lines[..0] == [];
    } else {
      BodyGrows(syntax, lines, heading, n - 1);
      var rest := lines[n - 1..];
      assert rest[0] == lines[n - 1] && rest[1..] == lines[n..];
      assert lines[..n - 1] + [rest[0]] == lines[..n];
    }
  }

  /** The sections are the leading block, if any, and those that follow the first heading. */
  lemma SplitAtHeading(syntax: Syntax, lines: seq<string>, heading: string)
    ensures var n := BlockEnd(syntax, lines, 0);
            SectionsFrom(syntax, lines, heading, [])
            == Emit(syntax, heading, lines[..n])
               + if n == |lines| then [] else SectionsFrom(syntax, lines[n + 1..], syntax.headingText(lines[n]), [])
  {
    var n := BlockEnd(syntax, lines, 0);
    BodyGrows(syntax, lines, heading, n);
    var rest := lines[n..];
    if n < |lines| {
      assert rest[0] == lines[n] && rest[1..] == lines[n + 1..];
    }
  }

  /** Every non-empty block of lines under a heading is one section of the document. */
  lemma {:induction false} BlockIsSection(syntax: Syntax, lines: seq<string>, heading: string, i: nat)
    requires i < |lines| && !syntax.isHeading(lines[i])
    ensures syntax.section(Above(syntax, lines, heading, i), Block(syntax, lines, i)) in SectionsFrom(syntax, lines, heading, [])
    decreases |lines|
  {
    var n := BlockEnd(syntax, lines, 0);
    SplitAtHeading(syntax, lines, heading);
    if i < n {
      FirstBlock(syntax, lines, heading, i);
    } else {
      BlockIsSection(syntax, lines[n + 1..], syntax.headingText(lines[n]), i - n - 1);
      LaterBlock(syntax, lines, n + 1, i);
      LaterHeading(syntax, lines, heading, n + 1, i);
    }
  }

  lemma FirstBlock(syntax: Syntax, lines: seq<string>, heading: string, i: nat)
    requires i < BlockEnd(syntax, lines, 0)
    ensures Above(syntax, lines, heading, i) == heading && Block(syntax, lines, i) == lines[..BlockEnd(syntax, lines, 0)]
  {
  }

  lemma LaterBlock(syntax: Syntax, lines: seq<string>, n: nat, i: nat)
    requires 0 < n <= i < |lines| && syntax.isHeading(lines[n - 1]) && !syntax.isHeading(lines[i])
    ensures Block(syntax, lines, i) == Block(syntax, lines[n..], i - n)
  {
  }

  lemma LaterHeading(syntax: Syntax, lines: seq<string>, heading: string, n: nat, i: nat)
    requires 0 < n <= i < |lines| && syntax.isHeading(lines[n - 1])
    ensures Above(syntax, lines, heading, i) == Above(syntax, lines[n..], syntax.headingText(lines[n - 1]), i - n)
  {
  }

  // ----- from a line of the file to a chunk -----

  /** The ink of one line is a stretch of the ink of its block. */
  lemma InkOfLine(block: seq<string>, k: nat, m: nat)
    requires k < |block| && m < |Ink(block[k])|
    ensures var at := |InkLines(block[..k])| + m;
            at < |InkLines(block)| && InkLines(block)[at] == Ink(block[k])[m]
  {
    assert block == block[..k] + block[k..];
    InkLinesConcat(block[..k], block[k..]);
  }

  lemma InkOfBlock(heading: string, block: seq<string>)
    ensures Ink(MarkdownSyntax().section(heading, block).text) == InkLines(block)
  {
    InkStrip(Join('\n', block));
    InkJoin('\n', block);
  }

  /** Ink characters lo..hi of the block are exactly the ink of chunk c, and `at` is among them. */
  ghost predicate HoldsBlockInk(c: Chunk, block: seq<string>, lo: nat, at: nat, hi: nat) {
    lo <= at < hi <= |InkLines(block)| && Ink(c.piece.content) == InkLines(block)[lo..hi]
  }

  /**
   * Nothing in a Markdown file is lost: the m-th ink character of any non-heading line i appears, among
   * its neighbours, in a chunk whose heading is the nearest heading before that line, cut to 512. `at`
   * is that character's place in the ink of the block of lines between two headings.
   */
  lemma MarkdownIsCovered(text: string, cfg: Config, i: nat, m: nat) returns (c: Chunk, lo: nat, at: nat, hi: nat)
    requires cfg.Sane()
    requires i < |SplitLines(text)| && !MarkdownSyntax().isHeading(SplitLines(text)[i]) && m < |Ink(SplitLines(text)[i])|
    ensures var chunked := ChunkedDocument(WithText(RawSections(true, text)), cfg);
            chunked.Ok? && c in chunked.value
    ensures c.piece.heading == Cut(Above(MarkdownSyntax(), SplitLines(text), "", i), HEADING_LIMIT)
    ensures at == |InkLines(SplitLines(text)[BlockStart(MarkdownSyntax(), SplitLines(text), i)..i])| + m
    ensures HoldsBlockInk(c, Block(MarkdownSyntax(), SplitLines(text), i), lo, at, hi)
    ensures InkLines(Block(MarkdownSyntax(), SplitLines(text), i))[at] == Ink(SplitLines(text)[i])[m]
  {
    var k;
    k, at := KeptSection(MarkdownSyntax(), text, SplitLines(text), i, m);
    c, lo, hi := TextIsCovered(WithText(RawSections(true, text)), cfg, k, at);
  }

  lemma LineInBlock(syntax: Syntax, lines: seq<string>, i: nat, m: nat) returns (at: nat)
    requires i < |lines| && !syntax.isHeading(lines[i]) && m < |Ink(lines[i])|
    ensures at == |InkLines(lines[BlockStart(syntax, lines, i)..i])| + m
    ensures at < |InkLines(Block(syntax, lines, i))| && InkLines(Block(syntax, lines, i))[at] == Ink(lines[i])[m]
  {
    var a := BlockStart(syntax, lines, i);
    var b := BlockEnd(syntax, lines, i);
    assert i < b;
    var block := lines[a..b];
    assert block == Block(syntax, lines, i);
    assert block[..i - a] == lines[a..i];
    assert block[i - a] == lines[i];
    InkOfLine(block, i - a, m);
    at := |InkLines(lines[a..i])| + m;
  }

  /** The section of a line with ink survives the filter. */
  lemma KeptSection(syntax: Syntax, text: string, lines: seq<string>, i: nat, m: nat) returns (k: nat, at: nat)
    requires syntax == MarkdownSyntax() && lines == SplitLines(text) && i < |lines| && !syntax.isHeading(lines[i]) && m < |Ink(lines[i])|
    ensures var sections := WithText(RawSections(true, text));
            k < |sections| && sections[k].heading == Above(syntax, lines, "", i)
            && Ink(sections[k].text) == InkLines(Block(syntax, lines, i))
    ensures at == |InkLines(lines[BlockStart(syntax, lines, i)..i])| + m
    ensures at < |InkLines(Block(syntax, lines, i))| && InkLines(Block(syntax, lines, i))[at] == Ink(lines[i])[m]
  {
    at := LineInBlock(syntax, lines, i, m);
    var section := syntax.section(Above(syntax, lines, "", i), Block(syntax, lines, i));
    InkOfBlock(Above(syntax, lines, "", i), Block(syntax, lines, i));
    InkBlank(section.text);
    BlockIsSection(syntax, lines, "", i);
    WithTextMember(RawSections(true, text), section);
    k :| 0 <= k < |WithText(RawSections(true, text))| && WithText(RawSections(true, text))[k] == section;
  }
}
