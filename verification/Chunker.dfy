/** ingestion/chunker.py, chunk_document: sections become chunks, with or without parent windows. */
module Chunker {
  import opened Text
  import opened Lists
  import opened Windows

  datatype Section = Section(heading: string, text: string, page: Option<int>)

  /** A chunk without its number. */
  datatype Piece = Piece(heading: string, page: Option<int>, content: string, parentContent: string, isTitleBlock: bool)

  datatype Chunk = Chunk(ordinal: nat, piece: Piece)

  /** `childMax` present selects the parent-child layout. */
  datatype Config = Config(maxChars: int, overlap: int, childMax: Option<int>, childOverlap: Option<int>)
  {
    function ChildOverlap(): int
      requires childMax.Some?
    {
      match childOverlap
      case Some(o) => o
      case None => Min(overlap, Max(0, childMax.value / 4))
    }

    predicate SizesPositive() {
      maxChars > 0 && (childMax.Some? ==> childMax.value > 0)
    }

    /** Sizes are positive and no overlap is negative: what backend/config.py admits. */
    predicate Sane() {
      SizesPositive() && overlap >= 0 && (childMax.Some? ==> ChildOverlap() >= 0)
    }

    /** The windows whose contents become chunk contents. */
    function ChunkSize(): int {
      if childMax.Some? then childMax.value else maxChars
    }

    function ChunkOverlap(): int {
      if childMax.Some? then ChildOverlap() else overlap
    }
  }

  const HEADING_LIMIT: nat := 512

  /** The stripped lines that are not blank. */
  function KeepLines(lines: seq<string>): seq<string> {
    if lines == [] then []
    else (if Strip(lines[0]) == "" then [] else [Strip(lines[0])]) + KeepLines(lines[1..])
  }

  function Normalize(text: string): string {
    Join('\n', KeepLines(SplitLines(text)))
  }

  function IsTitleOnly(heading: string, content: string): bool {
    var h, c := Strip(heading), Strip(content);
    c == "" || c == h || |c| <= |h| + 8
  }

  // ----- the parent of a child window -----

  function FirstContaining(parents: seq<Window>, position: nat): Option<Window> {
    if parents == [] then None
    else if parents[0].start <= position < parents[0].end then Some(parents[0])
    else FirstContaining(parents[1..], position)
  }

  function Overlap(a: Window, b: Window): int {
    Min(a.end, b.end) - Max(a.start, b.start)
  }

  /** `max(parents, key=...)`: the first of those with the largest overlap. */
  function BestOverlap(parents: seq<Window>, child: Window): (best: Window)
    requires parents != []
    ensures best in parents
    ensures forall p | p in parents :: Overlap(p, child) <= Overlap(best, child)
  {
    if |parents| == 1 then parents[0]
    else
      var rest := BestOverlap(parents[1..], child);
      assert forall p | p in parents :: p == parents[0] || p in parents[1..];
      if Overlap(parents[0], child) >= Overlap(rest, child) then parents[0] else rest
  }

  function ParentText(parents: seq<Window>, child: Window): string {
    var containing := FirstContaining(parents, child.start);
    var found := if containing.Some? then containing.value.content else "";
    var best := if found == "" && parents != [] then BestOverlap(parents, child).content else found;
    if best == "" then child.content else best
  }

  /** The parent lookup of one child, as the source searches it. */
  method FindParent(parents: seq<Window>, child: Window) returns (text: string)
    ensures text == ParentText(parents, child)
  {
    text := "";
    var i := 0;
    while i < |parents|
      invariant 0 <= i <= |parents|
      invariant text == ""
      invariant FirstContaining(parents[i..], child.start) == FirstContaining(parents, child.start)
    {
      if parents[i].start <= child.start < parents[i].end {
        text := parents[i].content;
        break;
      }
      i := i + 1;
    }
    if text == "" && parents != [] {
      text := BestOverlap(parents, child).content;
    }
    if text == "" {
      text := child.content;
    }
  }

  predicate StartsIn(child: Window, parent: Window) {
    parent.start <= child.start && child.start < parent.end
  }

  /** The first parent window in which the child starts gives the parent text. */
  lemma {:induction false} ParentIsFirstContaining(parents: seq<Window>, child: Window, k: nat)
    requires k < |parents| && StartsIn(child, parents[k]) && forall j | 0 <= j < k :: !StartsIn(child, parents[j])
    requires parents[k].content != ""
    ensures ParentText(parents, child) == parents[k].content
  {
    FirstAt(parents, child, k);
  }

  lemma {:induction false} FirstAt(parents: seq<Window>, child: Window, k: nat)
    requires k < |parents| && StartsIn(child, parents[k]) && forall j | 0 <= j < k :: !StartsIn(child, parents[j])
    ensures FirstContaining(parents, child.start) == Some(parents[k])
  {
    if k > 0 {
      assert !StartsIn(child, parents[0]);
      FirstAt(parents[1..], child, k - 1);
    }
  }

  /** How many characters of the text are in both windows; not positive when they are apart. */
  function Shared(a: Window, b: Window): int {
    (if a.end <= b.end then a.end else b.end) - (if a.start <= b.start then b.start else a.start)
  }

  /** Failing that, the first of those that share most with the child does. */
  lemma ParentIsBestOverlap(before: seq<Window>, best: Window, after: seq<Window>, child: Window)
    requires best.content != "" && forall p | p in before + [best] + after :: !StartsIn(child, p)
    requires forall p | p in before :: Shared(p, child) < Shared(best, child)
    requires forall p | p in after :: Shared(p, child) <= Shared(best, child)
    ensures ParentText(before + [best] + after, child) == best.content
  {
    NoneContains(before + [best] + after, child);
    BestAt(before, best, after, child);
  }

  lemma {:induction false} NoneContains(parents: seq<Window>, child: Window)
    requires forall p | p in parents :: !StartsIn(child, p)
    ensures FirstContaining(parents, child.start) == None
  {
    if parents != [] {
      assert !StartsIn(child, parents[0]);
      NoneContains(parents[1..], child);
    }
  }

  lemma BestOfMore(first: Window, rest: seq<Window>, child: Window)
    requires rest != []
    ensures BestOverlap([first] + rest, child)
            == if Shared(first, child) >= Shared(BestOverlap(rest, child), child) then first else BestOverlap(rest, child)
  {
    assert ([first] + rest)[1..] == rest;
  }

  lemma {:induction false} BestAt(before: seq<Window>, best: Window, after: seq<Window>, child: Window)
    requires forall p | p in before :: Shared(p, child) < Shared(best, child)
    requires forall p | p in after :: Shared(p, child) <= Shared(best, child)
    ensures BestOverlap(before + [best] + after, child) == best
  {
    if before != [] {
      BestAt(before[1..], best, after, child);
      assert before + [best] + after == [before[0]] + (before[1..] + [best] + after);
      BestOfMore(before[0], before[1..] + [best] + after, child);
    } else {
      assert before + [best] + after == [best] + after;
      if after != [] {
        BestOfMore(best, after, child);
      }
    }
  }

  /** When no child overlap is given, it is the overlap of the parents or a quarter of the child size, whichever is less. */
  lemma DefaultChildOverlap(cfg: Config)
    requires cfg.childMax.Some? && cfg.childOverlap.None? && cfg.childMax.value > 0
    ensures var o, size := cfg.ChildOverlap(), cfg.childMax.value;
            o <= cfg.overlap && 4 * o <= size && (o == cfg.overlap || 4 * o + 4 > size)
  {
  }

  // ----- chunks -----

  function PieceOf(section: Section, parents: seq<Window>, w: Window, linked: bool): Piece {
    Piece(Cut(section.heading, HEADING_LIMIT), section.page, w.content,
          if linked then ParentText(parents, w) else "", IsTitleOnly(section.heading, w.content))
  }

  function PiecesOf(section: Section, parents: seq<Window>, ws: seq<Window>, linked: bool): (ps: seq<Piece>)
    ensures |ps| == |ws|
    ensures forall i | 0 <= i < |ws| :: ps[i] == PieceOf(section, parents, ws[i], linked)
  {
    seq(|ws|, i requires 0 <= i < |ws| => PieceOf(section, parents, ws[i], linked))
  }

  /** The pieces of one section; sizes that are not positive never get this far. */
  function SectionPieces(section: Section, cfg: Config): seq<Piece> {
    var text := Normalize(section.text);
    if !cfg.SizesPositive() then [] else PiecesOf(section, WindowsOf(text, cfg.maxChars, cfg.overlap),
             WindowsOf(text, cfg.ChunkSize(), cfg.ChunkOverlap()), cfg.childMax.Some?)
  }

  function PiecesBySection(sections: seq<Section>, cfg: Config): seq<seq<Piece>>
    requires cfg.SizesPositive()
  {
    MapSeq((section: Section) => SectionPieces(section, cfg), sections)
  }

  function Numbered(ps: seq<Piece>): (cs: seq<Chunk>)
    ensures |cs| == |ps|
    ensures forall i | 0 <= i < |ps| :: cs[i] == Chunk(i, ps[i])
  {
    seq(|ps|, i requires 0 <= i < |ps| => Chunk(i, ps[i]))
  }

  predicate HasText(sections: seq<Section>) {
    exists i :: 0 <= i < |sections| && !IsBlank(sections[i].text)
  }

  /**
   * chunk_document: the pieces of each section in document order, numbered from 0. Sizes are only
   * looked at once some section has text.
   */
  function ChunkedDocument(sections: seq<Section>, cfg: Config): Result<seq<Chunk>> {
    if !HasText(sections) then Error("empty_document")
    else if !cfg.SizesPositive() then Error("window_size")
    else Ok(Numbered(Flatten(PiecesBySection(sections, cfg))))
  }

  // ----- facts about normalisation -----

  lemma {:induction false} InkKeepLines(lines: seq<string>)
    ensures InkLines(KeepLines(lines)) == InkLines(lines)
  {
    if lines != [] {
      InkKeepLines(lines[1..]);
      InkStrip(lines[0]);
      InkBlank(lines[0]);
      var head := if Strip(lines[0]) == "" then [] else [Strip(lines[0])];
      InkLinesConcat(head, KeepLines(lines[1..]));
      assert head != [] ==> InkLines(head) == Ink(head[0]) + InkLines([]);
    }
  }

  lemma {:induction false} KeptLinesHaveInk(lines: seq<string>)
    ensures forall l | l in KeepLines(lines) :: l != "" && !IsSpace(l[0])
  {
    if lines != [] {
      KeptLinesHaveInk(lines[1..]);
    }
  }

  /** Normalising a section only moves white space; a normalised text is empty or starts with ink. */
  lemma InkNormalize(text: string)
    ensures Ink(Normalize(text)) == Ink(text)
    ensures Normalize(text) == "" <==> IsBlank(text)
    ensures Normalize(text) != "" ==> !IsSpace(Normalize(text)[0])
  {
    var kept := KeepLines(SplitLines(text));
    InkSplitLines(text);
    InkKeepLines(SplitLines(text));
    InkJoin('\n', kept);
    InkBlank(text);
    KeptLinesHaveInk(SplitLines(text));
    if kept != [] {
      assert kept[0] in kept;
      assert Join('\n', kept)[0] == kept[0][0];
      assert Ink(kept[0]) != "";
    }
  }

  /** A line as normalising leaves it: stripped, and something is left. */
  predicate IsTrimmed(line: string) {
    IsLine(line) && Strip(line) == line
  }

  lemma TrimmedLine(line: string)
    requires Strip(line) != "" && forall c | c in line :: !IsLineBreak(c)
    ensures IsTrimmed(Strip(line))
  {
    StripTwice(line);
    StripWithin(line);
  }

  lemma {:induction false} KeptLinesAreTrimmed(lines: seq<string>)
    requires forall l, c | l in lines && c in l :: !IsLineBreak(c)
    ensures forall l | l in KeepLines(lines) :: IsTrimmed(l)
  {
    if lines != [] {
      KeptLinesAreTrimmed(lines[1..]);
      if Strip(lines[0]) != "" {
        TrimmedLine(lines[0]);
      }
    }
  }

  lemma {:induction false} TrimmedLinesAreKept(lines: seq<string>)
    requires forall l | l in lines :: IsTrimmed(l)
    ensures KeepLines(lines) == lines
  {
    if lines != [] {
      assert IsTrimmed(lines[0]);
      TrimmedLinesAreKept(lines[1..]);
    }
  }

  /** The lines of a normalised text are the stripped lines of the text that are not blank, and normalising again keeps them. */
  lemma NormalizedLines(text: string)
    ensures SplitLines(Normalize(text)) == KeepLines(SplitLines(text))
    ensures forall l | l in SplitLines(Normalize(text)) :: IsTrimmed(l)
    ensures Normalize(Normalize(text)) == Normalize(text)
  {
    LinesHaveNoBreaks(text);
    KeptLinesAreTrimmed(SplitLines(text));
    SplitLinesJoin(KeepLines(SplitLines(text)));
    TrimmedLinesAreKept(KeepLines(SplitLines(text)));
  }

  /** A section yields a chunk exactly when it has text; its first character is always kept. */
  lemma PiecesIffText(section: Section, cfg: Config)
    requires cfg.SizesPositive()
    ensures SectionPieces(section, cfg) == [] <==> IsBlank(section.text)
  {
    InkNormalize(section.text);
    if Normalize(section.text) != "" {
      FirstWindowKept(Normalize(section.text), cfg.ChunkSize(), cfg.ChunkOverlap());
    }
  }

  lemma FirstWindowKept(text: string, size: int, overlap: int)
    requires size > 0 && text != "" && !IsSpace(text[0])
    ensures WindowsOf(text, size, overlap) != []
  {
  }

  // ----- chunk_document -----

  /** One section: windows, then one piece per window, each child linked to a parent. */
  method ChunkSection(section: Section, cfg: Config) returns (r: Result<seq<Piece>>)
    ensures r == if IsBlank(section.text) then Ok([])
                 else if !cfg.SizesPositive() then Error("window_size")
                 else Ok(SectionPieces(section, cfg))
  {
    var text := Normalize(section.text);
    InkNormalize(section.text);
    if text == "" {
      return Ok([]);
    }
    var parentsResult := SplitWindows(text, cfg.maxChars, cfg.overlap);
    if parentsResult.Error? {
      return Error("window_size");
    }
    if cfg.childMax.None? {
      var pieces := LinkWindows(section, parentsResult.value, parentsResult.value, false);
      return Ok(pieces);
    }
    var childResult := SplitWindows(text, cfg.childMax.value, cfg.ChildOverlap());
    if childResult.Error? {
      return Error("window_size");
    }
    var pieces := LinkWindows(section, parentsResult.value, childResult.value, true);
    return Ok(pieces);
  }

  method LinkWindows(section: Section, parents: seq<Window>, windows: seq<Window>, linked: bool)
      returns (pieces: seq<Piece>)
    ensures pieces == PiecesOf(section, parents, windows, linked)
  {
    pieces := [];
    var i := 0;
    while i < |windows|
      invariant 0 <= i <= |windows| && |pieces| == i
      invariant forall j | 0 <= j < i :: pieces[j] == PieceOf(section, parents, windows[j], linked)
    {
      var piece := LinkWindow(section, parents, windows[i], linked);
      pieces := pieces + [piece];
      i := i + 1;
    }
  }

  method LinkWindow(section: Section, parents: seq<Window>, w: Window, linked: bool) returns (piece: Piece)
    ensures piece == PieceOf(section, parents, w, linked)
  {
    var parentText := "";
    if linked {
      parentText := FindParent(parents, w);
    }
    return Piece(Cut(section.heading, HEADING_LIMIT), section.page, w.content, parentText,
                 IsTitleOnly(section.heading, w.content));
  }

  /** The pieces of every section; none at all when the sizes are rejected. */
  ghost function Expected(sections: seq<Section>, cfg: Config): (pss: seq<seq<Piece>>)
    ensures |pss| == |sections|
  {
    if cfg.SizesPositive() then PiecesBySection(sections, cfg) else seq(|sections|, _ => [])
  }

  lemma ExpectedSection(sections: seq<Section>, cfg: Config, k: nat)
    requires k < |sections|
    ensures IsBlank(sections[k].text) ==> Expected(sections, cfg)[k] == []
    ensures Expected(sections, cfg)[k] == [] && cfg.SizesPositive() ==> IsBlank(sections[k].text)
    ensures cfg.SizesPositive() ==> Expected(sections, cfg)[k] == SectionPieces(sections[k], cfg)
  {
    if cfg.SizesPositive() {
      PiecesIffText(sections[k], cfg);
      }
  }

  lemma ExpectedDocument(sections: seq<Section>, cfg: Config, expected: seq<seq<Piece>>)
    requires expected == Expected(sections, cfg)
    requires cfg.SizesPositive() || !HasText(sections)
    ensures Flatten(expected) == [] <==> !HasText(sections)
    ensures HasText(sections) ==> ChunkedDocument(sections, cfg) == Ok(Numbered(Flatten(expected)))
  {
    forall k | 0 <= k < |sections| ensures expected[k] == [] <==> IsBlank(sections[k].text) {
      ExpectedSection(sections, cfg, k);
    }
    FlattenEmpty(expected);
  }

  /** `chunks.append(DocumentChunk(len(chunks), ...))` for each piece. */
  method AppendNumbered(chunks: seq<Chunk>, pieces: seq<Piece>, ghost before: seq<Piece>) returns (all: seq<Chunk>)
    requires chunks == Numbered(before)
    ensures all == Numbered(before + pieces)
  {
    all := chunks;
    var i := 0;
    while i < |pieces|
      invariant 0 <= i <= |pieces| && |all| == |chunks| + i
      invariant forall j | 0 <= j < |all| :: all[j] == Chunk(j, (before + pieces)[j])
    {
      all := all + [Chunk(|all|, pieces[i])];
      i := i + 1;
    }
  }

  /** The loop over sections: fails at the first section with text when the sizes are rejected. */
  method CollectChunks(sections: seq<Section>, cfg: Config, ghost expected: seq<seq<Piece>>)
      returns (r: Result<seq<Chunk>>)
    requires expected == Expected(sections, cfg)
    ensures r == if !cfg.SizesPositive() && HasText(sections) then Error("window_size")
                 else Ok(Numbered(Flatten(expected)))
  {
    var chunks: seq<Chunk> := [];
    assert expected[..0] == [];
    var i := 0;
    while i < |sections|
      invariant 0 <= i <= |sections|
      invariant cfg.SizesPositive() || forall k | 0 <= k < i :: IsBlank(sections[k].text)
      invariant chunks == Numbered(Flatten(expected[..i]))
    {
      var more := ChunkExpected(sections, cfg, i, expected);
      if more.Error? {
        return Error(more.code);
      }
      FlattenTake(expected, i);
      chunks := AppendNumbered(chunks, more.value, Flatten(expected[..i]));
      i := i + 1;
    }
    assert expected[..i] == expected;
    return Ok(chunks);
  }

  /** One section, related to what is expected of it. */
  method ChunkExpected(sections: seq<Section>, cfg: Config, i: nat, ghost expected: seq<seq<Piece>>)
      returns (r: Result<seq<Piece>>)
    requires i < |sections| && expected == Expected(sections, cfg)
    ensures r == if !IsBlank(sections[i].text) && !cfg.SizesPositive() then Error("window_size") else Ok(expected[i])
  {
    ExpectedSection(sections, cfg, i);
    r := ChunkSection(sections[i], cfg);
  }

  method ChunkDocument(sections: seq<Section>, cfg: Config) returns (r: Result<seq<Chunk>>)
    ensures r == ChunkedDocument(sections, cfg)
  {
    ghost var expected := Expected(sections, cfg);
    r := CollectChunks(sections, cfg, expected);
    if cfg.SizesPositive() || !HasText(sections) {
      ExpectedDocument(sections, cfg, expected);
    }
    if r == Ok([]) {
      return Error("empty_document");
    }
  }

  /**
   * Ordinals are exactly 0..n-1, and the pieces of a document are those of its first sections followed
   * by those of the rest.
   */
  lemma DocumentOrder(a: seq<Section>, b: seq<Section>, cfg: Config)
    requires cfg.SizesPositive() && HasText(a + b)
    ensures var first, second := Flatten(PiecesBySection(a, cfg)), Flatten(PiecesBySection(b, cfg));
            ChunkedDocument(a + b, cfg) == Ok(Numbered(first + second))
  {
    MapConcat((section: Section) => SectionPieces(section, cfg), a, b);
    FlattenConcat(PiecesBySection(a, cfg), PiecesBySection(b, cfg));
  }

  // ----- what a chunk says of itself -----

  /** Heading and page are the section's, the heading cut to 512; a chunk at most 8 longer than its heading is a title block. */
  predicate IsChunkOf(p: Piece, section: Section) {
    p.heading == (if |section.heading| > 512 then section.heading[..512] else section.heading) && p.page == section.page
    && (p.isTitleBlock <==> |Strip(p.content)| <= |Strip(section.heading)| + 8)
  }

  lemma ChunkOfSection(section: Section, cfg: Config, j: nat)
    requires cfg.SizesPositive() && j < |SectionPieces(section, cfg)|
    ensures IsChunkOf(SectionPieces(section, cfg)[j], section)
    ensures SectionPieces(section, cfg)[j].parentContent == "" || cfg.childMax.Some?
  {
  }

  /**
   * A document is refused exactly when no section has text or a size is not positive; else its chunks are numbered from 0,
   * and each comes from one of its sections.
   */
  lemma ChunksAreNumbered(sections: seq<Section>, cfg: Config)
    ensures ChunkedDocument(sections, cfg).Ok? <==>
              (exists s :: s in sections && !IsBlank(s.text)) && cfg.maxChars > 0 && (cfg.childMax.Some? ==> cfg.childMax.value > 0)
    ensures ChunkedDocument(sections, cfg).Ok? ==>
              var chunks := ChunkedDocument(sections, cfg).value;
              forall i | 0 <= i < |chunks| :: chunks[i].ordinal == i && exists s :: s in sections && IsChunkOf(chunks[i].piece, s)
  {
    var r := ChunkedDocument(sections, cfg);
    if r.Ok? {
      forall i | 0 <= i < |r.value| ensures r.value[i].ordinal == i && exists s :: s in sections && IsChunkOf(r.value[i].piece, s) {
        var k, j := SectionOf(PiecesBySection(sections, cfg), r.value[i]);
        ChunkOfSection(sections[k], cfg, j);
        assert sections[k] in sections;
      }
    }
  }

  // ----- coverage -----

  /** The i-th ink character of a text sits at some position, with i ink characters before it. */
  lemma {:induction false} InkPosition(text: string, i: nat) returns (p: nat)
    requires i < |Ink(text)|
    ensures p < |text| && !IsSpace(text[p]) && |Ink(text[..p])| == i
  {
    if !IsSpace(text[0]) && i == 0 {
      p := 0;
    } else {
      var skipped := if IsSpace(text[0]) then 0 else 1;
      p := InkPosition(text[1..], i - skipped);
      assert text[..p + 1] == [text[0]] + text[1..][..p];
      assert Ink(text[..p + 1]) == (if IsSpace(text[0]) then "" else [text[0]]) + Ink(text[1..][..p]) by {
        assert text[..p + 1][1..] == text[1..][..p];
      }
      p := p + 1;
    }
  }

  /** Ink of a slice is a slice of the ink. */
  lemma InkSlice(text: string, a: nat, b: nat)
    requires a <= b <= |text|
    ensures |Ink(text[..a])| <= |Ink(text[..b])| <= |Ink(text)|
    ensures Ink(text[a..b]) == Ink(text)[|Ink(text[..a])|..|Ink(text[..b])|]
  {
    assert text == text[..b] + text[b..] && text[..b] == text[..a] + text[a..b];
    InkConcat(text[..b], text[b..]);
    InkConcat(text[..a], text[a..b]);
  }

  /** Piece c holds characters lo..hi of the ink of `text`, character i among them. */
  ghost predicate HoldsInk(c: Piece, text: string, lo: nat, i: nat, hi: nat) {
    lo <= i < hi <= |Ink(text)| && Ink(c.content) == Ink(text)[lo..hi]
  }

  lemma InkGrows(text: string, p: nat, end: nat)
    requires p < end <= |text| && !IsSpace(text[p])
    ensures |Ink(text[..p])| < |Ink(text[..end])|
  {
    assert text[..end] == text[..p] + text[p..end];
    InkConcat(text[..p], text[p..end]);
  }

  /** Some window holds the i-th ink character of the text. */
  lemma InkInWindow(text: string, size: int, overlap: int, i: nat) returns (w: Window, lo: nat, hi: nat)
    requires size > 0 && overlap >= 0 && i < |Ink(text)|
    ensures w in WindowsOf(text, size, overlap)
    ensures lo <= i < hi <= |Ink(text)| && Ink(w.content) == Ink(text)[lo..hi]
  {
    var p := InkPosition(text, i);
    w := InkIsCovered(text, size, overlap, p);
    lo, hi := |Ink(text[..w.start])|, |Ink(text[..w.end])|;
    InkSlice(text, w.start, w.end);
    InkStrip(text[w.start..w.end]);
    InkCount(text, w.start, p);
    InkGrows(text, p, w.end);
  }

  /** A prefix holds no more ink than a longer one. */
  lemma InkCount(text: string, a: nat, b: nat)
    requires a <= b <= |text|
    ensures |Ink(text[..a])| <= |Ink(text[..b])|
  {
    assert text[..b] == text[..a] + text[a..b];
    InkConcat(text[..a], text[a..b]);
  }

  lemma SectionInkCovered(section: Section, cfg: Config, i: nat) returns (c: Piece, lo: nat, hi: nat)
    requires cfg.Sane() && i < |Ink(section.text)|
    ensures c in SectionPieces(section, cfg)
    ensures c.heading == Cut(section.heading, HEADING_LIMIT) && c.page == section.page
    ensures HoldsInk(c, section.text, lo, i, hi)
  {
    InkNormalize(section.text);
    var w;
    w, lo, hi := InkInWindow(Normalize(section.text), cfg.ChunkSize(), cfg.ChunkOverlap(), i);
    var ws := WindowsOf(Normalize(section.text), cfg.ChunkSize(), cfg.ChunkOverlap());
    var j :| 0 <= j < |ws| && ws[j] == w;
    c := SectionPieces(section, cfg)[j];
  }

  /**
   * No text is lost: every non-space character of every section appears, with its neighbours, in a
   * chunk that carries that section's heading (cut to 512) and page.
   */
  lemma TextIsCovered(sections: seq<Section>, cfg: Config, k: nat, i: nat) returns (c: Chunk, lo: nat, hi: nat)
    requires cfg.Sane() && k < |sections| && i < |Ink(sections[k].text)|
    ensures ChunkedDocument(sections, cfg).Ok? && c in ChunkedDocument(sections, cfg).value
    ensures c.piece.heading == Cut(sections[k].heading, HEADING_LIMIT) && c.piece.page == sections[k].page
    ensures HoldsInk(c.piece, sections[k].text, lo, i, hi)
  {
    InkBlank(sections[k].text);
    var piece;
    piece, lo, hi := SectionInkCovered(sections[k], cfg, i);
    c := NumberOf(PiecesBySection(sections, cfg), k, piece);
  }

  lemma NumberOf(pss: seq<seq<Piece>>, k: nat, piece: Piece) returns (c: Chunk)
    requires k < |pss| && piece in pss[k]
    ensures c in Numbered(Flatten(pss)) && c.piece == piece
  {
    FlattenMember(pss, piece);
    var j :| 0 <= j < |Flatten(pss)| && Flatten(pss)[j] == piece;
    c := Numbered(Flatten(pss))[j];
  }

  lemma SectionOf(pss: seq<seq<Piece>>, c: Chunk) returns (k: nat, j: nat)
    requires c in Numbered(Flatten(pss))
    ensures k < |pss| && j < |pss[k]| && pss[k][j] == c.piece
  {
    FlattenMember(pss, c.piece);
    k :| 0 <= k < |pss| && c.piece in pss[k];
    j :| 0 <= j < |pss[k]| && pss[k][j] == c.piece;
  }

  // ----- the parent link -----

  lemma {:induction false} FirstContainingIsParent(parents: seq<Window>, position: nat)
    ensures var found := FirstContaining(parents, position);
            found.Some? ==> found.value in parents && found.value.start <= position < found.value.end
  {
    if parents != [] && !(parents[0].start <= position < parents[0].end) {
      FirstContainingIsParent(parents[1..], position);
    }
  }

  /** Among the parents of a text, one that overlaps the child is found, and its content is the link. */
  lemma ChildHasParent(text: string, size: int, overlap: int, child: Window) returns (parent: Window)
    requires size > 0 && overlap >= 0
    requires child.start < child.end <= |text| && Strip(text[child.start..child.end]) != ""
    ensures parent in WindowsOf(text, size, overlap) && Overlap(parent, child) >= 1
    ensures ParentText(WindowsOf(text, size, overlap), child) == parent.content
    ensures 0 < |parent.content| <= size
  {
    var parents := WindowsOf(text, size, overlap);
    var p := InkIn(text, child.start, child.end);
    var inked := InkIsCovered(text, size, overlap, p);
    forall w | w in parents ensures w.content != "" { WindowsAreSpans(text, size, overlap, w); }
    parent := LinkedWindow(parents, child, inked);
    WindowsAreSpans(text, size, overlap, parent);
  }

  lemma InkIn(text: string, start: nat, end: nat) returns (p: nat)
    requires start < end <= |text| && Strip(text[start..end]) != ""
    ensures start <= p < end && !IsSpace(text[p])
  {
    p := start + StripStart(text[start..end]);
  }

  lemma LinkedWindow(parents: seq<Window>, child: Window, inked: Window) returns (parent: Window)
    requires inked in parents && Overlap(inked, child) >= 1
    requires child.start < child.end
    requires forall p | p in parents :: p.content != ""
    ensures parent in parents && Overlap(parent, child) >= 1 && ParentText(parents, child) == parent.content
  {
    FirstContainingIsParent(parents, child.start);
    var containing := FirstContaining(parents, child.start);
    parent := if containing.Some? then containing.value else BestOverlap(parents, child);
  }

  /** What a chunk says about its origin: section, window and, when linked, parent window. */
  ghost predicate CutFrom(c: Piece, text: string, cfg: Config, child: Window)
    requires cfg.SizesPositive()
  {
    child in WindowsOf(text, cfg.ChunkSize(), cfg.ChunkOverlap()) && c.content == child.content
  }

  ghost predicate LinkedTo(c: Piece, text: string, cfg: Config, child: Window, parent: Window)
    requires cfg.SizesPositive()
  {
    parent in WindowsOf(text, cfg.maxChars, cfg.overlap) && c.parentContent == parent.content
    && Overlap(parent, child) >= 1
  }

  /**
   * Every chunk comes from a window of some section and fits it; in the parent-child layout its parent
   * text is the content of a parent window of the same section that shares at least one character with
   * it, so the fallback to the child's own text is never used.
   */
  lemma ParentLinkIsReal(sections: seq<Section>, cfg: Config, c: Chunk) returns (k: nat, child: Window, parent: Window)
    requires cfg.SizesPositive() && cfg.overlap >= 0 && HasText(sections)
    requires c in ChunkedDocument(sections, cfg).value
    ensures k < |sections| && CutFrom(c.piece, Normalize(sections[k].text), cfg, child)
    ensures cfg.childMax.Some? ==> LinkedTo(c.piece, Normalize(sections[k].text), cfg, child, parent)
    ensures 0 < |c.piece.content| <= cfg.ChunkSize()
    ensures |c.piece.parentContent| <= cfg.maxChars && |c.piece.heading| <= HEADING_LIMIT
  {
    var j;
    k, j := SectionOf(PiecesBySection(sections, cfg), c);
    child, parent := PieceOrigin(sections[k], cfg, j);
  }

  lemma PieceOrigin(section: Section, cfg: Config, j: nat) returns (child: Window, parent: Window)
    requires cfg.SizesPositive() && cfg.overlap >= 0 && j < |SectionPieces(section, cfg)|
    ensures var c := SectionPieces(section, cfg)[j];
            CutFrom(c, Normalize(section.text), cfg, child)
            && (cfg.childMax.Some? ==> LinkedTo(c, Normalize(section.text), cfg, child, parent))
            && 0 < |c.content| <= cfg.ChunkSize()
            && |c.parentContent| <= cfg.maxChars && |c.heading| <= HEADING_LIMIT
  {
    var text := Normalize(section.text);
    child := WindowsOf(text, cfg.ChunkSize(), cfg.ChunkOverlap())[j];
    parent := child;
    WindowsAreSpans(text, cfg.ChunkSize(), cfg.ChunkOverlap(), child);
    if cfg.childMax.Some? {
      parent := ChildHasParent(text, cfg.maxChars, cfg.overlap, child);
    }
  }
}
