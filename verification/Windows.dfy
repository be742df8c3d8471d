/** ingestion/chunker.py, _split_windows: an overlapping window that slides over a text. */
module Windows {
  import opened Text

  /** A window before blank ones are dropped: text[start..end]. */
  datatype Span = Span(start: nat, end: nat)

  datatype Window = Window(start: nat, end: nat, content: string)

  const IDEOGRAPHIC_STOP: char := 0x3002 as char

  predicate EndsSentence(c: char) {
    c == '\n' || c == IDEOGRAPHIC_STOP
  }

  /** `text.rfind(c, lo, hi)` */
  function RFind(text: string, c: char, lo: nat, hi: nat): (r: int)
    requires hi <= |text|
    ensures r == -1 || (lo <= r < hi && text[r] == c)
    ensures forall i | Max(lo, r + 1) <= i < hi :: text[i] != c
    decreases hi
  {
    if hi <= lo then -1
    else if text[hi - 1] == c then hi - 1
    else RFind(text, c, lo, hi - 1)
  }

  /** The last sentence end in text[lo..hi], or -1. */
  function LastBoundary(text: string, lo: nat, hi: nat): (b: int)
    requires hi <= |text|
    ensures b == -1 || (lo <= b < hi && EndsSentence(text[b]))
    ensures forall i | Max(lo, b + 1) <= i < hi :: !EndsSentence(text[i])
  {
    Max(RFind(text, '\n', lo, hi), RFind(text, IDEOGRAPHIC_STOP, lo, hi))
  }

  /** Where the window that opens at `start` closes. */
  function WindowEnd(text: string, size: int, start: nat): (end: nat)
    requires size > 0 && start < |text|
    ensures start < end <= Min(|text|, start + size)
  {
    var end := Min(|text|, start + size);
    if end < |text| then
      var boundary := LastBoundary(text, start, end);
      if boundary > start + size / 2 then boundary + 1 else end
    else end
  }

  /** Where the next window opens. */
  function NextStart(overlap: int, start: nat, end: nat): (next: nat)
    ensures next > start
  {
    Max(start + 1, end - overlap)
  }

  function SpansFrom(text: string, size: int, overlap: int, start: nat): seq<Span>
    requires size > 0
    decreases |text| - start
  {
    if start >= |text| then []
    else
      var end := WindowEnd(text, size, start);
      [Span(start, end)] + if end >= |text| then [] else SpansFrom(text, size, overlap, NextStart(overlap, start, end))
  }

  function Spans(text: string, size: int, overlap: int): seq<Span>
    requires size > 0
  {
    SpansFrom(text, size, overlap, 0)
  }

  function KeepOne(text: string, s: Span): seq<Window> {
    var content := if s.start <= s.end <= |text| then Strip(text[s.start..s.end]) else "";
    if content != "" then [Window(s.start, s.end, content)] else []
  }

  /** The stripped, non-blank windows among the given spans. */
  function Keep(text: string, spans: seq<Span>): seq<Window> {
    if spans == [] then [] else KeepOne(text, spans[0]) + Keep(text, spans[1..])
  }

  function WindowsOf(text: string, size: int, overlap: int): seq<Window>
    requires size > 0
  {
    Keep(text, Spans(text, size, overlap))
  }

  /** `windows` followed by the windows from `start` on is `goal`. */
  ghost predicate Completes(windows: seq<Window>, text: string, size: int, overlap: int, start: nat, goal: seq<Window>)
    requires size > 0
  {
    windows + Keep(text, SpansFrom(text, size, overlap, start)) == goal
  }

  /** One turn of the loop. */
  lemma CompletesStep(windows: seq<Window>, text: string, size: int, overlap: int, start: nat, goal: seq<Window>)
    requires size > 0 && start < |text| && Completes(windows, text, size, overlap, start, goal)
    ensures var end := WindowEnd(text, size, start);
            var next := windows + KeepOne(text, Span(start, end));
            if end >= |text| then next == goal
            else Completes(next, text, size, overlap, NextStart(overlap, start, end), goal)
  {
    var end := WindowEnd(text, size, start);
    var rest := if end >= |text| then [] else SpansFrom(text, size, overlap, NextStart(overlap, start, end));
    assert SpansFrom(text, size, overlap, start) == [Span(start, end)] + rest;
    assert ([Span(start, end)] + rest)[1..] == rest;
    assert windows + (KeepOne(text, Span(start, end)) + Keep(text, rest))
        == (windows + KeepOne(text, Span(start, end))) + Keep(text, rest);
  }

  lemma CompletesDone(windows: seq<Window>, text: string, size: int, overlap: int, start: nat, goal: seq<Window>)
    requires size > 0 && start >= |text| && Completes(windows, text, size, overlap, start, goal)
    ensures windows == goal
  {
  }

  /** _split_windows. A non-positive size is rejected whatever the text is. */
  method SplitWindows(text: string, size: int, overlap: int) returns (r: Result<seq<Window>>)
    ensures r == if size <= 0 then Error("window_size") else Ok(WindowsOf(text, size, overlap))
  {
    if size <= 0 {
      return Error("window_size");
    }
    var windows: seq<Window> := [];
    var start: nat := 0;
    ghost var goal := WindowsOf(text, size, overlap);
    assert windows + goal == goal;
    while start < |text|
      invariant Completes(windows, text, size, overlap, start, goal)
      decreases |text| - start
    {
      var end := WindowEnd(text, size, start);
      CompletesStep(windows, text, size, overlap, start, goal);
      windows := windows + KeepOne(text, Span(start, end));
      if end >= |text| {
        return Ok(windows);
      }
      start := NextStart(overlap, start, end);
    }
    CompletesDone(windows, text, size, overlap, start, goal);
    return Ok(windows);
  }

  // ----- what the windows guarantee -----

  /** Ends never move back: the half-window rule makes a later window reach at least as far. */
  lemma EndsAdvance(text: string, size: int, overlap: int, start: nat)
    requires size > 0 && overlap >= 0 && start < |text|
    requires WindowEnd(text, size, start) < |text|
    ensures var end := WindowEnd(text, size, start);
            var next := NextStart(overlap, start, end);
            next <= end && next < |text|
            && end <= WindowEnd(text, size, next)
            && (overlap <= size / 2 + 1 ==> end < WindowEnd(text, size, next))
  {
  }

  ghost predicate Tiles(spans: seq<Span>, text: string, size: int, start: nat) {
    spans != [] && spans[0].start == start && spans[|spans| - 1].end == |text|
    && (forall k | 0 <= k < |spans| :: spans[k].start < spans[k].end <= spans[k].start + size && spans[k].end <= |text|)
    && (forall k | 0 <= k < |spans| - 1 :: spans[k].start < spans[k + 1].start <= spans[k].end)
    && (forall k | 0 <= k < |spans| - 1 :: spans[k].end <= spans[k + 1].end)
  }

  ghost predicate EndsStrictlyIncrease(spans: seq<Span>) {
    forall k | 0 <= k < |spans| - 1 :: spans[k].end < spans[k + 1].end
  }

  /** A window is full-sized unless it is the last one or stops right after a sentence in its second half. */
  ghost predicate CutsAtSentences(spans: seq<Span>, text: string, size: int) {
    forall k | 0 <= k < |spans| :: CutAtSentence(spans[k], text, size)
  }

  predicate CutAtSentence(span: Span, text: string, size: int) {
    span.start < span.end <= |text|
    && (span.end == |text| || span.end == span.start + size
        || (EndsSentence(text[span.end - 1]) && span.end - span.start > size / 2 + 1))
  }

  lemma FirstCut(text: string, size: int, start: nat)
    requires size > 0 && start < |text|
    ensures CutAtSentence(Span(start, WindowEnd(text, size, start)), text, size)
  {
  }

  lemma CutsPrepend(first: Span, rest: seq<Span>, text: string, size: int)
    requires CutAtSentence(first, text, size) && CutsAtSentences(rest, text, size)
    ensures CutsAtSentences([first] + rest, text, size)
  {
  }

  /** A line break or an ideographic full stop (U+3002) stands at p. */
  predicate StopAt(text: string, p: nat) {
    p < |text| && (text[p] == '\n' || text[p] == '\U{3002}')
  }

  /** p is the last stop in the second half of the reach of a window that opens at `start`. */
  ghost predicate LastStop(text: string, size: int, start: nat, p: nat) {
    start + size / 2 < p < start + size && StopAt(text, p) && forall q: nat | p < q < start + size :: !StopAt(text, q)
  }

  /** A window that does not reach the end of the text ends after the last stop in its second half, or else at full size. */
  ghost predicate EndsRight(text: string, size: int, span: Span) {
    if span.start + size >= |text| then span.end == |text|
    else
      (forall p: nat | LastStop(text, size, span.start, p) :: span.end == p + 1)
      && ((forall p: nat | span.start + size / 2 < p < span.start + size :: !StopAt(text, p)) ==> span.end == span.start + size)
  }

  lemma FirstEndsRight(text: string, size: int, start: nat)
    requires size > 0 && start < |text|
    ensures EndsRight(text, size, Span(start, WindowEnd(text, size, start)))
  {
    forall q: nat | q < |text| ensures EndsSentence(text[q]) == StopAt(text, q) {
    }
    if start + size < |text| {
      var b := LastBoundary(text, start, start + size);
      forall p: nat | LastStop(text, size, start, p) ensures b == p {
        assert EndsSentence(text[p]);
        assert b >= 0 ==> StopAt(text, b);
      }
      if b > start + size / 2 {
        assert StopAt(text, b);
      }
    }
  }

  /** Every window, for every overlap. */
  lemma {:induction false} SpansEndRight(text: string, size: int, overlap: int, start: nat)
    requires size > 0
    ensures forall span | span in SpansFrom(text, size, overlap, start) :: EndsRight(text, size, span)
    decreases |text| - start
  {
    if start < |text| {
      var end := WindowEnd(text, size, start);
      FirstEndsRight(text, size, start);
      if end < |text| {
        SpansEndRight(text, size, overlap, NextStart(overlap, start, end));
      }
    }
  }

  /** Of all the windows of a text: a stop in the second half of its reach is where a window ends. */
  lemma StopsEndWindows(text: string, size: int, overlap: int, w: Window)
    requires size > 0 && w in WindowsOf(text, size, overlap)
    ensures EndsRight(text, size, Span(w.start, w.end))
  {
    WindowsAreSpans(text, size, overlap, w);
    SpansEndRight(text, size, overlap, 0);
  }

  /** Neighbours share exactly `overlap` characters when the first is longer than that, else all but one. */
  ghost predicate SharesOverlap(spans: seq<Span>, overlap: int) {
    forall k | 0 <= k < |spans| - 1 ::
      spans[k].end - spans[k + 1].start == Min(overlap, spans[k].end - spans[k].start - 1)
  }

  lemma {:induction false} SpansTileFrom(text: string, size: int, overlap: int, start: nat)
    requires size > 0 && overlap >= 0 && start < |text|
    ensures Tiles(SpansFrom(text, size, overlap, start), text, size, start)
    decreases |text| - start
  {
    var end := WindowEnd(text, size, start);
    if end < |text| {
      var next := NextStart(overlap, start, end);
      EndsAdvance(text, size, overlap, start);
      SpansTileFrom(text, size, overlap, next);
      PrependTile(Span(start, end), SpansFrom(text, size, overlap, next), text, size, overlap, next);
    }
  }

  lemma PrependTile(first: Span, rest: seq<Span>, text: string, size: int, overlap: int, next: nat)
    requires Tiles(rest, text, size, next)
    requires first.start < next <= first.end <= Min(|text|, first.start + size)
    requires first.end <= rest[0].end
    ensures Tiles([first] + rest, text, size, first.start)
  {
  }

  lemma {:induction false} SpansCut(text: string, size: int, overlap: int, start: nat)
    requires size > 0
    ensures CutsAtSentences(SpansFrom(text, size, overlap, start), text, size)
    decreases |text| - start
  {
    if start < |text| {
      var end := WindowEnd(text, size, start);
      var rest := if end >= |text| then [] else SpansFrom(text, size, overlap, NextStart(overlap, start, end));
      FirstCut(text, size, start);
      if end < |text| {
        SpansCut(text, size, overlap, NextStart(overlap, start, end));
      }
      CutsPrepend(Span(start, end), rest, text, size);
    }
  }

  lemma {:induction false} SpansShare(text: string, size: int, overlap: int, start: nat)
    requires size > 0 && overlap >= 0
    ensures SharesOverlap(SpansFrom(text, size, overlap, start), overlap)
    decreases |text| - start
  {
    if start < |text| {
      var end := WindowEnd(text, size, start);
      if end < |text| {
        var next := NextStart(overlap, start, end);
        SpansShare(text, size, overlap, next);
        var rest := SpansFrom(text, size, overlap, next);
        assert rest[0].start == next;
        assert SpansFrom(text, size, overlap, start) == [Span(start, end)] + rest;
      }
    }
  }

  lemma {:induction false} SpansStrict(text: string, size: int, overlap: int, start: nat)
    requires size > 0 && 0 <= overlap <= size / 2 + 1
    ensures EndsStrictlyIncrease(SpansFrom(text, size, overlap, start))
    decreases |text| - start
  {
    if start < |text| {
      var end := WindowEnd(text, size, start);
      if end < |text| {
        var next := NextStart(overlap, start, end);
        EndsAdvance(text, size, overlap, start);
        SpansStrict(text, size, overlap, next);
        var rest := SpansFrom(text, size, overlap, next);
        assert rest[0].end == WindowEnd(text, size, next);
        assert SpansFrom(text, size, overlap, start) == [Span(start, end)] + rest;
      }
    }
  }

  /**
   * For a non-negative overlap the windows start at 0, leave no gap, end at the end of the text, are
   * between 1 and `size` long, start ever later, never end earlier, break only after a sentence in the
   * second half, and share the requested overlap.
   */
  lemma SpansTile(text: string, size: int, overlap: int)
    requires size > 0 && overlap >= 0 && text != ""
    ensures Tiles(Spans(text, size, overlap), text, size, 0)
    ensures CutsAtSentences(Spans(text, size, overlap), text, size)
    ensures SharesOverlap(Spans(text, size, overlap), overlap)
  {
    SpansTileFrom(text, size, overlap, 0);
    SpansCut(text, size, overlap, 0);
    SpansShare(text, size, overlap, 0);
  }

  /** A text of `size - 1` letters, a line break, and two windows' worth of letters. */
  function LateBreak(size: int): (text: string)
    requires size > 0
    ensures |text| == 3 * size
    ensures forall i | 0 <= i < |text| :: text[i] == if i == size - 1 then '\n' else 'a'
  {
    seq(3 * size, i requires 0 <= i < 3 * size => if i == size - 1 then '\n' else 'a')
  }

  /** Past that overlap, two windows can close at the same place: the second is nested in the first. */
  lemma NestedWindow(size: int, overlap: int)
    requires size / 2 + 1 < overlap < size
    ensures !EndsStrictlyIncrease(Spans(LateBreak(size), size, overlap))
  {
    var text := LateBreak(size);
    var next := NextStart(overlap, 0, size);
    assert EndsSentence(text[size - 1]);
    assert LastBoundary(text, 0, size) == size - 1;
    assert LastBoundary(text, next, next + size) == size - 1;
    assert WindowEnd(text, size, 0) == size && WindowEnd(text, size, next) == size;
    var rest := SpansFrom(text, size, overlap, next);
    assert rest[0].end == size;
    assert Spans(text, size, overlap) == [Span(0, size)] + rest;
    var spans := [Span(0, size)] + rest;
    assert spans[1] == rest[0];
    assert !(spans[0].end < spans[0 + 1].end);
  }

  /** Exactly which overlaps rule out nested windows, over all texts. */
  lemma NoNestingIffSmallOverlap(size: int, overlap: int)
    requires 0 <= overlap < size
    ensures (forall text: string :: EndsStrictlyIncrease(Spans(text, size, overlap))) <==> overlap <= size / 2 + 1
  {
    if overlap <= size / 2 + 1 {
      forall text: string ensures EndsStrictlyIncrease(Spans(text, size, overlap)) {
        SpansStrict(text, size, overlap, 0);
      }
    } else {
      NestedWindow(size, overlap);
    }
  }

  lemma {:induction false} SpanAt(spans: seq<Span>, text: string, size: int, start: nat, p: nat) returns (k: nat)
    requires Tiles(spans, text, size, start) && start <= p < |text|
    ensures k < |spans| && spans[k].start <= p < spans[k].end
    decreases |spans|
  {
    if p < spans[0].end {
      k := 0;
    } else {
      assert |spans| > 1 && spans[1].start <= p;
      var rest := spans[1..];
      assert forall j | 0 <= j < |rest| :: rest[j] == spans[j + 1];
      k := SpanAt(rest, text, size, rest[0].start, p);
      k := k + 1;
    }
  }

  /** The kept windows are exactly the spans with something left after stripping. */
  lemma {:induction false} KeepMembers(text: string, spans: seq<Span>, w: Window)
    requires forall s | s in spans :: s.start <= s.end <= |text|
    ensures w in Keep(text, spans) <==>
            Span(w.start, w.end) in spans && w.start <= w.end <= |text|
            && w.content == Strip(text[w.start..w.end]) && w.content != ""
  {
    if spans != [] {
      assert forall s | s in spans[1..] :: s in spans;
      KeepMembers(text, spans[1..], w);
      assert Span(w.start, w.end) in spans <==> Span(w.start, w.end) == spans[0] || Span(w.start, w.end) in spans[1..];
    }
  }

  lemma WindowsAreSpans(text: string, size: int, overlap: int, w: Window)
    requires size > 0
    ensures w in WindowsOf(text, size, overlap) <==>
            Span(w.start, w.end) in Spans(text, size, overlap) && w.start <= w.end <= |text|
            && w.content == Strip(text[w.start..w.end]) && w.content != ""
    ensures w in WindowsOf(text, size, overlap) ==> w.start < w.end <= w.start + size && |w.content| <= size
  {
    SpansInText(text, size, overlap, 0);
    KeepMembers(text, Spans(text, size, overlap), w);
  }

  lemma {:induction false} SpansInText(text: string, size: int, overlap: int, start: nat)
    requires size > 0
    ensures forall s | s in SpansFrom(text, size, overlap, start) :: s.start < s.end <= Min(|text|, s.start + size)
    decreases |text| - start
  {
    if start < |text| {
      var end := WindowEnd(text, size, start);
      if end < |text| {
        SpansInText(text, size, overlap, NextStart(overlap, start, end));
      }
    }
  }

  /** Every non-space character of the text lies in a returned window. */
  lemma InkIsCovered(text: string, size: int, overlap: int, p: nat) returns (w: Window)
    requires size > 0 && overlap >= 0
    requires p < |text| && !IsSpace(text[p])
    ensures w in WindowsOf(text, size, overlap)
    ensures w.start <= p < w.end <= |text| && w.content == Strip(text[w.start..w.end])
  {
    SpansTile(text, size, overlap);
    var spans := Spans(text, size, overlap);
    var k := SpanAt(spans, text, size, 0, p);
    var part := text[spans[k].start..spans[k].end];
    assert part[p - spans[k].start] == text[p];
    assert !IsBlank(part) by { assert text[p] in part; }
    w := Window(spans[k].start, spans[k].end, Strip(part));
    WindowsAreSpans(text, size, overlap, w);
  }

  /** With a negative overlap the windows leave gaps, so the bound on the overlap is needed. */
  lemma NegativeOverlapLeavesGaps()
    ensures Spans("abc", 1, -1) == [Span(0, 1), Span(2, 3)]
  {
  }
}
