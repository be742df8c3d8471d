/** backend/text_index.py: the lexical terms that indexing and retrieval share. */
module TextIndex {
  import opened Text

  /**
   * `str.lower`, one character at a time. Besides ASCII, the Kelvin sign is the only character that lower-cases
   * to a single character of the Latin alphabet below.
   */
  function LowerChar(c: char): char {
    if 'A' <= c <= 'Z' then (c as int + 32) as char
    else if c as int == 0x212A then 'k'
    else c
  }

  function Lower(s: string): (r: string)
    ensures |r| == |s|
    ensures forall i | 0 <= i < |s| :: r[i] == LowerChar(s[i])
  {
    seq(|s|, i requires 0 <= i < |s| => LowerChar(s[i]))
  }

  /** The regex class `[a-z0-9_-]`. */
  predicate IsLatin(c: char) {
    'a' <= c <= 'z' || '0' <= c <= '9' || c == '_' || c == '-'
  }

  predicate IsCjk(c: char) {
    0x4e00 <= c as int <= 0x9fff
  }

  /** Length of the longest all-Latin prefix. */
  function LatinPrefix(s: string): (k: nat)
    ensures k <= |s|
    ensures forall i | 0 <= i < k :: IsLatin(s[i])
    ensures k < |s| ==> !IsLatin(s[k])
  {
    if s == "" || !IsLatin(s[0]) then 0 else 1 + LatinPrefix(s[1..])
  }

  /** `re.findall("[a-z0-9_-]{2,}", s)`. */
  function LatinRuns(s: string): seq<string> {
    if s == "" then []
    else
      var k := LatinPrefix(s);
      if k == 0 then LatinRuns(s[1..])
      else (if k >= 2 then [s[..k]] else []) + LatinRuns(s[k..])
  }

  /** Every pair of neighbouring CJK characters, left to right. */
  function CjkPairs(s: string): seq<string> {
    if |s| < 2 then []
    else (if IsCjk(s[0]) && IsCjk(s[1]) then [s[..2]] else []) + CjkPairs(s[1..])
  }

  function LexicalTerms(text: string): seq<string> {
    LatinRuns(Lower(text)) + CjkPairs(Lower(text))
  }

  function LexicalText(text: string): string {
    Join(' ', LexicalTerms(text))
  }

  // ----- what the terms are, without recursion -----

  /** s[a..b] is all Latin and cannot be extended on either side. */
  ghost predicate MaximalRun(s: string, a: int, b: int) {
    0 <= a < b <= |s|
    && (forall i | a <= i < b :: IsLatin(s[i]))
    && (a == 0 || !IsLatin(s[a - 1]))
    && (b == |s| || !IsLatin(s[b]))
  }

  /** A maximal run long enough to be a term. */
  ghost predicate LongRun(s: string, a: int, b: int) {
    MaximalRun(s, a, b) && b - a >= 2
  }

  ghost predicate RunAt(s: string, a: int, b: int, w: string) {
    LongRun(s, a, b) && w == s[a..b]
  }

  ghost predicate HasRun(s: string, w: string) {
    exists a, b :: RunAt(s, a, b, w)
  }

  /** Two CJK characters stand at positions a and a + 1. */
  predicate PairStarts(s: string, a: nat) {
    |s| >= 2 && a <= |s| - 2 && IsCjk(s[a]) && IsCjk(s[a + 1])
  }

  ghost predicate PairAt(s: string, a: int, w: string) {
    0 <= a && PairStarts(s, a) && w == s[a..a + 2]
  }

  ghost predicate HasPair(s: string, w: string) {
    exists a :: PairAt(s, a, w)
  }

  // ----- the terms as lists -----

  ghost function IsLongRun(s: string): (nat, nat) -> bool {
    (a: nat, b: nat) => LongRun(s, a, b)
  }

  /** All the stretches of a kind that begin at k or later, left to right, each once. */
  ghost predicate RunList(long: (nat, nat) -> bool, k: nat, runs: seq<(nat, nat)>) {
    (forall i | 0 <= i < |runs| :: k <= runs[i].0 <= runs[i].1 && long(runs[i].0, runs[i].1))
    && (forall i, j | 0 <= i < j < |runs| :: runs[i].1 < runs[j].0)
    && (forall a: nat, b: nat | k <= a && long(a, b) :: (a, b) in runs)
  }

  lemma PrependTo(long: (nat, nat) -> bool, k: nat, e: nat, next: nat, rest: seq<(nat, nat)>)
    requires RunList(long, next, rest) && k <= e <= next
    requires forall a: nat, b: nat | k <= a && long(a, b) :: (a == k && b == e && long(k, e)) || next <= a
    requires forall i | 0 <= i < |rest| :: long(k, e) ==> e < rest[i].0
    ensures RunList(long, k, (if long(k, e) then [(k, e)] else []) + rest)
  {
    var runs := (if long(k, e) then [(k, e)] else []) + rest;
    forall a: nat, b: nat | k <= a && long(a, b) ensures (a, b) in runs {
      assert next <= a ==> (a, b) in rest;
    }
  }

  ghost predicate Spells(s: string, terms: seq<string>, runs: seq<(nat, nat)>) {
    |terms| == |runs|
    && forall i | 0 <= i < |runs| :: runs[i].0 <= runs[i].1 <= |s| && terms[i] == s[runs[i].0..runs[i].1]
  }

  /** Where the Latin stretch at position k ends; k itself when there is none. */
  function RunEnd(s: string, k: nat): (e: nat)
    requires k <= |s|
    ensures k <= e <= |s|
    ensures forall i | k <= i < e :: IsLatin(s[i])
    ensures e < |s| ==> !IsLatin(s[e])
    decreases |s| - k
  {
    if k == |s| || !IsLatin(s[k]) then k else RunEnd(s, k + 1)
  }

  /** The places of the Latin runs, by position instead of by suffix. */
  function RunsFrom(s: string, k: nat): seq<(nat, nat)>
    requires k <= |s|
    decreases |s| - k
  {
    if k == |s| then []
    else
      var e := RunEnd(s, k);
      (if e >= k + 2 then [(k, e)] else []) + RunsFrom(s, Max(k + 1, e))
  }

  /** Position k is not inside a run. */
  predicate AtBoundary(s: string, k: nat)
    requires k <= |s|
  {
    k == 0 || k == |s| || !IsLatin(s[k - 1]) || !IsLatin(s[k])
  }

  /** A maximal run that begins at k or later is the stretch at k, or begins after it. */
  lemma RunAtOrAfter(s: string, k: nat, a: nat, b: nat)
    requires k < |s| && k <= a && LongRun(s, a, b)
    ensures (a == k && b == RunEnd(s, k)) || a >= Max(k + 1, RunEnd(s, k))
  {
    StartIsLatin(s, a, b);
  }

  lemma StartIsLatin(s: string, a: nat, b: nat)
    requires LongRun(s, a, b)
    ensures a < |s| && IsLatin(s[a])
  {
  }

  /** The stretch at k is a run exactly when it is long enough, and no run begins right where it ends. */
  lemma NextBoundary(s: string, k: nat)
    requires k < |s| && AtBoundary(s, k)
    ensures AtBoundary(s, Max(k + 1, RunEnd(s, k)))
    ensures LongRun(s, k, RunEnd(s, k)) <==> RunEnd(s, k) >= k + 2
  {
    if k < RunEnd(s, k) {
      assert IsLatin(s[k]);
    }
  }

  lemma LaterRun(s: string, k: nat, a: nat, b: nat)
    requires k <= |s| && k < RunEnd(s, k) <= a && LongRun(s, a, b)
    ensures RunEnd(s, k) < a
  {
    StartIsLatin(s, a, b);
  }

  lemma PrependRun(s: string, k: nat, rest: seq<(nat, nat)>)
    requires k < |s| && AtBoundary(s, k) && RunList(IsLongRun(s), Max(k + 1, RunEnd(s, k)), rest)
    ensures RunList(IsLongRun(s), k, (if RunEnd(s, k) >= k + 2 then [(k, RunEnd(s, k))] else []) + rest)
  {
    var e, long := RunEnd(s, k), IsLongRun(s);
    NextBoundary(s, k);
    forall a: nat, b: nat | k <= a && long(a, b) ensures (a == k && b == e && long(k, e)) || Max(k + 1, e) <= a {
      RunAtOrAfter(s, k, a, b);
    }
    forall i | 0 <= i < |rest| ensures long(k, e) ==> e < rest[i].0 {
      if long(k, e) {
        LaterRun(s, k, rest[i].0, rest[i].1);
      }
    }
    PrependTo(long, k, e, Max(k + 1, e), rest);
  }

  lemma {:induction false} RunsFromList(s: string, k: nat)
    requires k <= |s| && AtBoundary(s, k)
    ensures RunList(IsLongRun(s), k, RunsFrom(s, k))
    decreases |s| - k
  {
    if k < |s| {
      NextBoundary(s, k);
      RunsFromList(s, Max(k + 1, RunEnd(s, k)));
      PrependRun(s, k, RunsFrom(s, Max(k + 1, RunEnd(s, k))));
    } else {
      NoRunAtEnd(s);
    }
  }

  lemma NoRunAtEnd(s: string)
    ensures forall a: nat, b: nat | |s| <= a :: !LongRun(s, a, b)
  {
  }

  lemma {:induction false} PrefixEnd(s: string, k: nat)
    requires k <= |s|
    ensures k + LatinPrefix(s[k..]) == RunEnd(s, k)
    decreases |s| - k
  {
    if k < |s| {
      assert s[k..][0] == s[k] && s[k..][1..] == s[k + 1..];
      PrefixEnd(s, k + 1);
    }
  }

  /** One step of the recursion on suffixes, by position. */
  lemma LatinStep(s: string, k: nat)
    requires k < |s|
    ensures LatinRuns(s[k..]) ==
              (if RunEnd(s, k) >= k + 2 then [s[k..RunEnd(s, k)]] else []) + LatinRuns(s[Max(k + 1, RunEnd(s, k))..])
  {
    PrefixEnd(s, k);
    var t, e := s[k..], RunEnd(s, k);
    assert t[..e - k] == s[k..e];
    assert t[Max(1, e - k)..] == s[Max(k + 1, e)..];
  }

  lemma SpellsPrepend(s: string, terms: seq<string>, runs: seq<(nat, nat)>, a: nat, b: nat)
    requires Spells(s, terms, runs) && a <= b <= |s|
    ensures Spells(s, [s[a..b]] + terms, [(a, b)] + runs)
  {
  }

  lemma {:induction false} RunsFromSpell(s: string, k: nat)
    requires k <= |s|
    ensures Spells(s, LatinRuns(s[k..]), RunsFrom(s, k))
    decreases |s| - k
  {
    if k < |s| {
      var e := RunEnd(s, k);
      LatinStep(s, k);
      RunsFromSpell(s, Max(k + 1, e));
      SpellsPrepend(s, LatinRuns(s[Max(k + 1, e)..]), RunsFrom(s, Max(k + 1, e)), k, e);
      if e < k + 2 {
        assert LatinRuns(s[k..]) == LatinRuns(s[Max(k + 1, e)..]);
        assert RunsFrom(s, k) == RunsFrom(s, Max(k + 1, e));
      }
    }
  }

  /** `findall` returns every maximal run of two or more Latin characters, once per occurrence, left to right. */
  lemma LatinRunsInOrder(s: string)
    ensures RunList(IsLongRun(s), 0, RunsFrom(s, 0)) && Spells(s, LatinRuns(s), RunsFrom(s, 0))
  {
    RunsFromList(s, 0);
    RunsFromSpell(s, 0);
    assert s[0..] == s;
  }

  function IsPairStart(s: string): nat -> bool {
    (a: nat) => PairStarts(s, a)
  }

  /** All the positions of a kind from k on, left to right, each once. */
  ghost predicate PairList(starts: nat -> bool, k: nat, list: seq<nat>) {
    (forall i | 0 <= i < |list| :: k <= list[i] && starts(list[i]))
    && (forall i, j | 0 <= i < j < |list| :: list[i] < list[j])
    && (forall a: nat | k <= a && starts(a) :: a in list)
  }

  lemma PrependStart(starts: nat -> bool, k: nat, rest: seq<nat>)
    requires PairList(starts, k + 1, rest)
    ensures PairList(starts, k, (if starts(k) then [k] else []) + rest)
  {
    forall a: nat | k <= a && starts(a) ensures a in (if starts(k) then [k] else []) + rest {
      assert k < a ==> a in rest;
    }
  }

  ghost predicate SpellsPairs(s: string, terms: seq<string>, starts: seq<nat>) {
    |terms| == |starts|
    && forall i | 0 <= i < |starts| :: |s| >= 2 && starts[i] <= |s| - 2 && terms[i] == s[starts[i]..starts[i] + 2]
  }

  function PairsFrom(s: string, k: nat): seq<nat>
    requires k <= |s|
    decreases |s| - k
  {
    if k == |s| then [] else (if PairStarts(s, k) then [k] else []) + PairsFrom(s, k + 1)
  }

  lemma {:induction false} PairsFromList(s: string, k: nat)
    requires k <= |s|
    ensures PairList(IsPairStart(s), k, PairsFrom(s, k))
    decreases |s| - k
  {
    if k < |s| {
      PairsFromList(s, k + 1);
      PrependStart(IsPairStart(s), k, PairsFrom(s, k + 1));
    }
  }

  lemma PairStep(s: string, k: nat)
    requires k < |s|
    ensures CjkPairs(s[k..]) == (if PairStarts(s, k) then [s[k..k + 2]] else []) + CjkPairs(s[k + 1..])
  {
    var t := s[k..];
    if |t| >= 2 {
      assert t[0] == s[k] && t[1] == s[k + 1] && t[1..] == s[k + 1..] && t[..2] == s[k..k + 2];
    }
  }

  lemma PrependPair(s: string, terms: seq<string>, starts: seq<nat>, k: nat)
    requires SpellsPairs(s, terms, starts) && |s| >= 2 && k <= |s| - 2
    ensures SpellsPairs(s, [s[k..k + 2]] + terms, [k] + starts)
  {
  }

  lemma {:induction false} PairsFromSpell(s: string, k: nat)
    requires k <= |s|
    ensures SpellsPairs(s, CjkPairs(s[k..]), PairsFrom(s, k))
    decreases |s| - k
  {
    if k < |s| {
      PairStep(s, k);
      PairsFromSpell(s, k + 1);
      if PairStarts(s, k) {
        PrependPair(s, CjkPairs(s[k + 1..]), PairsFrom(s, k + 1), k);
      } else {
        assert CjkPairs(s[k..]) == CjkPairs(s[k + 1..]) && PairsFrom(s, k) == PairsFrom(s, k + 1);
      }
    }
  }

  /** And every pair of neighbouring CJK characters, once per occurrence, left to right; pairs overlap. */
  lemma CjkPairsInOrder(s: string)
    ensures PairList(IsPairStart(s), 0, PairsFrom(s, 0)) && SpellsPairs(s, CjkPairs(s), PairsFrom(s, 0))
  {
    PairsFromList(s, 0);
    PairsFromSpell(s, 0);
    assert s[0..] == s;
  }

  /** In particular, a word is a term exactly when it is a run somewhere. */
  lemma LatinRunsAreMaximalRuns(s: string, w: string)
    ensures w in LatinRuns(s) <==> HasRun(s, w)
  {
    LatinRunsInOrder(s);
    var terms, runs := LatinRuns(s), RunsFrom(s, 0);
    if i :| 0 <= i < |terms| && terms[i] == w {
      assert IsLongRun(s)(runs[i].0, runs[i].1);
      assert RunAt(s, runs[i].0, runs[i].1, w);
    }
    if a, b :| RunAt(s, a, b, w) {
      assert IsLongRun(s)(a, b);
      var i :| 0 <= i < |runs| && runs[i] == (a, b);
      assert terms[i] == w;
    }
  }

  lemma CjkPairsAreNeighbours(s: string, w: string)
    ensures w in CjkPairs(s) <==> HasPair(s, w)
  {
    CjkPairsInOrder(s);
    var terms, list := CjkPairs(s), PairsFrom(s, 0);
    if i :| 0 <= i < |terms| && terms[i] == w {
      assert IsPairStart(s)(list[i]);
      assert PairAt(s, list[i], w);
    }
    if a :| PairAt(s, a, w) {
      assert IsPairStart(s)(a);
      assert a in list;
      var i :| 0 <= i < |list| && list[i] == a;
      assert terms[i] == w;
    }
  }

  // ----- round trips -----

  predicate IsLatinTerm(w: string) {
    |w| >= 2 && forall c | c in w :: IsLatin(c)
  }

  predicate IsCjkTerm(w: string) {
    |w| == 2 && IsCjk(w[0]) && IsCjk(w[1])
  }

  lemma {:induction false} TermShapes(text: string)
    ensures forall w | w in LatinRuns(Lower(text)) :: IsLatinTerm(w)
    ensures forall w | w in CjkPairs(Lower(text)) :: IsCjkTerm(w)
    ensures forall w | w in LexicalTerms(text) :: IsLatinTerm(w) || IsCjkTerm(w)
  {
    var s := Lower(text);
    forall w | w in LatinRuns(s) ensures IsLatinTerm(w) { LatinRunsAreMaximalRuns(s, w); }
    forall w | w in CjkPairs(s) ensures IsCjkTerm(w) { CjkPairsAreNeighbours(s, w); }
  }

  /** Splitting the stored search text recovers the term list, multiplicities and order included. */
  lemma {:induction false} SearchTextSplitsBack(text: string)
    ensures SplitWords(LexicalText(text)) == LexicalTerms(text)
  {
    TermShapes(text);
    forall w | w in LexicalTerms(text) ensures IsWord(w) {
      assert forall c | c in w :: IsLatin(c) || IsCjk(c);
    }
    SplitJoin(LexicalTerms(text));
  }

  lemma {:induction false} LatinRunsSkip(prefix: string, rest: string)
    requires forall c | c in prefix :: !IsLatin(c)
    ensures LatinRuns(prefix + rest) == LatinRuns(rest)
  {
    if prefix == "" {
      assert prefix + rest == rest;
    } else {
      LatinRunsSkip(prefix[1..], rest);
      assert (prefix + rest)[1..] == prefix[1..] + rest;
      assert prefix[0] in prefix;
    }
  }

  lemma {:induction false} CjkPairsSkip(prefix: string, rest: string)
    requires forall c | c in prefix :: !IsCjk(c)
    ensures CjkPairs(prefix + rest) == CjkPairs(rest)
  {
    if prefix == "" {
      assert prefix + rest == rest;
    } else {
      CjkPairsSkip(prefix[1..], rest);
      assert (prefix + rest)[1..] == prefix[1..] + rest;
      assert prefix[0] in prefix;
    }
  }

  /** Terms of a text that starts with one term followed by a space (or by nothing). */
  lemma {:induction false} FirstTerm(w: string, rest: string)
    requires IsLatinTerm(w) || IsCjkTerm(w)
    requires rest == "" || rest[0] == ' '
    ensures LatinRuns(w + rest) == (if IsLatinTerm(w) then [w] else []) + LatinRuns(rest)
    ensures CjkPairs(w + rest) == (if IsLatinTerm(w) then [] else [w]) + CjkPairs(rest)
  {
    var s := w + rest;
    if IsLatinTerm(w) {
      forall i | 0 <= i < |w| ensures IsLatin(s[i]) { assert w[i] in w; }
      assert rest != "" ==> s[|w|] == rest[0];
      assert LatinPrefix(s) == |w|;
      assert s[..|w|] == w && s[|w|..] == rest;
      CjkPairsSkip(w, rest);
    } else {
      assert forall c | c in w :: c == w[0] || c == w[1];
      LatinRunsSkip(w, rest);
      assert s[..2] == w && s[1..][0] == w[1];
      assert s[1..][1..] == rest;
      assert CjkPairs(s[1..]) == CjkPairs(rest);
    }
  }

  lemma {:induction false} JoinedTerms(latin: seq<string>, cjk: seq<string>)
    requires forall w | w in latin :: IsLatinTerm(w)
    requires forall w | w in cjk :: IsCjkTerm(w)
    ensures LatinRuns(Join(' ', latin + cjk)) == latin
    ensures CjkPairs(Join(' ', latin + cjk)) == cjk
    decreases |latin + cjk|
  {
    var all := latin + cjk;
    if latin != [] {
      assert all[1..] == latin[1..] + cjk;
      JoinedTerms(latin[1..], cjk);
      JoinFirstTerm(all);
      assert [latin[0]] + latin[1..] == latin;
    } else if cjk != [] {
      assert all == cjk && cjk[1..] == [] + cjk[1..];
      JoinedTerms([], cjk[1..]);
      assert IsCjkTerm(all[0]);
      assert all[0][0] in all[0];
      JoinFirstTerm(all);
      assert [cjk[0]] + cjk[1..] == cjk;
    }
  }

  /** A term, a space and more. */
  lemma FirstTermSpaced(w: string, rest: string)
    requires IsLatinTerm(w) || IsCjkTerm(w)
    ensures LatinRuns(w + (" " + rest)) == (if IsLatinTerm(w) then [w] else []) + LatinRuns(rest)
    ensures CjkPairs(w + (" " + rest)) == (if IsLatinTerm(w) then [] else [w]) + CjkPairs(rest)
  {
    FirstTerm(w, " " + rest);
    LatinRunsSkip(" ", rest);
    CjkPairsSkip(" ", rest);
  }

  lemma JoinTwo(all: seq<string>)
    requires |all| > 1
    ensures Join(' ', all) == all[0] + (" " + Join(' ', all[1..]))
  {
  }

  lemma JoinFirstTerm(all: seq<string>)
    requires all != [] && (IsLatinTerm(all[0]) || IsCjkTerm(all[0]))
    ensures LatinRuns(Join(' ', all)) == (if IsLatinTerm(all[0]) then [all[0]] else []) + LatinRuns(Join(' ', all[1..]))
    ensures CjkPairs(Join(' ', all)) == (if IsLatinTerm(all[0]) then [] else [all[0]]) + CjkPairs(Join(' ', all[1..]))
  {
    if |all| == 1 {
      FirstTerm(all[0], "");
      assert all[0] + "" == all[0];
    } else {
      JoinTwo(all);
      FirstTermSpaced(all[0], Join(' ', all[1..]));
    }
  }

  lemma JoinChars(parts: seq<string>, c: char)
    requires c in Join(' ', parts)
    ensures c == ' ' || exists w :: w in parts && c in w
  {
  }

  /** Normalisation is idempotent: indexing an already normalised text changes nothing. */
  lemma {:induction false} NormalizationIsIdempotent(text: string)
    ensures LexicalTerms(LexicalText(text)) == LexicalTerms(text)
    ensures LexicalText(LexicalText(text)) == LexicalText(text)
  {
    var s, joined := Lower(text), LexicalText(text);
    TermShapes(text);
    forall i | 0 <= i < |joined| ensures LowerChar(joined[i]) == joined[i] {
      JoinChars(LexicalTerms(text), joined[i]);
      if joined[i] != ' ' {
        var w :| w in LexicalTerms(text) && joined[i] in w;
        assert IsLatinTerm(w) || IsCjkTerm(w);
        assert IsLatin(joined[i]) || IsCjk(joined[i]);
      }
    }
    assert Lower(joined) == joined;
    JoinedTerms(LatinRuns(s), CjkPairs(s));
  }
}
