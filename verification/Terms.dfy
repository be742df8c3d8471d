/** backend/text_index.py: the terms of a text, by the places in the text itself at which they stand. */
module Terms {
  import opened Text
  import opened TextIndex

  /** A letter in either case, a digit, an underscore or a hyphen; the Kelvin sign (U+212A) counts as the letter k. */
  predicate IsWordChar(c: char) {
    'a' <= c <= 'z' || 'A' <= c <= 'Z' || '0' <= c <= '9' || c == '_' || c == '-' || c == '\U{212A}'
  }

  predicate IsHan(c: char) {
    '\U{4E00}' <= c <= '\U{9FFF}'
  }

  /** `small` is c in lower case. */
  predicate IsSmall(small: char, c: char) {
    if 'A' <= c <= 'Z' then 'a' <= small <= 'z' && small as int - 'a' as int == c as int - 'A' as int
    else if c == '\U{212A}' then small == 'k'
    else small == c
  }

  /** A stretch of two or more word characters that cannot be extended. */
  ghost predicate IsWordRun(text: string, a: nat, b: nat) {
    a + 2 <= b <= |text| && (forall i | a <= i < b :: IsWordChar(text[i]))
    && (a > 0 ==> !IsWordChar(text[a - 1])) && (b < |text| ==> !IsWordChar(text[b]))
  }

  /** The stretch text[a..b] in lower case. */
  predicate IsLowered(term: string, text: string, a: nat, b: nat) {
    a <= b <= |text| && |term| == b - a && forall j | 0 <= j < |term| :: IsSmall(term[j], text[a + j])
  }

  lemma LowerFacts(c: char)
    ensures IsSmall(LowerChar(c), c)
    ensures IsLatin(LowerChar(c)) <==> IsWordChar(c)
    ensures IsCjk(LowerChar(c)) <==> IsHan(c)
    ensures IsHan(c) ==> LowerChar(c) == c
  {
  }

  lemma RunsAreWordRuns(text: string, a: nat, b: nat)
    ensures LongRun(Lower(text), a, b) <==> IsWordRun(text, a, b)
  {
    forall i | 0 <= i < |text| ensures IsLatin(Lower(text)[i]) <==> IsWordChar(text[i]) { LowerFacts(text[i]); }
  }

  /** Two neighbouring Han characters. */
  predicate IsHanPair(text: string, a: nat) {
    a + 2 <= |text| && IsHan(text[a]) && IsHan(text[a + 1])
  }

  lemma PairsAreHanPairs(text: string, a: nat)
    ensures PairStarts(Lower(text), a) <==> IsHanPair(text, a)
    ensures IsHanPair(text, a) ==> Lower(text)[a..a + 2] == text[a..a + 2]
  {
    forall i | 0 <= i < |text| ensures IsCjk(Lower(text)[i]) <==> IsHan(text[i]) { LowerFacts(text[i]); }
    if IsHanPair(text, a) {
      LowerFacts(text[a]);
      LowerFacts(text[a + 1]);
    }
  }

  lemma RunIsLowered(text: string, a: nat, b: nat)
    requires a <= b <= |text|
    ensures IsLowered(Lower(text)[a..b], text, a, b)
  {
    forall j | 0 <= j < b - a ensures IsSmall(Lower(text)[a..b][j], text[a + j]) { LowerFacts(text[a + j]); }
  }

  ghost function WordRuns(text: string): (nat, nat) -> bool {
    (a: nat, b: nat) => IsWordRun(text, a, b)
  }

  function HanPairs(text: string): nat -> bool {
    (a: nat) => IsHanPair(text, a)
  }

  lemma SameRunList(long: (nat, nat) -> bool, other: (nat, nat) -> bool, runs: seq<(nat, nat)>)
    requires RunList(long, 0, runs) && forall a: nat, b: nat :: long(a, b) == other(a, b)
    ensures RunList(other, 0, runs)
  {
  }

  lemma SamePairList(starts: nat -> bool, other: nat -> bool, list: seq<nat>)
    requires PairList(starts, 0, list) && forall a: nat :: starts(a) == other(a)
    ensures PairList(other, 0, list)
  {
  }

  ghost predicate AreLowered(terms: seq<string>, text: string, runs: seq<(nat, nat)>) {
    |terms| == |runs| && forall i | 0 <= i < |runs| :: IsLowered(terms[i], text, runs[i].0, runs[i].1)
  }

  ghost predicate AreQuoted(terms: seq<string>, text: string, pairs: seq<nat>) {
    |terms| == |pairs|
    && forall i | 0 <= i < |pairs| :: pairs[i] + 2 <= |text| && terms[i] == text[pairs[i]..pairs[i] + 2]
  }

  lemma SpelledAreLowered(text: string, terms: seq<string>, runs: seq<(nat, nat)>)
    requires Spells(Lower(text), terms, runs)
    ensures AreLowered(terms, text, runs)
  {
    forall i | 0 <= i < |runs| ensures IsLowered(terms[i], text, runs[i].0, runs[i].1) {
      RunIsLowered(text, runs[i].0, runs[i].1);
    }
  }

  lemma SpelledAreQuoted(text: string, terms: seq<string>, pairs: seq<nat>)
    requires SpellsPairs(Lower(text), terms, pairs) && forall i | 0 <= i < |pairs| :: IsPairStart(Lower(text))(pairs[i])
    ensures AreQuoted(terms, text, pairs)
  {
    forall i | 0 <= i < |pairs| ensures pairs[i] + 2 <= |text| && terms[i] == text[pairs[i]..pairs[i] + 2] {
      PairsAreHanPairs(text, pairs[i]);
    }
  }

  lemma WordTerms(text: string, runs: seq<(nat, nat)>)
    requires runs == RunsFrom(Lower(text), 0)
    ensures RunList(WordRuns(text), 0, runs) && AreLowered(LatinRuns(Lower(text)), text, runs)
  {
    LatinRunsInOrder(Lower(text));
    forall a: nat, b: nat ensures IsLongRun(Lower(text))(a, b) == WordRuns(text)(a, b) { RunsAreWordRuns(text, a, b); }
    SameRunList(IsLongRun(Lower(text)), WordRuns(text), runs);
    SpelledAreLowered(text, LatinRuns(Lower(text)), runs);
  }

  lemma HanTerms(text: string, pairs: seq<nat>)
    requires pairs == PairsFrom(Lower(text), 0)
    ensures PairList(HanPairs(text), 0, pairs) && AreQuoted(CjkPairs(Lower(text)), text, pairs)
  {
    CjkPairsInOrder(Lower(text));
    forall a: nat ensures IsPairStart(Lower(text))(a) == HanPairs(text)(a) { PairsAreHanPairs(text, a); }
    SamePairList(IsPairStart(Lower(text)), HanPairs(text), pairs);
    SpelledAreQuoted(text, CjkPairs(Lower(text)), pairs);
  }

  /**
   * The terms of a text are its runs of word characters in lower case, left to right, and after them its pairs of
   * neighbouring Han characters, left to right; each place once.
   */
  lemma TermsOfText(text: string) returns (words: seq<string>, runs: seq<(nat, nat)>, han: seq<string>, pairs: seq<nat>)
    ensures LexicalTerms(text) == words + han
    ensures RunList(WordRuns(text), 0, runs) && AreLowered(words, text, runs)
    ensures PairList(HanPairs(text), 0, pairs) && AreQuoted(han, text, pairs)
  {
    words, runs, han, pairs := LatinRuns(Lower(text)), RunsFrom(Lower(text), 0), CjkPairs(Lower(text)), PairsFrom(Lower(text), 0);
    WordTerms(text, runs);
    HanTerms(text, pairs);
  }
}
