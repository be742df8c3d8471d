/** backend/evaluation.py, lines 42-77: claims, and how many of them the context supports. */
module Faithfulness {
  import opened Text
  import opened Lists
  import opened TextIndex

  // ----- rounding to four places -----

  function RoundEven(x: real): int {
    var f := x.Floor;
    var d := x - f as real;
    if d < 0.5 || (d == 0.5 && f % 2 == 0) then f else f + 1
  }

  /** `round(x, 4)`: to the nearest, ties to even. */
  function Round4(x: real): real {
    RoundEven(x * 10000.0) as real / 10000.0
  }

  lemma RoundEvenIsMonotone(x: real, y: real)
    requires x <= y
    ensures RoundEven(x) <= RoundEven(y)
  {
  }

  lemma Scale(a: real, b: real)
    ensures a <= b ==> a * 10000.0 <= b * 10000.0 && a / 10000.0 <= b / 10000.0
  {
  }

  /** Rounding keeps order, so metrics compared after rounding compare as before. */
  lemma Round4IsMonotone(x: real, y: real)
    requires x <= y
    ensures Round4(x) <= Round4(y)
  {
    Scale(x, y);
    RoundEvenIsMonotone(x * 10000.0, y * 10000.0);
    Scale(RoundEven(x * 10000.0) as real, RoundEven(y * 10000.0) as real);
  }

  lemma Round4OfUnit(x: real)
    ensures Round4(0.0) == 0.0 && Round4(1.0) == 1.0
    ensures 0.0 <= x <= 1.0 ==> 0.0 <= Round4(x) <= 1.0
  {
  }

  // ----- claims -----

  /** The sentence delimiters, Latin and full-width, and the line feed. */
  predicate IsDelimiter(c: char) {
    c == '.' || c == '!' || c == '?' || c == '\n' || c as int == 0x3002 || c as int == 0xFF01 || c as int == 0xFF1F
  }

  /** Where the part that starts at position i ends: the first delimiter from there on, or the end. */
  function PartEnd(text: string, i: nat): (e: nat)
    requires i <= |text|
    ensures i <= e <= |text|
    ensures forall k | i <= k < e :: !IsDelimiter(text[k])
    ensures e < |text| ==> IsDelimiter(text[e])
    decreases |text| - i
  {
    if i == |text| || IsDelimiter(text[i]) then i else PartEnd(text, i + 1)
  }

  /** `re.split`, as bounds. A run of delimiters is one separator there; here it only adds empty parts. */
  function Bounds(text: string, i: nat): seq<(nat, nat)>
    requires i <= |text|
    decreases |text| - i
  {
    var e := PartEnd(text, i);
    [(i, e)] + if e == |text| then [] else Bounds(text, e + 1)
  }

  function PartAt(text: string): ((nat, nat)) -> string {
    (b: (nat, nat)) => if b.0 <= b.1 <= |text| then Strip(text[b.0..b.1]) else ""
  }

  /** The stripped parts that are not blank. */
  function SplitClaims(text: string): seq<string> {
    Filter(NotEmpty(), MapSeq(PartAt(text), Bounds(text, 0)))
  }

  function NotEmpty(): string -> bool {
    (s: string) => s != ""
  }

  function TermSet(text: string): set<string> {
    set t | t in LexicalTerms(text)
  }

  /** The terms of a claim that are checked. */
  function CheckableTerms(claim: string): set<string> {
    set t | t in LexicalTerms(claim) && |t| >= 2
  }

  predicate Supported(claim: string, context: set<string>) {
    var terms := CheckableTerms(claim);
    terms == {} || |terms * context| as real / |terms| as real >= 0.5
  }

  function SupportedBy(context: set<string>): string -> bool {
    (claim: string) => Supported(claim, context)
  }

  function SupportedCount(claims: seq<string>, context: set<string>): (n: nat)
    ensures n <= |claims|
  {
    FilterShrinks(SupportedBy(context), claims);
    |Filter(SupportedBy(context), claims)|
  }

  function Share(part: nat, whole: nat): (r: real)
    requires part <= whole && whole > 0
    ensures 0.0 <= r <= 1.0
    ensures r == 1.0 <==> part == whole
  {
    ShareBounds(part as real, whole as real);
    part as real / whole as real
  }

  lemma ShareBounds(part: real, whole: real)
    requires 0.0 <= part <= whole && whole > 0.0
    ensures 0.0 <= part / whole <= 1.0
    ensures part / whole == 1.0 <==> part == whole
  {
  }

  /** The score once the claims and the context's terms are known. */
  function ScoreOf(claims: seq<string>, contextTerms: set<string>): real {
    if claims == [] then 1.0
    else if contextTerms == {} then 0.0
    else Round4(Share(SupportedCount(claims, contextTerms), |claims|))
  }

  function Score(answer: string, context: string): real {
    ScoreOf(SplitClaims(answer), TermSet(context))
  }

  method ScoreFaithfulness(answer: string, context: string) returns (score: real)
    ensures score == Score(answer, context)
  {
    score := ScoreClaims(SplitClaims(answer), TermSet(context));
  }

  method ScoreClaims(claims: seq<string>, contextTerms: set<string>) returns (score: real)
    ensures score == ScoreOf(claims, contextTerms)
  {
    if claims == [] {
      return 1.0;
    }
    if contextTerms == {} {
      return 0.0;
    }
    var supported := CountIf(SupportedBy(contextTerms), claims);
    FilterShrinks(SupportedBy(contextTerms), claims);
    return Round4(Share(supported, |claims|));
  }

  // ----- a quotation keeps its terms -----

  /** text[a..b] is cut where no Latin run can continue. */
  predicate CutCleanly(text: string, a: nat, b: nat) {
    a <= b <= |text|
    && (a == 0 || !IsLatin(LowerChar(text[a - 1])))
    && (b == |text| || !IsLatin(LowerChar(text[b])))
  }

  lemma RunLifts(s: string, a: nat, b: nat, i: int, j: int, w: string)
    requires a <= b <= |s|
    requires (a == 0 || !IsLatin(s[a - 1])) && (b == |s| || !IsLatin(s[b]))
    requires RunAt(s[a..b], i, j, w)
    ensures RunAt(s, a + i, a + j, w)
  {
    var t := s[a..b];
    assert forall k | 0 <= k < |t| :: t[k] == s[a + k];
    forall k | a + i <= k < a + j ensures IsLatin(s[k]) { assert IsLatin(t[k - a]); }
    assert t[i..j] == s[a + i..a + j];
    assert i > 0 ==> s[a + i - 1] == t[i - 1];
    assert j < |t| ==> s[a + j] == t[j];
  }

  lemma PairLifts(s: string, a: nat, b: nat, i: int, w: string)
    requires a <= b <= |s|
    requires PairAt(s[a..b], i, w)
    ensures PairAt(s, a + i, w)
  {
  }

  /** Every term of a quotation is a term of the text it was taken from. */
  lemma QuotationTerms(text: string, a: nat, b: nat, w: string)
    requires CutCleanly(text, a, b) && w in LexicalTerms(text[a..b])
    ensures w in LexicalTerms(text)
  {
    var s := Lower(text);
    assert Lower(text[a..b]) == s[a..b];
    LatinRunsAreMaximalRuns(s[a..b], w);
    LatinRunsAreMaximalRuns(s, w);
    CjkPairsAreNeighbours(s[a..b], w);
    CjkPairsAreNeighbours(s, w);
    if HasRun(s[a..b], w) {
      var i, j :| RunAt(s[a..b], i, j, w);
      RunLifts(s, a, b, i, j, w);
    } else {
      var i :| PairAt(s[a..b], i, w);
      PairLifts(s, a, b, i, w);
    }
  }

  lemma BreaksRuns(c: char)
    requires IsDelimiter(c) || IsSpace(c)
    ensures !IsLatin(LowerChar(c))
  {
  }

  lemma QuotationTermSet(text: string, a: nat, b: nat)
    requires CutCleanly(text, a, b)
    ensures TermSet(text[a..b]) <= TermSet(text)
  {
    forall w | w in TermSet(text[a..b]) ensures w in TermSet(text) {
      QuotationTerms(text, a, b, w);
    }
  }

  /** Stripping white space adds no term. */
  lemma StripTerms(s: string)
    ensures TermSet(Strip(s)) <= TermSet(s)
  {
    var a, b := StripStart(s), StripEnd(s);
    if a < b {
      if a > 0 { BreaksRuns(s[a - 1]); }
      if b < |s| { BreaksRuns(s[b]); }
      QuotationTermSet(s, a, b);
    }
  }

  /** text[i..e] lies between delimiters, or ends of the text. */
  predicate IsPart(text: string, i: nat, e: nat) {
    i <= e <= |text| && (i == 0 || IsDelimiter(text[i - 1])) && (e == |text| || IsDelimiter(text[e]))
  }

  lemma {:induction false} BoundsAreParts(text: string, i: nat)
    requires i <= |text| && (i == 0 || IsDelimiter(text[i - 1]))
    ensures forall b | b in Bounds(text, i) :: IsPart(text, b.0, b.1)
    decreases |text| - i
  {
    var e := PartEnd(text, i);
    if e < |text| {
      BoundsAreParts(text, e + 1);
    }
  }

  /** Nor does cutting at delimiters. */
  lemma PartTerms(text: string, i: nat, e: nat)
    requires IsPart(text, i, e)
    ensures TermSet(PartAt(text)((i, e))) <= TermSet(text)
  {
    if i > 0 { BreaksRuns(text[i - 1]); }
    if e < |text| { BreaksRuns(text[e]); }
    QuotationTermSet(text, i, e);
    StripTerms(text[i..e]);
  }

  lemma ClaimIsPart(text: string, claim: string) returns (i: nat, e: nat)
    requires claim in SplitClaims(text)
    ensures IsPart(text, i, e) && claim == PartAt(text)((i, e))
  {
    BoundsAreParts(text, 0);
    var bounds, parts := Bounds(text, 0), MapSeq(PartAt(text), Bounds(text, 0));
    FilterMember(NotEmpty(), parts, claim);
    var k :| 0 <= k < |parts| && parts[k] == claim;
    assert bounds[k] in bounds;
    i, e := bounds[k].0, bounds[k].1;
  }

  /** The terms of every claim are terms of the whole text. */
  lemma ClaimTerms(text: string, claim: string)
    requires claim in SplitClaims(text)
    ensures TermSet(claim) <= TermSet(text)
  {
    var i, e := ClaimIsPart(text, claim);
    PartTerms(text, i, e);
  }

  // ----- the score -----

  lemma ScoreIsAShare(answer: string, context: string)
    ensures 0.0 <= Score(answer, context) <= 1.0
  {
    var claims := SplitClaims(answer);
    if claims != [] {
      Round4OfUnit(Share(SupportedCount(claims, TermSet(context)), |claims|));
    }
  }

  lemma AllSupported(claims: seq<string>, context: set<string>)
    ensures SupportedCount(claims, context) == |claims| <==> forall c | c in claims :: SupportedBy(context)(c)
  {
    FilterFull(SupportedBy(context), claims);
  }

  lemma KnownTermsSupport(claim: string, context: set<string>)
    requires TermSet(claim) <= context
    ensures Supported(claim, context)
  {
    var terms := CheckableTerms(claim);
    assert terms * context == terms;
    if terms != {} {
      ShareBounds(|terms| as real, |terms| as real);
    }
  }

  /** An answer that uses no term outside the context is fully faithful. */
  lemma KnownTermsScoreOne(answer: string, context: string)
    requires TermSet(answer) <= TermSet(context) && TermSet(context) != {}
    ensures Score(answer, context) == 1.0
  {
    var claims := SplitClaims(answer);
    forall c | c in claims ensures SupportedBy(TermSet(context))(c) {
      ClaimTerms(answer, c);
      KnownTermsSupport(c, TermSet(context));
    }
    AllSupported(claims, TermSet(context));
    Round4OfUnit(1.0);
  }

  /** A context is faithful to itself exactly when it makes no claim or has a term; otherwise it scores 0. */
  lemma ContextIsFaithfulToItself(context: string)
    ensures Score(context, context) == 1.0 <==> SplitClaims(context) == [] || LexicalTerms(context) != []
    ensures Score(context, context) != 1.0 ==> Score(context, context) == 0.0
  {
    if LexicalTerms(context) != [] {
      assert LexicalTerms(context)[0] in TermSet(context);
      KnownTermsScoreOne(context, context);
    } else {
      assert TermSet(context) == {};
    }
  }

  /** So is any passage quoted from a context that has a term. */
  lemma QuotingIsFaithful(context: string, a: nat, b: nat)
    requires CutCleanly(context, a, b) && LexicalTerms(context) != []
    ensures Score(context[a..b], context) == 1.0
  {
    assert LexicalTerms(context)[0] in TermSet(context);
    QuotationTermSet(context, a, b);
    KnownTermsScoreOne(context[a..b], context);
  }

  lemma OverlapGrows(terms: set<string>, a: set<string>, b: set<string>)
    requires a <= b
    ensures |terms * a| <= |terms * b|
  {
    assert terms * b == terms * a + (terms * b - terms * a);
  }

  lemma SupportGrows(claim: string, a: set<string>, b: set<string>)
    requires a <= b && Supported(claim, a)
    ensures Supported(claim, b)
  {
    var terms := CheckableTerms(claim);
    if terms != {} {
      OverlapGrows(terms, a, b);
      DivisionIsMonotone(|terms * a| as real, |terms * b| as real, |terms| as real);
    }
  }

  lemma DivisionIsMonotone(a: real, b: real, d: real)
    requires a <= b && d > 0.0
    ensures a / d <= b / d
  {
  }

  lemma CountGrows(claims: seq<string>, a: set<string>, b: set<string>)
    requires a <= b
    ensures SupportedCount(claims, a) <= SupportedCount(claims, b)
  {
    forall c | c in claims && SupportedBy(a)(c) ensures SupportedBy(b)(c) {
      SupportGrows(c, a, b);
    }
    FilterCounts(SupportedBy(a), SupportedBy(b), claims);
  }

  /** Retrieving more never lowers the score of the same answer. */
  lemma MoreContextNeverHurts(answer: string, less: string, more: string)
    requires TermSet(less) <= TermSet(more)
    ensures Score(answer, less) <= Score(answer, more)
  {
    var claims := SplitClaims(answer);
    ScoreIsAShare(answer, more);
    if claims != [] && TermSet(less) != {} {
      assert TermSet(more) != {};
      var a, b := SupportedCount(claims, TermSet(less)), SupportedCount(claims, TermSet(more));
      CountGrows(claims, TermSet(less), TermSet(more));
      DivisionIsMonotone(a as real, b as real, |claims| as real);
      Round4IsMonotone(Share(a, |claims|), Share(b, |claims|));
    }
  }

  /** A share rounds up to 1 only when at most one in twenty thousand is missing. */
  lemma RoundsToOne(part: nat, whole: nat)
    requires part <= whole && whole > 0
    ensures Round4(Share(part, whole)) == 1.0 <==> 20000 * (whole - part) <= whole
  {
    NearlyOne(part as real, whole as real);
    assert 20000.0 * (whole as real - part as real) == (20000 * (whole - part)) as real;
    UpToOne(Share(part, whole));
  }

  lemma NearlyOne(part: real, whole: real)
    requires 0.0 <= part <= whole && whole > 0.0
    ensures 10000.0 * (part / whole) >= 9999.5 <==> 20000.0 * (whole - part) <= whole
  {
  }

  lemma UpToOne(x: real)
    requires 0.0 <= x <= 1.0
    ensures Round4(x) == 1.0 <==> 10000.0 * x >= 9999.5
  {
  }

  /** A perfect score means every claim is supported, up to one claim in twenty thousand. */
  lemma PerfectScoreIff(answer: string, context: string)
    requires SplitClaims(answer) != [] && TermSet(context) != {}
    ensures var claims := SplitClaims(answer);
            Score(answer, context) == 1.0 <==> 20000 * (|claims| - SupportedCount(claims, TermSet(context))) <= |claims|
  {
    var claims := SplitClaims(answer);
    RoundsToOne(SupportedCount(claims, TermSet(context)), |claims|);
  }

  // ----- the score, counted -----

  /** A claim counts as supported exactly when at least half of its distinct terms are terms of the context. */
  lemma SupportedIffHalf(claim: string, context: string)
    ensures Supported(claim, TermSet(context)) <==>
              2 * |set t | t in LexicalTerms(claim) && t in LexicalTerms(context)| >= |set t | t in LexicalTerms(claim)|
  {
    var terms, shared := CheckableTerms(claim), CheckableTerms(claim) * TermSet(context);
    TermsAreLong(claim);
    assert terms == set t | t in LexicalTerms(claim);
    assert shared == set t | t in LexicalTerms(claim) && t in LexicalTerms(context);
    if terms != {} {
      AtLeastHalf(|shared|, |terms|);
    }
  }

  lemma TermsAreLong(text: string)
    ensures forall t | t in LexicalTerms(text) :: |t| >= 2
  {
    TermShapes(text);
  }

  lemma AtLeastHalf(part: nat, whole: nat)
    requires whole > 0
    ensures part as real / whole as real >= 0.5 <==> 2 * part >= whole
  {
    HalfOf(part as real, whole as real);
  }

  lemma HalfOf(part: real, whole: real)
    requires whole > 0.0
    ensures part / whole >= 0.5 <==> 2.0 * part >= whole
  {
  }

  /** Which of the claims are supported, by place. */
  ghost function SupportedPlaces(claims: seq<string>, context: string): set<nat> {
    set i: nat | i < |claims|
                 && 2 * |set t | t in LexicalTerms(claims[i]) && t in LexicalTerms(context)| >= |set t | t in LexicalTerms(claims[i])|
  }

  function Anything(): string -> bool {
    (s: string) => true
  }

  /** The score of an answer is the share of its claims that are supported, rounded; an unsupported claim lowers it. */
  lemma ScoreIsSupportedShare(answer: string, context: string)
    ensures var claims := SplitClaims(answer);
            claims != [] ==>
              Score(answer, context) ==
                if LexicalTerms(context) == [] then 0.0
                else Round4(|SupportedPlaces(claims, context)| as real / |claims| as real)
    ensures SplitClaims(answer) == [] ==> Score(answer, context) == 1.0
  {
    var claims := SplitClaims(answer);
    if claims != [] && LexicalTerms(context) != [] {
      assert LexicalTerms(context)[0] in TermSet(context);
      SupportCountsPlaces(claims, context);
    }
  }

  lemma SupportCountsPlaces(claims: seq<string>, context: string)
    ensures SupportedCount(claims, TermSet(context)) == |SupportedPlaces(claims, context)|
  {
    var supports := SupportedBy(TermSet(context));
    FilterCountsPlaces(Anything(), supports, claims, |claims|);
    FilterAll(Anything(), claims);
    assert claims[..|claims|] == claims;
    forall i: nat | i < |claims|
      ensures i in Places(Anything(), supports, claims, |claims|) <==> i in SupportedPlaces(claims, context)
    {
      SupportedIffHalf(claims[i], context);
    }
    assert Places(Anything(), supports, claims, |claims|) == SupportedPlaces(claims, context);
  }

  lemma RoundsToEven(y: real)
    ensures -0.5 <= RoundEven(y) as real - y <= 0.5
    ensures RoundEven(y) as real - y == 0.5 || RoundEven(y) as real - y == -0.5 ==> RoundEven(y) % 2 == 0
  {
  }

  lemma Scaled(n: real, x: real)
    ensures 10000.0 * (n / 10000.0) == n && 10000.0 * (n / 10000.0 - x) == n - x * 10000.0
  {
  }

  /** Rounding gives a multiple of one ten-thousandth that is at most half of one away, an even one if two are. */
  lemma RoundsToNearest(x: real) returns (n: int)
    ensures 10000.0 * Round4(x) == n as real
    ensures -0.5 <= 10000.0 * (Round4(x) - x) <= 0.5
    ensures 10000.0 * (Round4(x) - x) == 0.5 || 10000.0 * (Round4(x) - x) == -0.5 ==> n % 2 == 0
  {
    n := RoundEven(x * 10000.0);
    RoundsToEven(x * 10000.0);
    Scaled(n as real, x);
  }

  // ----- the claims, by place -----

  /** One of the seven characters that end a claim. */
  predicate EndsClaim(c: char) {
    c == '.' || c == '!' || c == '?' || c == '\n' || c == '\U{3002}' || c == '\U{FF01}' || c == '\U{FF1F}'
  }

  /** A stretch between two ends of claims, or ends of the text, that is not blank. */
  ghost predicate IsClaimPlace(text: string, a: nat, b: nat) {
    a <= b <= |text| && (forall i | a <= i < b :: !EndsClaim(text[i])) && !IsBlank(text[a..b])
    && (a > 0 ==> EndsClaim(text[a - 1])) && (b < |text| ==> EndsClaim(text[b]))
  }

  ghost function ClaimPlaces(text: string): (nat, nat) -> bool {
    (a: nat, b: nat) => IsClaimPlace(text, a, b)
  }

  /** A claim may begin here: at the start of the text, after the end of a claim, or past the end of the text. */
  predicate MayBegin(text: string, i: nat) {
    i == 0 || i > |text| || EndsClaim(text[i - 1])
  }

  function OnePlace(text: string, i: nat, e: nat): seq<(nat, nat)>
    requires i <= e <= |text|
  {
    if Strip(text[i..e]) != "" then [(i, e)] else []
  }

  function PlacesFrom(text: string, i: nat): seq<(nat, nat)>
    decreases |text| + 1 - i
  {
    if i > |text| then [] else OnePlace(text, i, PartEnd(text, i)) + PlacesFrom(text, PartEnd(text, i) + 1)
  }

  lemma PlaceAtOrAfter(text: string, i: nat, a: nat, b: nat)
    requires i <= |text| && MayBegin(text, i) && i <= a && IsClaimPlace(text, a, b)
    ensures (a == i && b == PartEnd(text, i)) || PartEnd(text, i) + 1 <= a
  {
    var e := PartEnd(text, i);
    forall k | 0 <= k < |text| ensures IsDelimiter(text[k]) <==> EndsClaim(text[k]) {
    }
    if a == i {
      assert b <= e;
    }
  }

  lemma FirstPlace(text: string, i: nat)
    requires i <= |text| && MayBegin(text, i)
    ensures IsClaimPlace(text, i, PartEnd(text, i)) <==> Strip(text[i..PartEnd(text, i)]) != ""
  {
    forall k | 0 <= k < |text| ensures IsDelimiter(text[k]) <==> EndsClaim(text[k]) {
    }
  }

  lemma NoPlaceAfter(text: string, k: nat)
    requires k > |text|
    ensures RunList(ClaimPlaces(text), k, [])
  {
  }

  lemma PrependPlace(text: string, i: nat, rest: seq<(nat, nat)>)
    requires i <= |text| && MayBegin(text, i)
    requires RunList(ClaimPlaces(text), PartEnd(text, i) + 1, rest)
    ensures RunList(ClaimPlaces(text), i, OnePlace(text, i, PartEnd(text, i)) + rest)
  {
    var e := PartEnd(text, i);
    forall a: nat, b: nat | i <= a && ClaimPlaces(text)(a, b)
      ensures (a == i && b == e && ClaimPlaces(text)(i, e)) || e + 1 <= a
    {
      PlaceAtOrAfter(text, i, a, b);
    }
    FirstPlace(text, i);
    PrependTo(ClaimPlaces(text), i, e, e + 1, rest);
  }

  lemma NextMayBegin(text: string, i: nat)
    requires i <= |text|
    ensures MayBegin(text, PartEnd(text, i) + 1)
  {
  }

  lemma {:induction false} PlacesFromList(text: string, i: nat)
    requires MayBegin(text, i)
    ensures RunList(ClaimPlaces(text), i, PlacesFrom(text, i))
    decreases |text| + 1 - i
  {
    if i > |text| {
      NoPlaceAfter(text, i);
    } else {
      NextMayBegin(text, i);
      PlacesFromList(text, PartEnd(text, i) + 1);
      PrependPlace(text, i, PlacesFrom(text, PartEnd(text, i) + 1));
    }
  }

  lemma OneClaim(text: string, i: nat, e: nat)
    requires i <= e <= |text|
    ensures Filter(NotEmpty(), [PartAt(text)((i, e))]) == MapSeq(PartAt(text), OnePlace(text, i, e))
  {
    FilterOne(NotEmpty(), PartAt(text)((i, e)));
  }

  lemma PrependClaim(text: string, i: nat, e: nat, bounds: seq<(nat, nat)>, kept: seq<(nat, nat)>)
    requires i <= e <= |text| && Filter(NotEmpty(), MapSeq(PartAt(text), bounds)) == MapSeq(PartAt(text), kept)
    ensures Filter(NotEmpty(), MapSeq(PartAt(text), [(i, e)] + bounds)) == MapSeq(PartAt(text), OnePlace(text, i, e) + kept)
  {
    var first: seq<(nat, nat)> := [(i, e)];
    MapConcat(PartAt(text), first, bounds);
    assert MapSeq(PartAt(text), first) == [PartAt(text)((i, e))];
    FilterConcat(NotEmpty(), [PartAt(text)((i, e))], MapSeq(PartAt(text), bounds));
    OneClaim(text, i, e);
    MapConcat(PartAt(text), OnePlace(text, i, e), kept);
  }

  /** The claims among the parts are the parts at the places. */
  ghost predicate SameClaims(text: string, bounds: seq<(nat, nat)>, places: seq<(nat, nat)>) {
    Filter(NotEmpty(), MapSeq(PartAt(text), bounds)) == MapSeq(PartAt(text), places)
  }

  lemma NoClaims(text: string)
    ensures SameClaims(text, [], [])
  {
  }

  lemma ClaimsStep(text: string, i: nat, bounds: seq<(nat, nat)>)
    requires i <= |text| && SameClaims(text, bounds, PlacesFrom(text, PartEnd(text, i) + 1))
    requires Bounds(text, i) == [(i, PartEnd(text, i))] + bounds
    ensures SameClaims(text, Bounds(text, i), PlacesFrom(text, i))
  {
    PrependClaim(text, i, PartEnd(text, i), bounds, PlacesFrom(text, PartEnd(text, i) + 1));
  }

  lemma {:induction false} ClaimsFrom(text: string, i: nat)
    requires i <= |text|
    ensures SameClaims(text, Bounds(text, i), PlacesFrom(text, i))
    decreases |text| - i
  {
    var e := PartEnd(text, i);
    if e == |text| {
      NoClaims(text);
      ClaimsStep(text, i, []);
    } else {
      ClaimsFrom(text, e + 1);
      ClaimsStep(text, i, Bounds(text, e + 1));
    }
  }

  /** The claims of a text are its stretches between sentence ends that are not blank, stripped, in order, each once. */
  lemma ClaimsOfText(text: string) returns (places: seq<(nat, nat)>)
    ensures RunList(ClaimPlaces(text), 0, places) && |SplitClaims(text)| == |places|
    ensures forall k | 0 <= k < |places| ::
              places[k].0 <= places[k].1 <= |text| && SplitClaims(text)[k] == Strip(text[places[k].0..places[k].1])
  {
    places := PlacesFrom(text, 0);
    PlacesFromList(text, 0);
    ClaimsFrom(text, 0);
    forall k | 0 <= k < |places| ensures places[k].0 <= places[k].1 <= |text| {
      assert ClaimPlaces(text)(places[k].0, places[k].1);
    }
  }
}
