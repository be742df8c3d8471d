/** ingestion/service.py, lines 16-26: which failures of the embedding service are worth another attempt, and what follows. */
module EmbeddingFailures {
  import opened Text
  import opened Governance
  import Queue = JobQueue
  import opened Worker
  import Chunker

  // ----- numbers as they are written -----

  function Digit(d: nat): (c: char)
    requires d < 10
    ensures IsDigit(c) && c as int - '0' as int == d
  {
    (d + '0' as int) as char
  }

  /** A number in decimal digits. */
  function Decimal(n: nat): (s: string)
    ensures s != ""
  {
    if n < 10 then [Digit(n)] else Decimal(n / 10) + [Digit(n % 10)]
  }

  lemma DecimalStep(q: nat, d: nat)
    requires q > 0 && d < 10
    ensures Decimal(q * 10 + d) == Decimal(q) + [Digit(d)]
  {
    assert (q * 10 + d) / 10 == q && (q * 10 + d) % 10 == d;
  }

  function Zeros(k: nat): string {
    if k == 0 then "" else Zeros(k - 1) + "0"
  }

  /** The text is the number, with leading zeros, a plus sign and white space around it at most. */
  ghost predicate Writes(text: string, n: nat) {
    exists k: nat :: Strip(text) == Zeros(k) + Decimal(n) || Strip(text) == "+" + (Zeros(k) + Decimal(n))
  }

  predicate AllDigits(s: string) {
    s != "" && forall c | c in s :: IsDigit(c)
  }

  lemma ValueSnoc(s: string, c: char)
    requires (forall x | x in s :: IsDigit(x)) && IsDigit(c)
    ensures AllDigits(s + [c])
    ensures DigitsValue(s + [c]) == DigitsValue(s) * 10 + (c as int - '0' as int)
  {
    var t := s + [c];
    assert t[..|t| - 1] == s && t[|t| - 1] == c;
  }

  lemma {:induction false} OnlyZeros(k: nat)
    ensures (forall c | c in Zeros(k) :: IsDigit(c)) && DigitsValue(Zeros(k)) == 0
  {
    if k > 0 {
      OnlyZeros(k - 1);
      ValueSnoc(Zeros(k - 1), '0');
    }
  }

  /** What is written behind zeros is read back. */
  lemma {:induction false} ZerosAreRead(k: nat, n: nat)
    ensures AllDigits(Zeros(k) + Decimal(n)) && DigitsValue(Zeros(k) + Decimal(n)) == n
    decreases n
  {
    if n < 10 {
      OnlyZeros(k);
      ValueSnoc(Zeros(k), Digit(n));
    } else {
      var q, d := n / 10, n % 10;
      ZerosAreRead(k, q);
      ValueSnoc(Zeros(k) + Decimal(q), Digit(d));
      assert Zeros(k) + Decimal(n) == Zeros(k) + Decimal(q) + [Digit(d)];
    }
  }

  lemma DigitOf(c: char)
    requires IsDigit(c)
    ensures 0 <= c as int - '0' as int < 10 && Digit(c as int - '0' as int) == c
  {
  }

  lemma AppendDigit(k: nat, v: nat, c: char) returns (more: nat)
    requires IsDigit(c)
    ensures Zeros(k) + Decimal(v) + [c] == Zeros(more) + Decimal(v * 10 + (c as int - '0' as int))
  {
    var d := c as int - '0' as int;
    DigitOf(c);
    if v == 0 {
      more := k + 1;
      assert Decimal(0) == "0";
    } else {
      more := k;
      DecimalStep(v, d);
      assert Zeros(k) + Decimal(v) + [c] == Zeros(k) + (Decimal(v) + [c]);
    }
  }

  /** Whatever digits are read, they are the number behind zeros. */
  lemma {:induction false} DigitsAreWritten(s: string) returns (k: nat)
    requires AllDigits(s)
    ensures s == Zeros(k) + Decimal(DigitsValue(s))
    decreases |s|
  {
    var p, c := s[..|s| - 1], s[|s| - 1];
    assert s == p + [c] && c in s && forall x | x in p :: x in s;
    ValueSnoc(p, c);
    if p == "" {
      k := OneDigit(c);
    } else {
      k := DigitsAreWritten(p);
      k := AppendDigit(k, DigitsValue(p), c);
    }
  }

  lemma OneDigit(c: char) returns (k: nat)
    requires IsDigit(c)
    ensures [c] == Zeros(k) + Decimal(DigitsValue([c]))
  {
    k := 0;
    DigitOf(c);
    ValueSnoc("", c);
    assert "" + [c] == [c];
  }

  /** Reading is exact: a status is read from a text exactly when the text writes it. */
  lemma ReadsIffWritten(text: string, n: nat)
    ensures ParseInt(text) == Some(n) <==> Writes(text, n)
  {
    var t := Unsigned(Strip(text));
    if ParseInt(text) == Some(n) {
      var k := DigitsAreWritten(t);
      assert "+" <= Strip(text) ==> Strip(text) == "+" + t;
    }
    if Writes(text, n) {
      var k: nat :| Strip(text) == Zeros(k) + Decimal(n) || Strip(text) == "+" + (Zeros(k) + Decimal(n));
      ZerosAreRead(k, n);
      NoSign(Zeros(k) + Decimal(n));
    }
  }

  lemma NoSign(digits: string)
    requires AllDigits(digits)
    ensures Unsigned(digits) == digits && Unsigned("+" + digits) == digits
  {
    assert digits[0] in digits;
  }

  // ----- codes -----

  /** The code names an HTTP status, behind its last underscore. */
  ghost predicate NamesStatus(code: string, n: nat) {
    "embedding_http_" <= code
    && exists head, tail :: code == head + "_" + tail && '_' !in tail && Writes(tail, n)
  }

  /** The failures that pass: the service was too slow, not there, overloaded or broken. */
  ghost predicate IsTransient(code: string) {
    code == "embedding_timeout" || code == "embedding_unavailable"
    || exists n: nat :: (n == 429 || n >= 500) && NamesStatus(code, n)
  }

  lemma {:induction false} LastUnderscore(head: string, tail: string)
    requires '_' !in tail
    ensures AfterLastUnderscore(head + "_" + tail) == tail
    decreases |tail|
  {
    var s := head + "_" + tail;
    if tail != "" {
      var front := tail[..|tail| - 1];
      assert tail == front + [tail[|tail| - 1]] && tail[|tail| - 1] in tail;
      assert s[..|s| - 1] == head + "_" + front && s[|s| - 1] == tail[|tail| - 1];
      LastUnderscore(head, front);
    }
  }

  lemma {:induction false} SplitAtLast(s: string) returns (head: string)
    requires '_' in s
    ensures s == head + "_" + AfterLastUnderscore(s) && '_' !in AfterLastUnderscore(s)
    decreases |s|
  {
    var front, c := s[..|s| - 1], s[|s| - 1];
    assert s == front + [c];
    if c == '_' {
      head := front;
    } else {
      assert '_' in front;
      head := SplitAtLast(front);
      assert s == head + "_" + (AfterLastUnderscore(front) + [c]);
    }
  }

  lemma StatusIsNamed(code: string, n: nat)
    requires "embedding_http_" <= code
    ensures NamesStatus(code, n) <==> ParseInt(AfterLastUnderscore(code)) == Some(n)
  {
    assert code[9] == '_';
    var head := SplitAtLast(code);
    ReadsIffWritten(AfterLastUnderscore(code), n);
    if NamesStatus(code, n) {
      var h, t :| code == h + "_" + t && '_' !in t && Writes(t, n);
      LastUnderscore(h, t);
    }
  }

  /** The classification, for every code. */
  lemma RetryableIffTransient(code: string)
    ensures EmbeddingRetryable(code) <==> IsTransient(code)
  {
    if "embedding_http_" <= code {
      forall n: nat ensures NamesStatus(code, n) <==> ParseInt(AfterLastUnderscore(code)) == Some(n) {
        StatusIsNamed(code, n);
      }
    }
  }

  lemma {:induction false} DigitsAreClean(s: string)
    requires AllDigits(s)
    ensures '_' !in s && Strip(s) == s
  {
    assert forall i | 0 <= i < |s| :: s[i] in s;
  }

  lemma DecimalWritesOnly(status: nat, n: nat)
    ensures Writes(Decimal(status), n) <==> n == status
    ensures '_' !in Decimal(status)
  {
    ZerosAreRead(0, status);
    assert Zeros(0) + Decimal(status) == Decimal(status);
    DigitsAreClean(Decimal(status));
    NoSign(Decimal(status));
    ReadsIffWritten(Decimal(status), n);
  }

  lemma ClientCodeNames(status: nat, n: nat)
    ensures NamesStatus("embedding_http_" + Decimal(status), n) <==> n == status
  {
    var text := Decimal(status);
    var code := "embedding_http_" + text;
    DecimalWritesOnly(status, n);
    assert code == "embedding_http" + "_" + text;
    LastUnderscore("embedding_http", text);
    StatusIsNamed(code, n);
    ReadsIffWritten(text, n);
  }

  /** The codes that the client builds, `embedding_http_` and the status in decimal: 429 and the 5xx pass, the others do not. */
  lemma HttpStatusIsTransientIff(status: nat)
    ensures IsTransient("embedding_http_" + Decimal(status)) <==> status == 429 || status >= 500
  {
    var code := "embedding_http_" + Decimal(status);
    assert code[10] == 'h' && "embedding_timeout"[10] == 't' && "embedding_unavailable"[10] == 'u';
    ClientCodeNames(status, status);
    forall n: nat | NamesStatus(code, n) ensures n == status { ClientCodeNames(status, n); }
  }

  // ----- what follows for the job and the version -----

  /** A failure that is over on this attempt, or puts job and version back in the queue while attempts are left. */
  ghost predicate EndsAs(again: bool, kind: Queue.JobKind, status: Status, world: World, reviewMode: bool, attempts: nat,
      limit: nat)
  {
    var job := JobOutcome(IndexingVerdict(kind, status, world), attempts, limit);
    var version := FinalStatus(kind, status, world, reviewMode, attempts, limit);
    if again && attempts < limit then job == Queue.Waiting && version == Queued
    else job == Queue.JobFailed && version == Failed
  }

  /** The version can be indexed: an import finds it queued or processing, a reindex in any status but two. */
  predicate CanIndex(kind: Queue.JobKind, status: Status) {
    (kind == Queue.ImportJob && status in {Queued, Processing})
    || (kind == Queue.ReindexJob && status !in {Rejected, Withdrawn})
  }

  lemma CallVerdict(kind: Queue.JobKind, status: Status, pieces: seq<Chunker.Piece>, code: string, evaluated: Evaluated,
                    reviewMode: bool)
    requires CanIndex(kind, status)
    ensures var world := World(SourceFound, Chunked(pieces), EmbeddingError(code), evaluated);
            IndexingVerdict(kind, status, world) == Failure(code, EmbeddingRetryable(code))
            && BodyStatus(kind, status, world, reviewMode) == Processing
  {
  }

  lemma EndsByVerdict(again: bool, code: string, kind: Queue.JobKind, status: Status, world: World, reviewMode: bool,
                      attempts: nat, limit: nat)
    requires IndexingVerdict(kind, status, world) == Failure(code, again)
    requires BodyStatus(kind, status, world, reviewMode) == Processing
    ensures EndsAs(again, kind, status, world, reviewMode, attempts, limit)
  {
  }

  /** The embedding call fails with a code: another attempt exactly for the transient ones. */
  lemma FailedCallEnds(kind: Queue.JobKind, status: Status, pieces: seq<Chunker.Piece>, code: string, evaluated: Evaluated,
                       reviewMode: bool, attempts: nat, limit: nat)
    requires CanIndex(kind, status)
    ensures EndsAs(IsTransient(code), kind, status, World(SourceFound, Chunked(pieces), EmbeddingError(code), evaluated),
                   reviewMode, attempts, limit)
  {
    CallVerdict(kind, status, pieces, code, evaluated, reviewMode);
    RetryableIffTransient(code);
    EndsByVerdict(EmbeddingRetryable(code), code, kind, status,
                  World(SourceFound, Chunked(pieces), EmbeddingError(code), evaluated), reviewMode, attempts, limit);
  }

  /**
   * Every other end of the body: an unreadable source or a crash in the embedding call is tried again; a missing source,
   * a failed parse, a document without a piece or a count that does not fit is final; otherwise the version is stored.
   */
  lemma OtherwiseEnds(kind: Queue.JobKind, status: Status, world: World, reviewMode: bool, attempts: nat, limit: nat)
    requires CanIndex(kind, status) && !world.embedded.EmbeddingError?
    ensures if world.source == SourceMissing then EndsAs(false, kind, status, world, reviewMode, attempts, limit)
            else if world.source == SourceError then
              JobOutcome(IndexingVerdict(kind, status, world), attempts, limit)
              == (if attempts < limit then Queue.Waiting else Queue.JobFailed)
            else if world.parsed == ParseFailed then EndsAs(false, kind, status, world, reviewMode, attempts, limit)
            else if world.embedded == EmbeddingCrash then EndsAs(true, kind, status, world, reviewMode, attempts, limit)
            else if world.parsed.pieces == [] || |world.parsed.pieces| != |world.embedded.vectors| then
              EndsAs(false, kind, status, world, reviewMode, attempts, limit)
            else
              JobOutcome(IndexingVerdict(kind, status, world), attempts, limit) == Queue.Succeeded
              && FinalStatus(kind, status, world, reviewMode, attempts, limit) == if reviewMode then Staged else Indexed
  {
  }

  /** Every failure of an execution carries a code that says what went wrong. */
  lemma FailureSaysWhy(kind: Queue.JobKind, status: Status, world: World)
    requires CanIndex(kind, status) && IndexingVerdict(kind, status, world).Failure?
    ensures IndexingVerdict(kind, status, world).code ==
              if world.source == SourceMissing then "source_missing"
              else if world.source == SourceError then "worker_error"
              else if world.parsed == ParseFailed then "parse_failed"
              else
                match world.embedded
                case EmbeddingError(code) => code
                case EmbeddingCrash => "worker_error"
                case Vectors(_) => "job_target_missing"
  {
  }
}
