/**
 * worker/graph.py: checkpointed indexing of one version by one job. Every durable effect (a database
 * transaction, the staging file, a checkpoint) is one step of its own, and a crash may come between any
 * two of them. Checkpoints belong to the job, but the rows and the staging file belong to the version:
 * while this job is not running, other jobs of the version may clear, restage and write them.
 */
module IndexingGraph {
  import opened Text
  import opened Governance

  /** One entry of the staging file. */
  datatype StagedChunk = StagedChunk(ordinal: nat, heading: string, page: Option<int>, content: string)

  type Vector = seq<real>

  datatype Row = Row(heading: string, page: Option<int>, content: string, embedding: Vector)

  datatype Node = PrepareNode | EmbedNode | FinalizeNode | EndNode

  /** The graph state saved after a node, with the node to run next. */
  datatype Checkpoint = Checkpoint(pending: Node, cursor: nat, batchSize: nat, batchTotal: nat, chunkCount: nat)

  /** Where the running process is; everything in it is lost in a crash. */
  datatype Process =
    | Idle
    | At(node: Node)
    | HasParsed(doc: seq<StagedChunk>)
    | HasMarked(doc: seq<StagedChunk>)
    | HasCleared(doc: seq<StagedChunk>)
    | HasStaged(size: nat)
    | HasVectors(batch: seq<StagedChunk>, vectors: seq<Vector>)
    | HasWritten(advance: bool)
    | HasPublished
    | HasUnlinked

  /**
   * Durable state, plus the process, plus histories that no code reads: the chunks staged last; this job's embedding
   * calls and interruptions since its own prepare; this job's cursor when the rows were last cleared and the ordinals
   * other jobs wrote since; and whether no other job has cleared the rows since this job's own prepare.
   */
  datatype World = World(
    status: Status, rows: map<nat, Row>, chunkCount: nat, staging: Option<seq<StagedChunk>>,
    checkpoint: Option<Checkpoint>, process: Process,
    payload: seq<StagedChunk>, calls: nat, interruptions: nat, from: nat, others: set<nat>, alone: bool)

  const HEADING_LIMIT: nat := 512

  function RowFor(c: StagedChunk, v: Vector): Row {
    Row(Cut(c.heading, HEADING_LIMIT), c.page, c.content, v)
  }

  /** The chunker numbers chunks 0..n-1. */
  predicate Ordered(doc: seq<StagedChunk>) {
    forall i | 0 <= i < |doc| :: doc[i].ordinal == i
  }

  function Batches(n: nat, size: nat): nat
    requires size >= 1
  {
    (n + size - 1) / size
  }

  /** `payload[cursor * size:(cursor + 1) * size]` */
  function Batch(payload: seq<StagedChunk>, cursor: nat, size: nat): seq<StagedChunk> {
    payload[Min(cursor * size, |payload|)..Min((cursor + 1) * size, |payload|)]
  }

  /** replace_document_chunk_batch: the batch's ordinals are deleted, then inserted. */
  function WriteBatch(rows: map<nat, Row>, batch: seq<StagedChunk>, vectors: seq<Vector>): map<nat, Row>
    requires |batch| == |vectors|
    decreases |batch|
  {
    if batch == [] then rows
    else WriteBatch(rows[batch[0].ordinal := RowFor(batch[0], vectors[0])], batch[1..], vectors[1..])
  }

  function Route(c: Checkpoint): Node {
    if c.cursor >= c.batchTotal then FinalizeNode else EmbedNode
  }

  datatype Event =
    | EvStart(size: nat)
    | EvParse(doc: seq<StagedChunk>)
    | EvMark
    | EvClear
    | EvStage
    | EvStagePartly(garbage: seq<StagedChunk>)
    | EvEmbed(vectors: seq<Vector>)
    | EvWrite
    | EvFinalize(publish: bool)
    | EvUnlink
    | EvSave
    | EvCrash
    | EvLoseStaging
    | EvGovern(status: Status)
    | EvOtherClear
    | EvOtherPrepare(doc: seq<StagedChunk>)
    | EvOtherWrite(lo: nat, hi: nat, vectors: seq<Vector>)

  /** The process stops without any further effect. */
  function Stop(w: World): World {
    w.(process := Idle, interruptions := w.interruptions + 1)
  }

  /** run: resume when a checkpoint and its staging file exist, else discard the checkpoint and start over. */
  function Start(w: World, size: nat): World {
    if w.checkpoint.Some? && w.staging.Some? then
      if Indexable(w.status) then w.(status := Processing, process := At(w.checkpoint.value.pending)) else Stop(w)
    else
      w.(checkpoint := Some(Checkpoint(PrepareNode, 0, Max(1, size), 0, 0)), process := At(PrepareNode))
  }

  /** The batch that the pending embed node would work on. */
  function NextBatch(w: World): seq<StagedChunk>
    requires w.checkpoint.Some? && w.staging.Some?
  {
    Batch(w.staging.value, w.checkpoint.value.cursor, w.checkpoint.value.batchSize)
  }

  /** A call that does not return one vector per text is an embedding error. */
  function Embed(w: World, vectors: seq<Vector>): World
    requires w.checkpoint.Some?
  {
    if w.staging.None? then Stop(w)
    else if NextBatch(w) == [] then w.(process := HasWritten(false))
    else if |vectors| != |NextBatch(w)| then Stop(w.(calls := w.calls + 1))
    else w.(calls := w.calls + 1, process := HasVectors(NextBatch(w), vectors))
  }

  /** The checkpoint after a node: prepare resets the cursor, embed_batch advances it unless the batch was empty. */
  function Save(w: World): World
    requires w.checkpoint.Some?
  {
    var c := w.checkpoint.value;
    match w.process
    case HasStaged(n) =>
      w.(checkpoint := Some(Checkpoint(EmbedNode, 0, c.batchSize, Batches(n, Max(1, c.batchSize)), n)),
         process := At(EmbedNode), calls := 0, interruptions := 0, from := 0, others := {}, alone := true)
    case HasWritten(advance) =>
      var advanced := if advance then c.(cursor := c.cursor + 1) else c;
      var next := advanced.(pending := Route(advanced));
      w.(checkpoint := Some(next), process := At(next.pending))
    case HasUnlinked => w.(checkpoint := Some(c.(pending := EndNode)), process := Idle)
    case _ => w
  }

  function CursorOf(w: World): nat {
    if w.checkpoint.Some? then w.checkpoint.value.cursor else 0
  }

  /** Another job's prepare clears the rows, whatever this job had written. */
  function OtherClear(w: World): World {
    w.(rows := map[], from := CursorOf(w), others := {}, alone := false)
  }

  function OrdinalsIn(lo: nat, hi: nat): (os: set<nat>)
    ensures forall o: nat :: o in os <==> lo <= o < hi
    decreases hi - lo
  {
    if lo >= hi then {} else {lo} + OrdinalsIn(lo + 1, hi)
  }

  /** One step; an event that does not fit the state changes nothing. */
  function Step(w: World, e: Event): World {
    match e
    case EvStart(size) => if w.process.Idle? then Start(w, size) else w
    case EvParse(doc) =>
      if w.process != At(PrepareNode) then w
      else if doc == [] || !Ordered(doc) then Stop(w)
      else w.(process := HasParsed(doc))
    case EvMark =>
      if !w.process.HasParsed? then w
      else if !Indexable(w.status) then Stop(w)
      else w.(status := Processing, process := HasMarked(w.process.doc))
    case EvClear => if w.process.HasMarked? then w.(rows := map[], process := HasCleared(w.process.doc)) else w
    case EvStage =>
      if w.process.HasCleared? then
        w.(staging := Some(w.process.doc), payload := w.process.doc, process := HasStaged(|w.process.doc|))
      else w
    case EvStagePartly(garbage) =>
      if w.process.HasCleared? then Stop(w.(staging := Some(garbage))) else w
    case EvEmbed(vectors) =>
      if w.process == At(EmbedNode) && w.checkpoint.Some? then Embed(w, vectors) else w
    case EvWrite =>
      if !w.process.HasVectors? then w
      else if !Indexable(w.status) || |w.process.batch| != |w.process.vectors| then Stop(w)
      else w.(rows := WriteBatch(w.rows, w.process.batch, w.process.vectors), process := HasWritten(true))
    case EvFinalize(publish) =>
      if w.process != At(FinalizeNode) || w.checkpoint.None? then w
      else if !Indexable(w.status) then Stop(w)
      else w.(status := if publish then Indexed else Staged, chunkCount := w.checkpoint.value.chunkCount,
              process := HasPublished)
    case EvUnlink => if w.process.HasPublished? then w.(staging := None, process := HasUnlinked) else w
    case EvSave => if w.checkpoint.Some? then Save(w) else w
    case EvCrash => if w.process.Idle? then w else Stop(w)
    case EvLoseStaging => w.(staging := None)
    case EvGovern(status) => w.(status := status)
    case EvOtherClear => if w.process.Idle? then OtherClear(w) else w
    case EvOtherPrepare(doc) =>
      if !w.process.Idle? || doc == [] || !Ordered(doc) || !Indexable(w.status) then w
      else OtherClear(w).(status := Processing, staging := Some(doc), payload := doc)
    case EvOtherWrite(lo, hi, vectors) =>
      if !w.process.Idle? || !Indexable(w.status) || w.staging != Some(w.payload) || !(lo <= hi <= |w.payload|)
         || |vectors| != hi - lo then w
      else w.(rows := WriteBatch(w.rows, w.payload[lo..hi], vectors), others := w.others + OrdinalsIn(lo, hi))
  }

  function Exec(w: World, events: seq<Event>): World
    decreases |events|
  {
    if events == [] then w else Exec(Step(w, events[0]), events[1..])
  }

  // ----- the invariant -----

  ghost predicate RowMatches(row: Row, c: StagedChunk) {
    row == RowFor(c, row.embedding)
  }

  /**
   * Rows hold only payload chunks: those that other jobs wrote and, from position `lo` on, everything before `sure` and
   * nothing from `most` on.
   */
  ghost predicate Covers(rows: map<nat, Row>, payload: seq<StagedChunk>, others: set<nat>, lo: nat, sure: nat, most: nat) {
    (forall o | o in rows :: o < |payload| && RowMatches(rows[o], payload[o]) && (o in others || lo <= o < most))
    && forall o: nat | o < |payload| && (o in others || lo <= o < sure) :: o in rows
  }

  /** The version's rows are exactly the staged chunks, once each. */
  ghost predicate Exact(w: World) {
    (forall o :: o in w.rows <==> 0 <= o < |w.payload|)
    && (forall o | o in w.rows :: RowMatches(w.rows[o], w.payload[o]))
    && w.chunkCount == |w.payload|
  }

  /** What a checkpoint past the prepare node promises. */
  ghost predicate Sound(w: World, c: Checkpoint) {
    w.payload != [] && Ordered(w.payload) && c.batchSize >= 1
    && c.batchTotal == Batches(c.chunkCount, c.batchSize) && w.from <= c.cursor <= c.batchTotal
    && (c.pending == EmbedNode ==> c.cursor < c.batchTotal) && (c.pending == FinalizeNode ==> c.cursor == c.batchTotal)
    && Covers(w.rows, w.payload, w.others, w.from * c.batchSize, c.cursor * c.batchSize, (c.cursor + 1) * c.batchSize)
    && (w.staging.Some? ==> w.staging.value == w.payload)
    && (w.alone ==> w.from == 0 && c.chunkCount == |w.payload|)
    && c.cursor <= w.calls <= c.cursor + w.interruptions + (if MidRound(w.process) then 1 else 0)
  }

  predicate MidRound(p: Process) {
    p.HasVectors? || (p.HasWritten? && p.advance)
  }

  ghost predicate PastPrepare(w: World) {
    w.checkpoint.Some? && (w.checkpoint.value.pending == EmbedNode || w.checkpoint.value.pending == FinalizeNode)
  }

  /** The process agrees with the checkpoint it last loaded or saved. */
  ghost predicate InStep(w: World) {
    match w.process
    case Idle => true
    case At(node) => w.checkpoint.Some? && w.checkpoint.value.pending == node
    case HasVectors(batch, vectors) =>
      w.checkpoint.Some? && w.checkpoint.value.pending == EmbedNode && |batch| == |vectors|
      && batch == Batch(w.payload, w.checkpoint.value.cursor, w.checkpoint.value.batchSize) && w.calls > w.checkpoint.value.cursor
    case HasWritten(advance) =>
      w.checkpoint.Some? && w.checkpoint.value.pending == EmbedNode
      && (advance ==>
            var c := w.checkpoint.value;
            w.calls > c.cursor
            && Covers(w.rows, w.payload, w.others, w.from * c.batchSize, (c.cursor + 1) * c.batchSize, (c.cursor + 1) * c.batchSize))
    case HasPublished => w.checkpoint.Some? && w.checkpoint.value.pending == FinalizeNode
    case HasUnlinked => w.checkpoint.Some? && w.checkpoint.value.pending == FinalizeNode
    case HasParsed(doc) => Preparing(w) && doc != [] && Ordered(doc)
    case HasMarked(doc) => Preparing(w) && doc != [] && Ordered(doc)
    case HasCleared(doc) => Preparing(w) && doc != [] && Ordered(doc) && w.rows == map[]
    case HasStaged(n) =>
      Preparing(w) && w.payload != [] && Ordered(w.payload) && w.rows == map[] && n == |w.payload|
      && (w.staging.Some? ==> w.staging.value == w.payload)
  }

  ghost predicate Preparing(w: World) {
    w.checkpoint.Some? && w.checkpoint.value.pending == PrepareNode
  }

  ghost predicate GraphOk(w: World) {
    InStep(w)
    && (w.checkpoint.Some? ==> w.checkpoint.value.batchSize >= 1)
    && (PastPrepare(w) ==> Sound(w, w.checkpoint.value))
    && (w.alone && (w.process.HasUnlinked? || (w.checkpoint.Some? && w.checkpoint.value.pending == EndNode)) ==> w.staging.None?)
  }

  // ----- arithmetic of batches -----

  lemma BatchesBound(n: nat, size: nat)
    requires size >= 1
    ensures Batches(n, size) * size >= n
    ensures n > 0 ==> Batches(n, size) >= 1 && (Batches(n, size) - 1) * size < n
  {
  }

  /** A cursor short of the total points at a non-empty batch. */
  lemma BatchNonEmpty(payload: seq<StagedChunk>, cursor: nat, size: nat)
    requires size >= 1 && cursor < Batches(|payload|, size)
    ensures cursor * size < |payload| && Batch(payload, cursor, size) != []
    ensures cursor * size < (cursor + 1) * size
  {
    BatchesBound(|payload|, size);
    assert cursor * size <= (Batches(|payload|, size) - 1) * size;
    assert (cursor + 1) * size == cursor * size + size;
  }

  ghost predicate NumberedFrom(batch: seq<StagedChunk>, lo: nat) {
    forall i | 0 <= i < |batch| :: batch[i].ordinal == lo + i
  }

  lemma NumberedTail(batch: seq<StagedChunk>, lo: nat)
    requires batch != [] && NumberedFrom(batch, lo)
    ensures batch[0].ordinal == lo && NumberedFrom(batch[1..], lo + 1)
  {
  }

  /** What a batch leaves at one ordinal: its own row, or the one before. */
  lemma {:induction false} WriteBatchAt(rows: map<nat, Row>, batch: seq<StagedChunk>, vectors: seq<Vector>, lo: nat, o: int)
    requires |batch| == |vectors| && NumberedFrom(batch, lo)
    ensures var after := WriteBatch(rows, batch, vectors);
            (o in after <==> o in rows || lo <= o < lo + |batch|)
            && (o in after ==>
                  after[o] == if lo <= o < lo + |batch| then RowFor(batch[o - lo], vectors[o - lo]) else rows[o])
    decreases |batch|
  {
    if batch != [] {
      NumberedTail(batch, lo);
      WriteBatchAt(rows[lo := RowFor(batch[0], vectors[0])], batch[1..], vectors[1..], lo + 1, o);
    }
  }

  lemma WriteBatchEffect(rows: map<nat, Row>, batch: seq<StagedChunk>, vectors: seq<Vector>, lo: nat)
    requires |batch| == |vectors| && NumberedFrom(batch, lo)
    ensures var after := WriteBatch(rows, batch, vectors);
            (forall o :: o in after <==> o in rows || lo <= o < lo + |batch|)
            && (forall o | o in after :: after[o] ==
                  if lo <= o < lo + |batch| then RowFor(batch[o - lo], vectors[o - lo]) else rows[o])
  {
    var after := WriteBatch(rows, batch, vectors);
    forall o ensures o in after <==> o in rows || lo <= o < lo + |batch| { WriteBatchAt(rows, batch, vectors, lo, o); }
    forall o | o in after
      ensures after[o] == if lo <= o < lo + |batch| then RowFor(batch[o - lo], vectors[o - lo]) else rows[o]
    {
      WriteBatchAt(rows, batch, vectors, lo, o);
    }
  }

  lemma WriteRange(rows: map<nat, Row>, payload: seq<StagedChunk>, lo: nat, hi: nat, vectors: seq<Vector>)
    requires lo <= hi <= |payload| && |vectors| == hi - lo && Ordered(payload)
    ensures var after := WriteBatch(rows, payload[lo..hi], vectors);
            (forall o :: o in after <==> o in rows || lo <= o < hi)
            && (forall o | o in after :: after[o] == if lo <= o < hi then RowFor(payload[o], vectors[o - lo]) else rows[o])
  {
    var batch := payload[lo..hi];
    forall i | 0 <= i < |batch| ensures batch[i] == payload[lo + i] && batch[i].ordinal == lo + i {}
    WriteBatchEffect(rows, batch, vectors, lo);
    forall o | lo <= o < hi ensures batch[o - lo] == payload[o] {}
  }

  /** Writing what is missing up to `most` extends what is covered to there. */
  lemma WriteExtends(rows: map<nat, Row>, payload: seq<StagedChunk>, others: set<nat>, lo: nat, sure: nat, most: nat,
                     vectors: seq<Vector>)
    requires Ordered(payload) && lo <= sure <= most && Covers(rows, payload, others, lo, sure, most)
    requires |vectors| == Min(most, |payload|) - Min(sure, |payload|)
    ensures var after := WriteBatch(rows, payload[Min(sure, |payload|)..Min(most, |payload|)], vectors);
            Covers(after, payload, others, lo, sure, most) && Covers(after, payload, others, lo, most, most)
  {
    WriteRange(rows, payload, Min(sure, |payload|), Min(most, |payload|), vectors);
  }

  lemma TimesMonotone(a: nat, b: nat, size: nat)
    requires a <= b
    ensures a * size <= b * size
  {
  }

  /** What other jobs write of the payload is covered as theirs. */
  lemma OthersExtend(rows: map<nat, Row>, payload: seq<StagedChunk>, others: set<nat>, from: nat, sure: nat, most: nat,
                     lo: nat, hi: nat, vectors: seq<Vector>)
    requires Ordered(payload) && lo <= hi <= |payload| && |vectors| == hi - lo
    requires Covers(rows, payload, others, from, sure, most)
    ensures Covers(WriteBatch(rows, payload[lo..hi], vectors), payload, others + OrdinalsIn(lo, hi), from, sure, most)
  {
    WriteRange(rows, payload, lo, hi, vectors);
  }

  // ----- every step keeps the invariant -----

  lemma StopKeeps(w: World)
    requires GraphOk(w)
    ensures GraphOk(Stop(w))
  {
  }

  lemma EmptyRoundKeeps(w: World)
    requires GraphOk(w) && w.process == At(EmbedNode)
    ensures GraphOk(w.(process := HasWritten(false)))
  {
  }

  lemma FailedCallKeeps(w: World)
    requires GraphOk(w) && w.process == At(EmbedNode)
    ensures GraphOk(Stop(w.(calls := w.calls + 1)))
  {
  }

  lemma AnsweredCallKeeps(w: World, vectors: seq<Vector>)
    requires GraphOk(w) && w.process == At(EmbedNode) && w.staging.Some? && |vectors| == |NextBatch(w)|
    ensures GraphOk(w.(calls := w.calls + 1, process := HasVectors(NextBatch(w), vectors)))
  {
  }

  lemma EmbedKeeps(w: World, vectors: seq<Vector>)
    requires GraphOk(w) && w.process == At(EmbedNode)
    ensures GraphOk(Embed(w, vectors))
  {
    if w.staging.None? {
      StopKeeps(w);
    } else if NextBatch(w) == [] {
      EmptyRoundKeeps(w);
    } else if |vectors| != |NextBatch(w)| {
      FailedCallKeeps(w);
    } else {
      AnsweredCallKeeps(w, vectors);
    }
  }

  lemma WriteKeeps(w: World)
    requires GraphOk(w) && w.process.HasVectors?
    ensures GraphOk(Step(w, EvWrite))
  {
    if Indexable(w.status) {
      var c := w.checkpoint.value;
      var rows := WriteBatch(w.rows, w.process.batch, w.process.vectors);
      BatchIsCovered(w.rows, w.payload, w.others, w.from, c.cursor, c.batchSize, w.process.vectors);
      WrittenOk(w, c, rows);
    } else {
      StopKeeps(w);
    }
  }

  /** A round whose rows are written, in memory of its cursor as it still is and as it will be. */
  lemma WrittenOk(w: World, c: Checkpoint, rows: map<nat, Row>)
    requires GraphOk(w) && w.process.HasVectors? && w.checkpoint == Some(c)
    requires Covers(rows, w.payload, w.others, w.from * c.batchSize, c.cursor * c.batchSize, (c.cursor + 1) * c.batchSize)
    requires Covers(rows, w.payload, w.others, w.from * c.batchSize, (c.cursor + 1) * c.batchSize, (c.cursor + 1) * c.batchSize)
    ensures GraphOk(w.(rows := rows, process := HasWritten(true)))
  {
  }

  lemma BatchIsCovered(rows: map<nat, Row>, payload: seq<StagedChunk>, others: set<nat>, from: nat, cursor: nat, size: nat,
                       vectors: seq<Vector>)
    requires Ordered(payload) && size >= 1 && from <= cursor && |vectors| == |Batch(payload, cursor, size)|
    requires Covers(rows, payload, others, from * size, cursor * size, (cursor + 1) * size)
    ensures var after := WriteBatch(rows, Batch(payload, cursor, size), vectors);
            Covers(after, payload, others, from * size, cursor * size, (cursor + 1) * size)
            && Covers(after, payload, others, from * size, (cursor + 1) * size, (cursor + 1) * size)
  {
    TimesMonotone(from, cursor, size);
    TimesMonotone(cursor, cursor + 1, size);
    WriteExtends(rows, payload, others, from * size, cursor * size, (cursor + 1) * size, vectors);
  }

  lemma SaveKeeps(w: World)
    requires GraphOk(w) && w.checkpoint.Some?
    ensures GraphOk(Save(w))
  {
    var c := w.checkpoint.value;
    match w.process
    case HasStaged(n) => BatchesBound(n, c.batchSize);
    case HasWritten(_) => TimesMonotone(c.cursor + 1, c.cursor + 2, c.batchSize);
    case _ =>
  }

  lemma OtherWriteKeeps(w: World, lo: nat, hi: nat, vectors: seq<Vector>)
    requires GraphOk(w)
    ensures GraphOk(Step(w, EvOtherWrite(lo, hi, vectors)))
  {
    if Step(w, EvOtherWrite(lo, hi, vectors)) != w && PastPrepare(w) {
      var c := w.checkpoint.value;
      OthersExtend(w.rows, w.payload, w.others, w.from * c.batchSize, c.cursor * c.batchSize, (c.cursor + 1) * c.batchSize,
                   lo, hi, vectors);
    }
  }

  lemma OtherJobKeeps(w: World, e: Event)
    requires GraphOk(w) && (e.EvOtherClear? || e.EvOtherPrepare? || e.EvOtherWrite?)
    ensures GraphOk(Step(w, e))
  {
    if e.EvOtherWrite? {
      OtherWriteKeeps(w, e.lo, e.hi, e.vectors);
    }
  }

  lemma PrepareKeeps(w: World, e: Event)
    requires GraphOk(w)
    requires e.EvStart? || e.EvParse? || e.EvMark? || e.EvClear? || e.EvStage? || e.EvStagePartly?
    ensures GraphOk(Step(w, e))
  {
  }

  lemma EndKeeps(w: World, e: Event)
    requires GraphOk(w) && (e.EvFinalize? || e.EvUnlink?)
    ensures GraphOk(Step(w, e))
  {
  }

  lemma AccidentKeeps(w: World, e: Event)
    requires GraphOk(w) && (e.EvCrash? || e.EvLoseStaging? || e.EvGovern?)
    ensures GraphOk(Step(w, e))
  {
  }

  lemma RoundKeeps(w: World, e: Event)
    requires GraphOk(w) && (e.EvEmbed? || e.EvWrite? || e.EvSave?)
    ensures GraphOk(Step(w, e))
  {
    if Step(w, e) != w {
      match e
      case EvEmbed(vectors) => EmbedKeeps(w, vectors);
      case EvWrite => WriteKeeps(w);
      case EvSave => SaveKeeps(w);
    }
  }

  lemma StepKeepsGraph(w: World, e: Event)
    requires GraphOk(w)
    ensures GraphOk(Step(w, e))
  {
    if e.EvOtherClear? || e.EvOtherPrepare? || e.EvOtherWrite? {
      OtherJobKeeps(w, e);
    } else if e.EvStart? || e.EvParse? || e.EvMark? || e.EvClear? || e.EvStage? || e.EvStagePartly? {
      PrepareKeeps(w, e);
    } else if e.EvEmbed? || e.EvWrite? || e.EvSave? {
      RoundKeeps(w, e);
    } else if e.EvFinalize? || e.EvUnlink? {
      EndKeeps(w, e);
    } else {
      AccidentKeeps(w, e);
    }
  }

  lemma {:induction false} RunsKeepGraph(w: World, events: seq<Event>)
    requires GraphOk(w)
    ensures GraphOk(Exec(w, events))
    decreases |events|
  {
    if events != [] {
      StepKeepsGraph(w, events[0]);
      RunsKeepGraph(Step(w, events[0]), events[1..]);
    }
  }

  // ----- what a refusal leaves -----

  /** An effect of this job's own nodes, of its start or of its end. */
  predicate OwnEffect(e: Event) {
    match e
    case EvLoseStaging => false
    case EvGovern(_) => false
    case EvOtherClear => false
    case EvOtherPrepare(_) => false
    case EvOtherWrite(_, _, _) => false
    case _ => true
  }

  /** What readers of the version see of it. */
  ghost predicate SameVersion(before: World, after: World) {
    after.rows == before.rows && after.chunkCount == before.chunkCount && after.status == before.status
  }

  /**
   * A version that is neither queued nor processing is safe from the job: no effect of it changes rows, chunk_count or
   * status, with one exception. Clearing the rows looks at no status.
   */
  lemma RefusedEffectsLeaveVersion(w: World, e: Event)
    requires w.status != Queued && w.status != Processing && OwnEffect(e)
    ensures SameVersion(w, Step(w, e)) <==> !(e.EvClear? && w.process.HasMarked? && w.rows != map[])
  {
  }

  /** Over any run of own effects that clears nothing. */
  lemma {:induction false} RefusedRunsLeaveVersion(w: World, events: seq<Event>)
    requires w.status != Queued && w.status != Processing
    requires forall e | e in events :: OwnEffect(e) && !e.EvClear?
    ensures SameVersion(w, Exec(w, events))
    decreases |events|
  {
    if events != [] {
      assert events[0] in events;
      RefusedEffectsLeaveVersion(w, events[0]);
      RefusedRunsLeaveVersion(Step(w, events[0]), events[1..]);
    }
  }

  /**
   * The exception is within reach: a worker marks the version, another one puts it live, and the first one goes on to
   * clear. The version is live without a row.
   */
  lemma ClearingALiveVersion(w: World, doc: seq<StagedChunk>)
    requires w.process == At(PrepareNode) && Indexable(w.status) && doc != [] && Ordered(doc)
    ensures var after := Exec(w, [EvParse(doc), EvMark, EvGovern(Indexed), EvClear]);
            after.status == Indexed && after.rows == map[] && after.chunkCount == w.chunkCount
  {
    var parsed := Step(w, EvParse(doc));
    ExecThree(parsed, EvMark, EvGovern(Indexed), EvClear);
    assert [EvParse(doc), EvMark, EvGovern(Indexed), EvClear][1..] == [EvMark, EvGovern(Indexed), EvClear];
  }

  /** A version about to be indexed for the first time, whatever rows earlier attempts left behind. */
  ghost predicate Fresh(w: World) {
    w.checkpoint.None? && w.process.Idle?
  }

  /** The part that this job had done when the rows were last cleared has been written again by other jobs. */
  ghost predicate Refilled(w: World)
    requires w.checkpoint.Some?
  {
    forall o: nat | o < w.from * w.checkpoint.value.batchSize && o < |w.payload| :: o in w.others
  }

  /**
   * When the result is exact. Whatever happened before (crashes between any two effects, half-written or lost staging
   * files, failed calls, restarts, governance actions, other jobs of the version preparing and writing in between): when
   * finalize takes effect, the rows are exactly the staged chunks, ordinals 0..n-1 once each, and chunk_count is n, if
   * and only if this job counted as many chunks as are staged, and other jobs have refilled what this job had written
   * before its rows were cleared.
   */
  lemma FinalizeIsExactIff(start: World, events: seq<Event>, publish: bool)
    requires Fresh(start)
    requires var w := Exec(start, events);
             w.process == At(FinalizeNode) && Indexable(w.status)
    ensures var w := Exec(start, events);
            w.checkpoint.Some?
            && (Exact(Step(w, EvFinalize(publish))) <==> w.checkpoint.value.chunkCount == |w.payload| && Refilled(w))
  {
    RunsKeepGraph(start, events);
    var w := Exec(start, events);
    ExactIff(w, w.checkpoint.value, publish);
  }

  lemma ExactIff(w: World, c: Checkpoint, publish: bool)
    requires GraphOk(w) && w.process == At(FinalizeNode) && w.checkpoint == Some(c) && Indexable(w.status)
    ensures Exact(Step(w, EvFinalize(publish))) <==> c.chunkCount == |w.payload| && Refilled(w)
  {
    BatchesBound(c.chunkCount, c.batchSize);
    var after := Step(w, EvFinalize(publish));
    assert after.rows == w.rows && after.payload == w.payload && after.chunkCount == c.chunkCount;
    if Exact(after) {
      forall o: nat | o < w.from * c.batchSize && o < |w.payload| ensures o in w.others { assert o in w.rows; }
    }
    if c.chunkCount == |w.payload| && Refilled(w) {
      forall o: nat | o < |w.payload| ensures o in w.rows { assert o < c.cursor * c.batchSize; }
    }
  }

  /** A set of naturals below n has n members exactly when it holds all of them. */
  lemma {:induction false} FullIff(keys: set<nat>, n: nat)
    requires forall o | o in keys :: o < n
    ensures |keys| <= n && (|keys| == n <==> forall o: nat | o < n :: o in keys)
    decreases n
  {
    if n == 0 {
      assert keys == {};
    } else {
      var rest := keys - {n - 1};
      FullIff(rest, n - 1);
      assert |keys| == |rest| + if n - 1 in keys then 1 else 0;
      if forall o: nat | o < n :: o in keys {
        forall o: nat | o < n - 1 ensures o in rest { assert o in keys; }
      }
      if n - 1 in keys && forall o: nat | o < n - 1 :: o in rest {
        forall o: nat | o < n ensures o in keys { assert o < n - 1 ==> o in rest; }
      }
    }
  }

  /**
   * The same as a check that finalize could make: after any history at all, the result is exact if and only if the
   * version has as many rows as this job counted chunks, and as many as are staged.
   */
  lemma FinalizeIsExactByCount(start: World, events: seq<Event>, publish: bool)
    requires Fresh(start)
    requires var w := Exec(start, events);
             w.process == At(FinalizeNode) && Indexable(w.status)
    ensures var w := Exec(start, events);
            w.checkpoint.Some?
            && (Exact(Step(w, EvFinalize(publish))) <==> |w.rows| == w.checkpoint.value.chunkCount == |w.payload|)
  {
    RunsKeepGraph(start, events);
    var w := Exec(start, events);
    CountIff(w, w.checkpoint.value, publish);
  }

  lemma CountIff(w: World, c: Checkpoint, publish: bool)
    requires GraphOk(w) && w.process == At(FinalizeNode) && w.checkpoint == Some(c) && Indexable(w.status)
    ensures Exact(Step(w, EvFinalize(publish))) <==> |w.rows| == c.chunkCount == |w.payload|
  {
    var after := Step(w, EvFinalize(publish));
    assert after.rows == w.rows && after.payload == w.payload && after.chunkCount == c.chunkCount;
    FullIff(w.rows.Keys, |w.payload|);
  }

  /**
   * Crash and resume are exact: as long as no other job of the version has cleared its rows since this job's own
   * prepare, nothing that happens keeps the result from being exact; every batch was embedded at least once, and the
   * calls beyond that are at most one per interruption.
   */
  lemma FinalizeIsExact(start: World, events: seq<Event>, publish: bool)
    requires Fresh(start)
    requires var w := Exec(start, events);
             w.process == At(FinalizeNode) && Indexable(w.status) && w.alone
    ensures var w := Exec(start, events);
            var after := Step(w, EvFinalize(publish));
            w.checkpoint.Some?
            && Exact(after) && after.status == (if publish then Indexed else Staged)
            && w.checkpoint.value.batchTotal == Batches(|w.payload|, Max(1, w.checkpoint.value.batchSize))
            && w.checkpoint.value.batchTotal <= after.calls <= w.checkpoint.value.batchTotal + after.interruptions
  {
    RunsKeepGraph(start, events);
    FinalizeIsExactIff(start, events, publish);
  }

  /** No event of the run is another job clearing the rows. */
  ghost predicate OwnRun(events: seq<Event>) {
    forall e | e in events :: !e.EvOtherClear? && !e.EvOtherPrepare?
  }

  lemma StepStaysAlone(w: World, e: Event)
    requires GraphOk(w) && !e.EvOtherClear? && !e.EvOtherPrepare? && (PastPrepare(w) ==> w.alone)
    ensures PastPrepare(Step(w, e)) ==> Step(w, e).alone
  {
  }

  lemma {:induction false} OwnRunsAreAlone(w: World, events: seq<Event>)
    requires GraphOk(w) && OwnRun(events) && (PastPrepare(w) ==> w.alone)
    ensures PastPrepare(Exec(w, events)) ==> Exec(w, events).alone
    decreases |events|
  {
    if events != [] {
      assert events[0] in events;
      StepKeepsGraph(w, events[0]);
      StepStaysAlone(w, events[0]);
      OwnRunsAreAlone(Step(w, events[0]), events[1..]);
    }
  }

  // ----- the same rows whatever crashed -----

  ghost predicate Matches(vectors: seq<Vector>, batch: seq<StagedChunk>, embed: StagedChunk -> Vector) {
    |vectors| == |batch| && forall i | 0 <= i < |batch| :: vectors[i] == embed(batch[i])
  }

  /** The embedding service answers as `embed` says, or with the wrong number of vectors. */
  ghost predicate Answered(w: World, e: Event, embed: StagedChunk -> Vector) {
    e.EvEmbed? && w.process == At(EmbedNode) && w.checkpoint.Some? && w.staging.Some? && |e.vectors| == |NextBatch(w)| ==>
      Matches(e.vectors, NextBatch(w), embed)
  }

  /** So it does for other jobs. */
  ghost predicate OthersAnswered(w: World, e: Event, embed: StagedChunk -> Vector) {
    e.EvOtherWrite? && e.lo <= e.hi <= |w.payload| && |e.vectors| == e.hi - e.lo ==>
      Matches(e.vectors, w.payload[e.lo..e.hi], embed)
  }

  ghost predicate AnsweredRun(w: World, events: seq<Event>, embed: StagedChunk -> Vector)
    decreases |events|
  {
    events == [] || (Answered(w, events[0], embed) && OthersAnswered(w, events[0], embed)
                      && AnsweredRun(Step(w, events[0]), events[1..], embed))
  }

  ghost predicate OwnVectors(rows: map<nat, Row>, payload: seq<StagedChunk>, embed: StagedChunk -> Vector) {
    forall o | o in rows && o < |payload| :: rows[o].embedding == embed(payload[o])
  }

  /** Every row of the current payload, written or about to be, holds the vector of its own chunk. */
  ghost predicate Honest(w: World, embed: StagedChunk -> Vector) {
    (PastPrepare(w) ==> OwnVectors(w.rows, w.payload, embed))
    && (w.process.HasVectors? ==> Matches(w.process.vectors, w.process.batch, embed))
  }

  lemma WriteKeepsVectors(rows: map<nat, Row>, payload: seq<StagedChunk>, lo: nat, hi: nat, vectors: seq<Vector>,
                          embed: StagedChunk -> Vector)
    requires lo <= hi <= |payload| && Ordered(payload)
    requires OwnVectors(rows, payload, embed) && Matches(vectors, payload[lo..hi], embed)
    ensures OwnVectors(WriteBatch(rows, payload[lo..hi], vectors), payload, embed)
  {
    WriteRange(rows, payload, lo, hi, vectors);
  }

  lemma WriteKeepsHonest(w: World, embed: StagedChunk -> Vector)
    requires GraphOk(w) && Honest(w, embed) && w.process.HasVectors?
    ensures Honest(Step(w, EvWrite), embed)
  {
    var c := w.checkpoint.value;
    WriteKeepsVectors(w.rows, w.payload, Min(c.cursor * c.batchSize, |w.payload|),
                      Min((c.cursor + 1) * c.batchSize, |w.payload|), w.process.vectors, embed);
  }

  lemma OtherWriteKeepsHonest(w: World, e: Event, embed: StagedChunk -> Vector)
    requires GraphOk(w) && Honest(w, embed) && OthersAnswered(w, e, embed) && e.EvOtherWrite?
    ensures Honest(Step(w, e), embed)
  {
    if PastPrepare(w) && Step(w, e) != w {
      WriteKeepsVectors(w.rows, w.payload, e.lo, e.hi, e.vectors, embed);
    }
  }

  lemma EmbedKeepsHonest(w: World, e: Event, embed: StagedChunk -> Vector)
    requires GraphOk(w) && Honest(w, embed) && Answered(w, e, embed) && e.EvEmbed?
    ensures Honest(Step(w, e), embed)
  {
  }

  lemma ReadKeepsHonest(w: World, e: Event, embed: StagedChunk -> Vector)
    requires GraphOk(w) && Honest(w, embed) && !e.EvEmbed? && !e.EvWrite? && !e.EvOtherWrite?
    ensures Honest(Step(w, e), embed)
  {
  }

  lemma StepKeepsHonest(w: World, e: Event, embed: StagedChunk -> Vector)
    requires GraphOk(w) && Honest(w, embed) && Answered(w, e, embed) && OthersAnswered(w, e, embed)
    ensures Honest(Step(w, e), embed)
  {
    if e.EvOtherWrite? {
      OtherWriteKeepsHonest(w, e, embed);
    } else if e.EvEmbed? {
      EmbedKeepsHonest(w, e, embed);
    } else if !e.EvWrite? {
      ReadKeepsHonest(w, e, embed);
    } else if w.process.HasVectors? {
      WriteKeepsHonest(w, embed);
    }
  }

  lemma {:induction false} RunsStayHonest(w: World, events: seq<Event>, embed: StagedChunk -> Vector)
    requires GraphOk(w) && Honest(w, embed) && AnsweredRun(w, events, embed)
    ensures Honest(Exec(w, events), embed)
    decreases |events|
  {
    if events != [] {
      StepKeepsGraph(w, events[0]);
      StepKeepsHonest(w, events[0], embed);
      RunsStayHonest(Step(w, events[0]), events[1..], embed);
    }
  }

  function RowsOf(payload: seq<StagedChunk>, embed: StagedChunk -> Vector): map<nat, Row> {
    map o: nat | 0 <= o < |payload| :: RowFor(payload[o], embed(payload[o]))
  }

  /**
   * So the rows of an exact result depend on the staged chunks alone: every history of crashes, lost files, failed calls
   * and other jobs leaves the rows that one uninterrupted run would have written.
   */
  lemma RowsDependOnlyOnChunks(start: World, events: seq<Event>, publish: bool, embed: StagedChunk -> Vector)
    requires Fresh(start) && AnsweredRun(start, events, embed)
    requires var w := Exec(start, events);
             w.process == At(FinalizeNode) && Indexable(w.status)
    ensures var after := Step(Exec(start, events), EvFinalize(publish));
            Exact(after) <==> after.rows == RowsOf(after.payload, embed) && after.chunkCount == |after.payload|
  {
    RunsKeepGraph(start, events);
    RunsStayHonest(start, events, embed);
    var after := Step(Exec(start, events), EvFinalize(publish));
    if Exact(after) {
      assert after.rows == RowsOf(after.payload, embed);
    }
  }

  /** What an exact result stores of each chunk: its own text and page, and the first 512 characters of its heading. */
  lemma ExactRowsAreTheChunks(w: World, o: nat)
    requires Exact(w)
    ensures w.chunkCount == |w.rows| == |w.payload|
    ensures o in w.rows <==> o < |w.payload|
    ensures o < |w.payload| ==>
              var row, chunk := w.rows[o], w.payload[o];
              row.content == chunk.content && row.page == chunk.page
              && row.heading == if |chunk.heading| > 512 then chunk.heading[..512] else chunk.heading
  {
    OrdinalsCount(|w.payload|);
    assert w.rows.Keys == OrdinalsIn(0, |w.payload|);
  }

  lemma {:induction false} OrdinalsCount(n: nat)
    ensures |OrdinalsIn(0, n)| == n
    decreases n
  {
    if n > 0 {
      OrdinalsCount(n - 1);
      assert OrdinalsIn(0, n) == OrdinalsIn(0, n - 1) + {n - 1};
    }
  }

  /**
   * A crash and a new start lose nothing that was saved: with checkpoint and staging file the job takes the version up
   * again and goes on at the same node and batch; without either it starts over, and the rows stay until prepare.
   */
  lemma StartAfterCrash(w: World, size: nat)
    requires !w.process.Idle?
    ensures var again := Exec(w, [EvCrash, EvStart(size)]);
            again.rows == w.rows && again.chunkCount == w.chunkCount && again.staging == w.staging && again.calls == w.calls
            && if w.checkpoint == None || w.staging == None then
                 again.status == w.status && again.process == At(PrepareNode)
                 && again.checkpoint == Some(Checkpoint(PrepareNode, 0, if size < 1 then 1 else size, 0, 0))
               else
                 again.checkpoint == w.checkpoint
                 && if w.status in {Queued, Processing} then
                      again.status == Processing && again.process == At(w.checkpoint.value.pending)
                    else again.status == w.status && again.process == Idle
  {
    var stopped := Step(w, EvCrash);
    assert [EvCrash, EvStart(size)][1..] == [EvStart(size)] && [EvStart(size)][1..] == [];
    assert Exec(stopped, [EvStart(size)]) == Exec(Step(stopped, EvStart(size)), []);
  }

  /** The loop measure: every completed round of embed_batch brings the cursor one closer to the total. */
  lemma EachRoundAdvances(w: World, vectors: seq<Vector>)
    requires GraphOk(w) && w.process == At(EmbedNode) && w.staging.Some? && Indexable(w.status) && w.alone
    requires |vectors| == |NextBatch(w)|
    ensures var after := Exec(w, [EvEmbed(vectors), EvWrite, EvSave]);
            GraphOk(after) && after.checkpoint == Some(w.checkpoint.value.(
                cursor := w.checkpoint.value.cursor + 1,
                pending := if w.checkpoint.value.cursor + 1 == w.checkpoint.value.batchTotal then FinalizeNode else EmbedNode))
            && after.process == At(after.checkpoint.value.pending)
            && after.calls == w.calls + 1 && after.interruptions == w.interruptions
            && after.status == w.status && after.staging == w.staging && after.payload == w.payload
  {
    var c := w.checkpoint.value;
    BatchNonEmpty(w.payload, c.cursor, c.batchSize);
    var w1 := Step(w, EvEmbed(vectors));
    var w2 := Step(w1, EvWrite);
    var w3 := Step(w2, EvSave);
    StepKeepsGraph(w, EvEmbed(vectors));
    StepKeepsGraph(w1, EvWrite);
    StepKeepsGraph(w2, EvSave);
    ExecThree(w, EvEmbed(vectors), EvWrite, EvSave);
  }

  lemma {:induction false} ExecConcat(w: World, a: seq<Event>, b: seq<Event>)
    ensures Exec(w, a + b) == Exec(Exec(w, a), b)
    decreases |a|
  {
    if a == [] {
      assert a + b == b;
    } else {
      ExecConcat(Step(w, a[0]), a[1..], b);
      assert (a + b)[0] == a[0] && (a + b)[1..] == a[1..] + b;
    }
  }

  lemma ExecThree(w: World, a: Event, b: Event, c: Event)
    ensures Exec(w, [a, b, c]) == Step(Step(Step(w, a), b), c)
  {
    var w1 := Step(w, a);
    var w2 := Step(w1, b);
    assert [a, b, c][1..] == [b, c] && [b, c][1..] == [c] && [c][1..] == [];
    assert Exec(w2, [c]) == Exec(Step(w2, c), []);
    assert Exec(w1, [b, c]) == Exec(w2, [c]);
  }

  lemma ExecFive(w: World, a: Event, b: Event, c: Event, d: Event, e: Event)
    ensures Exec(w, [a, b, c, d, e]) == Step(Step(Step(Step(Step(w, a), b), c), d), e)
  {
    var w1 := Step(w, a);
    ExecThree(Step(w1, b), c, d, e);
    assert [a, b, c, d, e][1..] == [b, c, d, e] && [b, c, d, e][1..] == [c, d, e];
    assert Exec(w1, [b, c, d, e]) == Exec(Step(w1, b), [c, d, e]);
  }
}
