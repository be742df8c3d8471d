/**
 * worker/graph.py, with other workers at the same version at the same time: whatever they do to the rows and the staging
 * file may come between any two effects of this job, also in the middle of a node. All of them parse the version into
 * the same chunks, as the stored original does not change.
 */
module Sharing {
  import opened Text
  import opened Governance
  import opened IndexingGraph
  import Graph = IndexingGraph

  type Doc = seq<StagedChunk>

  /** An effect of this job or of its surroundings, or what another job's prepare and embed nodes do to the version. */
  datatype Happening =
    | Here(e: Graph.Event)
    | TheyClear
    | TheyStage
    | TheyWrite(lo: nat, hi: nat, vectors: seq<Vector>)

  function After(w: World, doc: Doc, h: Happening): World {
    match h
    case Here(e) => Step(w, e)
    case TheyClear => w.(rows := map[])
    case TheyStage => w.(staging := Some(doc), payload := doc)
    case TheyWrite(lo, hi, vectors) =>
      if lo <= hi <= |doc| && |vectors| == hi - lo then w.(rows := WriteBatch(w.rows, doc[lo..hi], vectors)) else w
  }

  function ExecAll(w: World, doc: Doc, hs: seq<Happening>): World
    decreases |hs|
  {
    if hs == [] then w else ExecAll(After(w, doc, hs[0]), doc, hs[1..])
  }

  /** This job parses the same chunks; the sequential events of other jobs are not used here. */
  predicate OfVersion(h: Happening, doc: Doc) {
    h.Here? ==> !h.e.EvOtherClear? && !h.e.EvOtherPrepare? && !h.e.EvOtherWrite? && (h.e.EvParse? ==> h.e.doc == doc)
  }

  // ----- the invariant -----

  ghost predicate RowsAreOf(rows: map<nat, Row>, doc: Doc) {
    forall o | o in rows :: o < |doc| && RowMatches(rows[o], doc[o])
  }

  predicate Holds(staging: Option<Doc>, doc: Doc) {
    staging.None? || staging.value == doc
  }

  predicate HasOwnDoc(p: Process, doc: Doc) {
    (p.HasParsed? || p.HasMarked? || p.HasCleared?) && p.doc == doc
  }

  /** What the process has in hand fits the checkpoint, and is of this version. */
  ghost predicate InHand(w: World, doc: Doc) {
    match w.process
    case Idle => true
    case At(node) => w.checkpoint.Some? && w.checkpoint.value.pending == node
    case HasStaged(n) => Preparing(w) && n == |doc| && w.payload == doc && Holds(w.staging, doc)
    case HasVectors(batch, vectors) =>
      w.checkpoint.Some? && w.checkpoint.value.pending == EmbedNode && |batch| == |vectors|
      && batch == Batch(doc, w.checkpoint.value.cursor, w.checkpoint.value.batchSize)
    case HasWritten(_) => w.checkpoint.Some? && w.checkpoint.value.pending == EmbedNode
    case HasPublished => w.checkpoint.Some? && w.checkpoint.value.pending == FinalizeNode
    case HasUnlinked => w.checkpoint.Some? && w.checkpoint.value.pending == FinalizeNode
    case _ => Preparing(w) && HasOwnDoc(w.process, doc)
  }

  /** Since this job's own clearing. */
  ghost predicate Cleared(w: World) {
    PastPrepare(w) || w.process.HasCleared? || w.process.HasStaged?
  }

  ghost predicate Saved(w: World, c: Checkpoint, doc: Doc) {
    w.payload == doc && Holds(w.staging, doc) && c.chunkCount == |doc| && c.batchTotal == Batches(|doc|, Max(1, c.batchSize))
    && (c.pending == FinalizeNode ==> c.cursor >= c.batchTotal)
  }

  ghost predicate SharedOk(w: World, doc: Doc) {
    InHand(w, doc)
    && (Cleared(w) ==> RowsAreOf(w.rows, doc))
    && (w.checkpoint.Some? ==> w.checkpoint.value.batchSize >= 1)
    && (PastPrepare(w) ==> Saved(w, w.checkpoint.value, doc))
  }

  lemma WriteKeepsRows(rows: map<nat, Row>, doc: Doc, lo: nat, hi: nat, vectors: seq<Vector>)
    requires Ordered(doc) && lo <= hi <= |doc| && |vectors| == hi - lo && RowsAreOf(rows, doc)
    ensures RowsAreOf(WriteBatch(rows, doc[lo..hi], vectors), doc)
  {
    WriteRange(rows, doc, lo, hi, vectors);
  }

  lemma BatchKeepsRows(rows: map<nat, Row>, doc: Doc, cursor: nat, size: nat, vectors: seq<Vector>)
    requires Ordered(doc) && |vectors| == |Batch(doc, cursor, size)| && RowsAreOf(rows, doc)
    ensures RowsAreOf(WriteBatch(rows, Batch(doc, cursor, size), vectors), doc)
  {
    TimesMonotone(cursor, cursor + 1, size);
    WriteKeepsRows(rows, doc, Min(cursor * size, |doc|), Min((cursor + 1) * size, |doc|), vectors);
  }

  lemma OwnWriteKeeps(w: World, doc: Doc)
    requires SharedOk(w, doc) && Ordered(doc) && w.process.HasVectors?
    ensures SharedOk(Step(w, EvWrite), doc)
  {
    var c := w.checkpoint.value;
    BatchKeepsRows(w.rows, doc, c.cursor, c.batchSize, w.process.vectors);
  }

  lemma TheyKeep(w: World, doc: Doc, h: Happening)
    requires SharedOk(w, doc) && Ordered(doc) && !h.Here?
    ensures SharedOk(After(w, doc, h), doc)
  {
    if h.TheyWrite? && h.lo <= h.hi <= |doc| && |h.vectors| == h.hi - h.lo && Cleared(w) {
      WriteKeepsRows(w.rows, doc, h.lo, h.hi, h.vectors);
    }
  }

  lemma PrepareKeepsShared(w: World, doc: Doc, e: Graph.Event)
    requires SharedOk(w, doc) && OfVersion(Here(e), doc)
    requires e.EvStart? || e.EvParse? || e.EvMark? || e.EvClear? || e.EvStage? || e.EvStagePartly?
    ensures SharedOk(Step(w, e), doc)
  {
  }

  lemma SaveKeepsShared(w: World, doc: Doc)
    requires SharedOk(w, doc)
    ensures SharedOk(Step(w, EvSave), doc)
  {
  }

  lemma OtherEffectsKeepShared(w: World, doc: Doc, e: Graph.Event)
    requires SharedOk(w, doc)
    requires e.EvEmbed? || e.EvFinalize? || e.EvUnlink? || e.EvCrash? || e.EvLoseStaging? || e.EvGovern?
    ensures SharedOk(Step(w, e), doc)
  {
  }

  lemma AfterKeeps(w: World, doc: Doc, h: Happening)
    requires SharedOk(w, doc) && Ordered(doc) && OfVersion(h, doc)
    ensures SharedOk(After(w, doc, h), doc)
  {
    if !h.Here? {
      TheyKeep(w, doc, h);
    } else if h.e.EvStart? || h.e.EvParse? || h.e.EvMark? || h.e.EvClear? || h.e.EvStage? || h.e.EvStagePartly? {
      PrepareKeepsShared(w, doc, h.e);
    } else if h.e.EvSave? {
      SaveKeepsShared(w, doc);
    } else if !h.e.EvWrite? {
      OtherEffectsKeepShared(w, doc, h.e);
    } else if w.process.HasVectors? {
      OwnWriteKeeps(w, doc);
    }
  }

  lemma {:induction false} RunsKeepShared(w: World, doc: Doc, hs: seq<Happening>)
    requires SharedOk(w, doc) && Ordered(doc) && forall h | h in hs :: OfVersion(h, doc)
    ensures SharedOk(ExecAll(w, doc, hs), doc)
    decreases |hs|
  {
    if hs != [] {
      assert hs[0] in hs;
      AfterKeeps(w, doc, hs[0]);
      RunsKeepShared(After(w, doc, hs[0]), doc, hs[1..]);
    }
  }

  // ----- when the result is exact -----

  /**
   * Whatever other workers do at whatever moment: when finalize takes effect, chunk_count is the number of chunks, and
   * the rows are exactly the chunks if and only if there are as many of them. So a count of the rows before the status
   * changes would catch every loss.
   */
  lemma SharedExactIff(start: World, doc: Doc, hs: seq<Happening>, publish: bool)
    requires Fresh(start) && Ordered(doc) && forall h | h in hs :: OfVersion(h, doc)
    requires var w := ExecAll(start, doc, hs);
             w.process == At(FinalizeNode) && Indexable(w.status)
    ensures var w := ExecAll(start, doc, hs);
            var after := Step(w, EvFinalize(publish));
            w.payload == doc && after.chunkCount == |doc| && (Exact(after) <==> |w.rows| == |doc|)
  {
    RunsKeepShared(start, doc, hs);
    var w := ExecAll(start, doc, hs);
    FullIff(w.rows.Keys, |doc|);
  }

  /** The batches before the cursor are in the table. */
  ghost predicate Filled(w: World, doc: Doc) {
    (PastPrepare(w) ==> HasUpTo(w.rows, doc, w.checkpoint.value.cursor * w.checkpoint.value.batchSize))
    && (w.process == HasWritten(true) && w.checkpoint.Some? ==>
          HasUpTo(w.rows, doc, (w.checkpoint.value.cursor + 1) * w.checkpoint.value.batchSize))
  }

  ghost predicate HasUpTo(rows: map<nat, Row>, doc: Doc, n: nat) {
    forall o: nat | o < n && o < |doc| :: o in rows
  }

  lemma WriteFills(rows: map<nat, Row>, doc: Doc, cursor: nat, size: nat, vectors: seq<Vector>)
    requires Ordered(doc) && |vectors| == |Batch(doc, cursor, size)| && HasUpTo(rows, doc, cursor * size)
    ensures HasUpTo(WriteBatch(rows, Batch(doc, cursor, size), vectors), doc, cursor * size)
    ensures HasUpTo(WriteBatch(rows, Batch(doc, cursor, size), vectors), doc, (cursor + 1) * size)
  {
    TimesMonotone(cursor, cursor + 1, size);
    WriteRange(rows, doc, Min(cursor * size, |doc|), Min((cursor + 1) * size, |doc|), vectors);
  }

  lemma OwnWriteFills(w: World, doc: Doc)
    requires SharedOk(w, doc) && Ordered(doc) && w.process.HasVectors? && Filled(w, doc)
    ensures Filled(Step(w, EvWrite), doc)
  {
    var c := w.checkpoint.value;
    WriteFills(w.rows, doc, c.cursor, c.batchSize, w.process.vectors);
  }

  lemma TheyFill(w: World, doc: Doc, h: Happening)
    requires Ordered(doc) && Filled(w, doc) && (h.TheyStage? || h.TheyWrite?)
    ensures Filled(After(w, doc, h), doc)
  {
    if h.TheyWrite? && h.lo <= h.hi <= |doc| && |h.vectors| == h.hi - h.lo {
      WriteRange(w.rows, doc, h.lo, h.hi, h.vectors);
    }
  }

  lemma SaveFills(w: World, doc: Doc)
    requires SharedOk(w, doc) && Filled(w, doc)
    ensures Filled(Step(w, EvSave), doc)
  {
  }

  lemma OwnEffectsFill(w: World, doc: Doc, e: Graph.Event)
    requires SharedOk(w, doc) && Filled(w, doc) && OfVersion(Here(e), doc) && !e.EvSave? && !e.EvWrite?
    ensures Filled(Step(w, e), doc)
  {
  }

  lemma {:induction false} RunsFill(w: World, doc: Doc, hs: seq<Happening>)
    requires SharedOk(w, doc) && Filled(w, doc) && Ordered(doc)
    requires forall h | h in hs :: OfVersion(h, doc) && !h.TheyClear?
    ensures SharedOk(ExecAll(w, doc, hs), doc) && Filled(ExecAll(w, doc, hs), doc)
    decreases |hs|
  {
    if hs != [] {
      var h := hs[0];
      assert h in hs;
      AfterKeeps(w, doc, h);
      if !h.Here? {
        TheyFill(w, doc, h);
      } else if h.e.EvSave? {
        SaveFills(w, doc);
      } else if !h.e.EvWrite? {
        OwnEffectsFill(w, doc, h.e);
      } else if w.process.HasVectors? {
        OwnWriteFills(w, doc);
      }
      RunsFill(After(w, doc, h), doc, hs[1..]);
    }
  }

  /** Only another worker's clearing loses rows: with none after a state that has not lost any, the result is exact. */
  lemma OnlyClearingLosesRows(start: World, doc: Doc, before: seq<Happening>, hs: seq<Happening>, publish: bool)
    requires Fresh(start) && Ordered(doc) && forall h | h in before + hs :: OfVersion(h, doc)
    requires forall h | h in hs :: !h.TheyClear?
    requires Filled(ExecAll(start, doc, before), doc)
    requires var w := ExecAll(ExecAll(start, doc, before), doc, hs);
             w.process == At(FinalizeNode) && Indexable(w.status)
    ensures var w := ExecAll(ExecAll(start, doc, before), doc, hs);
            Exact(Step(w, EvFinalize(publish)))
  {
    forall h | h in before ensures OfVersion(h, doc) { assert h in before + hs; }
    forall h | h in hs ensures OfVersion(h, doc) { assert h in before + hs; }
    RunsKeepShared(start, doc, before);
    var middle := ExecAll(start, doc, before);
    RunsFill(middle, doc, hs);
    AtTheEnd(ExecAll(middle, doc, hs), doc);
  }

  lemma AtTheEnd(w: World, doc: Doc)
    requires SharedOk(w, doc) && Filled(w, doc) && w.process == At(FinalizeNode) && Indexable(w.status)
    ensures forall publish :: Exact(Step(w, EvFinalize(publish)))
  {
    var c := w.checkpoint.value;
    BatchesBound(|doc|, c.batchSize);
    TimesMonotone(c.batchTotal, c.cursor, c.batchSize);
  }
}
