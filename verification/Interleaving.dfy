/**
 * A run in which another job of the version comes between: an import stops after the first of two batches, a reindex
 * prepares and stops, and the import, re-queued, resumes from its own checkpoint.
 */
module Interleaving {
  import opened Text
  import opened Governance
  import Graph = IndexingGraph

  type Doc = seq<Graph.StagedChunk>

  predicate TwoChunks(doc: Doc) {
    |doc| == 2 && doc[0].ordinal == 0 && doc[1].ordinal == 1
  }

  function Interleaved(doc: Doc, v: Graph.Vector): seq<Graph.Event> {
    Opening(doc) + Staging() + Round(v) + Interruption(doc) + Round(v)
  }

  function Opening(doc: Doc): seq<Graph.Event> { [Graph.EvStart(1), Graph.EvParse(doc), Graph.EvMark] }

  function Staging(): seq<Graph.Event> { [Graph.EvClear, Graph.EvStage, Graph.EvSave] }

  function Round(v: Graph.Vector): seq<Graph.Event> { [Graph.EvEmbed([v]), Graph.EvWrite, Graph.EvSave] }

  function Interruption(doc: Doc): seq<Graph.Event> { [Graph.EvCrash, Graph.EvOtherPrepare(doc), Graph.EvStart(1)] }

  lemma AfterOpening(w: Graph.World, doc: Doc)
    requires Graph.Fresh(w) && Indexable(w.status) && TwoChunks(doc)
    ensures var after := Graph.Exec(w, Opening(doc));
            after.process == Graph.HasMarked(doc) && after.status == Processing
            && after.checkpoint == Some(Graph.Checkpoint(Graph.PrepareNode, 0, 1, 0, 0))
  {
    Graph.ExecThree(w, Graph.EvStart(1), Graph.EvParse(doc), Graph.EvMark);
  }

  /** At the embed node with the given cursor, one chunk a batch, two in all. */
  ghost predicate AtBatch(w: Graph.World, doc: Doc, cursor: nat) {
    w.process == Graph.At(if cursor < 2 then Graph.EmbedNode else Graph.FinalizeNode) && w.status == Processing
    && w.checkpoint == Some(Graph.Checkpoint(if cursor < 2 then Graph.EmbedNode else Graph.FinalizeNode, cursor, 1, 2, 2))
    && w.staging == Some(doc) && w.payload == doc
  }

  lemma AfterStaging(w: Graph.World, doc: Doc)
    requires TwoChunks(doc) && w.process == Graph.HasMarked(doc) && w.status == Processing
    requires w.checkpoint == Some(Graph.Checkpoint(Graph.PrepareNode, 0, 1, 0, 0))
    ensures AtBatch(Graph.Exec(w, Staging()), doc, 0)
  {
    Graph.ExecThree(w, Graph.EvClear, Graph.EvStage, Graph.EvSave);
  }

  lemma BatchOfOne(doc: Doc, cursor: nat, rows: map<nat, Graph.Row>, v: Graph.Vector)
    requires TwoChunks(doc) && cursor < 2
    ensures Graph.Batch(doc, cursor, 1) == [doc[cursor]]
    ensures Graph.WriteBatch(rows, [doc[cursor]], [v]) == rows[cursor := Graph.RowFor(doc[cursor], v)]
  {
    assert [doc[cursor]][1..] == [] && [v][1..] == [];
  }

  lemma AfterRound(w: Graph.World, doc: Doc, cursor: nat, v: Graph.Vector)
    requires TwoChunks(doc) && cursor < 2 && AtBatch(w, doc, cursor)
    ensures AtBatch(Graph.Exec(w, Round(v)), doc, cursor + 1)
    ensures Graph.Exec(w, Round(v)).rows.Keys == w.rows.Keys + {cursor}
  {
    Graph.ExecThree(w, Graph.EvEmbed([v]), Graph.EvWrite, Graph.EvSave);
    BatchOfOne(doc, cursor, w.rows, v);
    var embedded := Graph.Step(w, Graph.EvEmbed([v]));
    assert embedded == w.(calls := w.calls + 1, process := Graph.HasVectors([doc[cursor]], [v]));
  }

  lemma AfterInterruption(w: Graph.World, doc: Doc)
    requires TwoChunks(doc) && AtBatch(w, doc, 1)
    ensures AtBatch(Graph.Exec(w, Interruption(doc)), doc, 1) && Graph.Exec(w, Interruption(doc)).rows == map[]
  {
    Graph.ExecThree(w, Graph.EvCrash, Graph.EvOtherPrepare(doc), Graph.EvStart(1));
  }

  lemma InParts(start: Graph.World, a: seq<Graph.Event>, b: seq<Graph.Event>, c: seq<Graph.Event>, d: seq<Graph.Event>, e: seq<Graph.Event>)
    ensures Graph.Exec(start, a + b + c + d + e)
         == Graph.Exec(Graph.Exec(Graph.Exec(Graph.Exec(Graph.Exec(start, a), b), c), d), e)
  {
    Graph.ExecConcat(start, a + b + c + d, e);
    Graph.ExecConcat(start, a + b + c, d);
    Graph.ExecConcat(start, a + b, c);
    Graph.ExecConcat(start, a, b);
  }

  /** Up to the end of the first batch. */
  function FirstPart(start: Graph.World, doc: Doc, v: Graph.Vector): Graph.World {
    Graph.Exec(Graph.Exec(Graph.Exec(start, Opening(doc)), Staging()), Round(v))
  }

  lemma FirstBatch(start: Graph.World, doc: Doc, v: Graph.Vector)
    requires Graph.Fresh(start) && Indexable(start.status) && TwoChunks(doc)
    ensures AtBatch(FirstPart(start, doc, v), doc, 1)
  {
    var marked := Graph.Exec(start, Opening(doc));
    AfterOpening(start, doc);
    AfterStaging(marked, doc);
    AfterRound(Graph.Exec(marked, Staging()), doc, 0, v);
  }

  lemma LastBatch(w: Graph.World, doc: Doc, v: Graph.Vector)
    requires TwoChunks(doc) && AtBatch(w, doc, 1)
    ensures var after := Graph.Exec(Graph.Exec(w, Interruption(doc)), Round(v));
            AtBatch(after, doc, 2) && after.rows.Keys == {1}
  {
    AfterInterruption(w, doc);
    AfterRound(Graph.Exec(w, Interruption(doc)), doc, 1, v);
  }

  /** Finalize then publishes a version of two chunks with one row: the other job's prepare cleared the first. */
  lemma OtherPrepareLosesRows(start: Graph.World, doc: Doc, v: Graph.Vector)
    requires Graph.Fresh(start) && Indexable(start.status) && TwoChunks(doc)
    ensures var w := Graph.Exec(start, Interleaved(doc, v));
            var after := Graph.Step(w, Graph.EvFinalize(true));
            w.process == Graph.At(Graph.FinalizeNode)
            && after.status == Indexed && after.chunkCount == 2 && after.rows.Keys == {1} && !Graph.Exact(after)
  {
    InParts(start, Opening(doc), Staging(), Round(v), Interruption(doc), Round(v));
    FirstBatch(start, doc, v);
    LastBatch(FirstPart(start, doc, v), doc, v);
    Unfinished(Graph.Exec(start, Interleaved(doc, v)), doc);
  }

  lemma Unfinished(w: Graph.World, doc: Doc)
    requires TwoChunks(doc) && AtBatch(w, doc, 2) && w.rows.Keys == {1}
    ensures var after := Graph.Step(w, Graph.EvFinalize(true));
            after.status == Indexed && after.chunkCount == 2 && after.rows.Keys == {1} && !Graph.Exact(after)
  {
    assert 0 !in w.rows;
  }
}
