/** worker/graph.py, the graph's nodes and IndexingGraphRunner.run, as code over mutable state. */
module GraphRunner {
  import opened Text
  import opened Governance
  import opened IndexingGraph
  import Chunker

  /** What prepare stages of each chunk: parent text and title flag are not written. */
  function StagedFor(chunks: seq<Chunker.Chunk>): (doc: seq<StagedChunk>)
    ensures |doc| == |chunks|
  {
    seq(|chunks|, i requires 0 <= i < |chunks| =>
      StagedChunk(chunks[i].ordinal, chunks[i].piece.heading, chunks[i].piece.page, chunks[i].piece.content))
  }

  /** Whatever chunk_document returns can be staged: it is not empty and numbered from 0. */
  lemma ChunkedDocumentsCanBeStaged(sections: seq<Chunker.Section>, cfg: Chunker.Config)
    requires Chunker.ChunkedDocument(sections, cfg).Ok?
    ensures var doc := StagedFor(Chunker.ChunkedDocument(sections, cfg).value);
            doc != [] && Ordered(doc)
  {
    var expected := Chunker.Expected(sections, cfg);
    Chunker.ExpectedDocument(sections, cfg, expected);
  }

  // ----- what a node does when nothing interrupts it -----

  ghost function AfterPrepare(w: World, doc: seq<StagedChunk>): World
    requires w.checkpoint.Some?
  {
    if doc == [] || !Ordered(doc) || !Indexable(w.status) then Stop(w)
    else
      var size := w.checkpoint.value.batchSize;
      World(Processing, map[], w.chunkCount, Some(doc),
            Some(Checkpoint(EmbedNode, 0, size, Batches(|doc|, Max(1, size)), |doc|)), At(EmbedNode), doc, 0, 0, 0, {}, true)
  }

  /** The prepare node is its effects, one after the other. */
  lemma PrepareIsItsSteps(w: World, doc: seq<StagedChunk>)
    requires GraphOk(w) && w.process == At(PrepareNode)
    ensures AfterPrepare(w, doc) == Exec(w, [EvParse(doc), EvMark, EvClear, EvStage, EvSave])
    ensures GraphOk(AfterPrepare(w, doc))
  {
    RunsKeepGraph(w, [EvParse(doc), EvMark, EvClear, EvStage, EvSave]);
    ExecFive(w, EvParse(doc), EvMark, EvClear, EvStage, EvSave);
    PrepareSteps(w, doc);
  }

  lemma PrepareSteps(w: World, doc: seq<StagedChunk>)
    requires w.process == At(PrepareNode) && w.checkpoint.Some?
    ensures AfterPrepare(w, doc) == Step(Step(Step(Step(Step(w, EvParse(doc)), EvMark), EvClear), EvStage), EvSave)
  {
  }

  ghost function AfterEmbed(w: World, vectors: seq<Vector>): World
    requires w.checkpoint.Some? && w.staging.Some?
  {
    var c := w.checkpoint.value;
    var called := w.(calls := w.calls + 1);
    if |vectors| != |NextBatch(w)| || !Indexable(w.status) then Stop(called)
    else
      var advanced := c.(cursor := c.cursor + 1);
      called.(rows := WriteBatch(w.rows, NextBatch(w), vectors),
              checkpoint := Some(advanced.(pending := Route(advanced))), process := At(Route(advanced)))
  }

  /** A node that is refused because the version is neither queued nor processing leaves it, and its staging file. */
  lemma RefusedNodesLeaveVersion(w: World, doc: seq<StagedChunk>, vectors: seq<Vector>, publish: bool)
    requires GraphOk(w) && w.process.At? && w.status != Queued && w.status != Processing
    ensures w.process == At(PrepareNode) ==>
              SameVersion(w, AfterPrepare(w, doc)) && AfterPrepare(w, doc).staging == w.staging
    ensures w.process == At(EmbedNode) && w.staging.Some? ==>
              SameVersion(w, AfterEmbed(w, vectors)) && AfterEmbed(w, vectors).staging == w.staging
    ensures w.process == At(FinalizeNode) ==>
              SameVersion(w, AfterFinalize(w, publish)) && AfterFinalize(w, publish).staging == w.staging
  {
  }

  /** One round of embed_batch is its effects. */
  lemma EmbedIsItsSteps(w: World, vectors: seq<Vector>)
    requires GraphOk(w) && w.process == At(EmbedNode) && w.staging.Some? && w.alone
    ensures NextBatch(w) != []
    ensures AfterEmbed(w, vectors) == Exec(w, [EvEmbed(vectors), EvWrite, EvSave])
    ensures GraphOk(AfterEmbed(w, vectors))
  {
    BatchNonEmpty(w.payload, w.checkpoint.value.cursor, w.checkpoint.value.batchSize);
    RunsKeepGraph(w, [EvEmbed(vectors), EvWrite, EvSave]);
    ExecThree(w, EvEmbed(vectors), EvWrite, EvSave);
    EmbedSteps(w, vectors, NextBatch(w));
  }

  lemma EmbedSteps(w: World, vectors: seq<Vector>, batch: seq<StagedChunk>)
    requires w.process == At(EmbedNode) && w.checkpoint.Some? && w.staging.Some? && batch == NextBatch(w) && batch != []
    ensures AfterEmbed(w, vectors) == Step(Step(Step(w, EvEmbed(vectors)), EvWrite), EvSave)
  {
  }

  ghost function AfterFinalize(w: World, publish: bool): World
    requires w.checkpoint.Some?
  {
    if !Indexable(w.status) then Stop(w)
    else w.(status := if publish then Indexed else Staged, chunkCount := w.checkpoint.value.chunkCount, staging := None,
            checkpoint := Some(w.checkpoint.value.(pending := EndNode)), process := Idle)
  }

  lemma FinalizeSteps(w: World, publish: bool)
    requires w.process == At(FinalizeNode) && w.checkpoint.Some?
    ensures AfterFinalize(w, publish) == Step(Step(Step(w, EvFinalize(publish)), EvUnlink), EvSave)
  {
  }

  lemma FinalizeIsItsSteps(w: World, publish: bool)
    requires GraphOk(w) && w.process == At(FinalizeNode)
    ensures AfterFinalize(w, publish) == Exec(w, [EvFinalize(publish), EvUnlink, EvSave])
    ensures GraphOk(AfterFinalize(w, publish))
    ensures Indexable(w.status) && w.alone ==> Exact(AfterFinalize(w, publish))
  {
    RunsKeepGraph(w, [EvFinalize(publish), EvUnlink, EvSave]);
    ExecThree(w, EvFinalize(publish), EvUnlink, EvSave);
    FinalizeSteps(w, publish);
    if Indexable(w.status) {
      ExactIff(w, w.checkpoint.value, publish);
    }
  }

  class IndexingGraphRunner {
    var status: Status
    var rows: map<nat, Row>
    var chunkCount: nat
    var staging: Option<seq<StagedChunk>>
    var checkpoint: Option<Checkpoint>
    ghost var process: Process
    ghost var payload: seq<StagedChunk>
    ghost var calls: nat
    ghost var interruptions: nat
    ghost var from: nat
    ghost var others: set<nat>
    ghost var alone: bool

    constructor (status: Status, rows: map<nat, Row>)
      ensures Fresh(State()) && State().status == status && State().rows == rows
    {
      this.status, this.rows, chunkCount, staging, checkpoint := status, rows, 0, None, None;
      process, payload, calls, interruptions := Idle, [], 0, 0;
      from, others, alone := 0, {}, true;
    }

    ghost function State(): World
      reads this
    {
      World(status, rows, chunkCount, staging, checkpoint, process, payload, calls, interruptions, from, others, alone)
    }

    ghost method Interrupt()
      modifies this`process, this`interruptions
      ensures State() == Stop(old(State()))
    {
      process, interruptions := Idle, interruptions + 1;
    }

    /** Resume from the checkpoint, or discard it and begin at the prepare node. */
    method Begin(size: nat) returns (ok: bool)
      requires process.Idle?
      modifies this
      ensures State() == Step(old(State()), EvStart(size))
      ensures ok <==> old(checkpoint).None? || old(staging).None? || Indexable(old(status))
    {
      if checkpoint.Some? && staging.Some? {
        if !Indexable(status) {
          Interrupt();
          return false;
        }
        status := Processing;
        process := At(checkpoint.value.pending);
      } else {
        checkpoint := Some(Checkpoint(PrepareNode, 0, Max(1, size), 0, 0));
        process := At(PrepareNode);
      }
      return true;
    }

    method Prepare(doc: seq<StagedChunk>) returns (ok: bool)
      requires process == At(PrepareNode) && GraphOk(State())
      modifies this
      ensures State() == AfterPrepare(old(State()), doc)
      ensures ok <==> doc != [] && Ordered(doc) && Indexable(old(status))
    {
      if doc == [] || !Ordered(doc) {
        Interrupt();
        return false;
      }
      if !Indexable(status) {
        Interrupt();
        return false;
      }
      status := Processing;
      rows := map[];
      staging := Some(doc);
      var size := checkpoint.value.batchSize;
      checkpoint := Some(Checkpoint(EmbedNode, 0, size, Batches(|doc|, Max(1, size)), |doc|));
      BeginHistory(doc);
      return true;
    }

    ghost method BeginHistory(doc: seq<StagedChunk>)
      modifies this`process, this`payload, this`calls, this`interruptions, this`from, this`others, this`alone
      ensures State() == old(State()).(process := At(EmbedNode), payload := doc, calls := 0, interruptions := 0, from := 0,
                                       others := {}, alone := true)
    {
      process, payload, calls, interruptions := At(EmbedNode), doc, 0, 0;
      from, others, alone := 0, {}, true;
    }

    /** replace_document_chunk_batch: delete the batch's ordinals, then insert its rows. */
    method ReplaceDocumentChunkBatch(batch: seq<StagedChunk>, vectors: seq<Vector>)
      requires |batch| == |vectors|
      modifies this`rows
      ensures rows == WriteBatch(old(rows), batch, vectors)
    {
      var i := 0;
      while i < |batch|
        invariant 0 <= i <= |batch|
        invariant WriteBatch(rows, batch[i..], vectors[i..]) == WriteBatch(old(rows), batch, vectors)
      {
        assert batch[i..][1..] == batch[i + 1..] && vectors[i..][1..] == vectors[i + 1..];
        ghost var before := rows;
        rows := rows - {batch[i].ordinal};
        rows := rows[batch[i].ordinal := RowFor(batch[i], vectors[i])];
        assert rows == before[batch[i].ordinal := RowFor(batch[i], vectors[i])];
        i := i + 1;
      }
    }

    method EmbedBatch(service: seq<StagedChunk> -> seq<Vector>) returns (ok: bool)
      requires process == At(EmbedNode) && GraphOk(State()) && alone
      modifies this
      ensures old(staging).None? ==> !ok && State() == Stop(old(State()))
      ensures old(staging).Some? ==>
                var vectors := service(NextBatch(old(State())));
                State() == AfterEmbed(old(State()), vectors)
                && (ok <==> Indexable(old(status)) && |vectors| == |NextBatch(old(State()))|)
    {
      if staging.None? {
        Interrupt();
        return false;
      }
      var c := checkpoint.value;
      var batch := Batch(staging.value, c.cursor, c.batchSize);
      var vectors := service(batch);
      calls := calls + 1;
      if |vectors| != |batch| {
        Interrupt();
        return false;
      }
      if !Indexable(status) {
        Interrupt();
        return false;
      }
      ReplaceDocumentChunkBatch(batch, vectors);
      var advanced := c.(cursor := c.cursor + 1);
      checkpoint := Some(advanced.(pending := Route(advanced)));
      process := At(Route(advanced));
      return true;
    }

    method Finalize(publish: bool) returns (ok: bool)
      requires process == At(FinalizeNode) && GraphOk(State())
      modifies this
      ensures State() == AfterFinalize(old(State()), publish)
      ensures ok <==> Indexable(old(status))
    {
      if !Indexable(status) {
        Interrupt();
        return false;
      }
      status := if publish then Indexed else Staged;
      chunkCount := checkpoint.value.chunkCount;
      staging := None;
      checkpoint := Some(checkpoint.value.(pending := EndNode));
      process := Idle;
      return true;
    }

    /**
     * run, without a crash. From any state that crashes can lead to, unless another job of the version has
     * cleared the rows since this job's checkpoint, it finishes the job if the version may be indexed,
     * parsing works and every call answers: the rows are exact, the staging file is gone, and only the
     * batches that were still missing are embedded.
     */
    method Run(size: nat, doc: seq<StagedChunk>, service: seq<StagedChunk> -> seq<Vector>, publish: bool)
        returns (done: bool)
      requires GraphOk(State()) && process.Idle?
      requires forall batch :: |service(batch)| == |batch|
      requires checkpoint.Some? && staging.Some? ==> alone || checkpoint.value.pending == PrepareNode
      modifies this
      ensures GraphOk(State())
      ensures Indexable(old(status)) && doc != [] && Ordered(doc) ==> done
      ensures old(status) != Queued && old(status) != Processing ==>
                !done && rows == old(rows) && chunkCount == old(chunkCount) && status == old(status) && staging == old(staging)
      ensures !done ==> rows == old(rows) && chunkCount == old(chunkCount)
                        && (status == old(status) || (old(status) == Queued && status == Processing))
      ensures done ==> Exact(State()) && staging.None? && status == if publish then Indexed else Staged
      ensures done && old(PastPrepare(State())) && old(staging).Some? ==>
                payload == old(payload)
                && calls == old(calls) + (old(checkpoint).value.batchTotal - old(checkpoint).value.cursor)
      ensures done && (old(checkpoint).None? || old(staging).None?) ==>
                payload == doc && calls == Batches(|doc|, Max(1, size))
    {
      done := Ready(size, doc);
      if !done {
        return;
      }
      done := EmbedAll(service);
      FinalizeIsItsSteps(State(), publish);
      done := Finalize(publish);
    }

    /** Resume, or start over and prepare; afterwards the batches can be embedded, or nothing of the version has changed. */
    method Ready(size: nat, doc: seq<StagedChunk>) returns (ok: bool)
      requires GraphOk(State()) && process.Idle?
      requires checkpoint.Some? && staging.Some? ==> alone || checkpoint.value.pending == PrepareNode
      modifies this
      ensures GraphOk(State())
      ensures Indexable(old(status)) && doc != [] && Ordered(doc) ==> ok
      ensures ok ==> PastPrepare(State()) && process == At(checkpoint.value.pending) && staging.Some? && Indexable(status) && alone
      ensures ok ==> Indexable(old(status))
      ensures !ok ==> rows == old(rows) && chunkCount == old(chunkCount) && staging == old(staging)
                      && (status == old(status) || (old(status) == Queued && status == Processing))
      ensures ok && old(PastPrepare(State())) && old(staging).Some? ==>
                payload == old(payload) && calls == old(calls) && checkpoint == old(checkpoint)
      ensures ok && (old(checkpoint).None? || old(staging).None?) ==>
                payload == doc && calls == 0 && checkpoint.value.cursor == 0
                && checkpoint.value.batchTotal == Batches(|doc|, Max(1, size))
    {
      StepKeepsGraph(State(), EvStart(size));
      ok := Begin(size);
      if ok && checkpoint.value.pending == PrepareNode {
        PrepareIsItsSteps(State(), doc);
        ok := Prepare(doc);
      }
    }

    /** The embed_batch loop, from any batch on. */
    method EmbedAll(service: seq<StagedChunk> -> seq<Vector>) returns (done: bool)
      requires GraphOk(State()) && PastPrepare(State()) && process == At(checkpoint.value.pending)
      requires staging.Some? && Indexable(status) && alone && forall batch :: |service(batch)| == |batch|
      modifies this
      ensures done && GraphOk(State()) && process == At(FinalizeNode) && checkpoint.Some? && alone
      ensures status == old(status) && staging == old(staging) && payload == old(payload)
      ensures calls == old(calls) + (old(checkpoint).value.batchTotal - old(checkpoint).value.cursor)
    {
      while checkpoint.value.pending == EmbedNode
        invariant GraphOk(State()) && PastPrepare(State()) && process == At(checkpoint.value.pending) && alone
        invariant status == old(status) && staging == old(staging) && payload == old(payload)
        invariant checkpoint.value.batchTotal == old(checkpoint).value.batchTotal
        invariant calls - checkpoint.value.cursor == old(calls) - old(checkpoint).value.cursor
        decreases checkpoint.value.batchTotal - checkpoint.value.cursor
      {
        EmbedIsItsSteps(State(), service(NextBatch(State())));
        var ok := EmbedBatch(service);
      }
      return true;
    }
  }
}
