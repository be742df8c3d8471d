/** What the two indexing engines store of the same document: backend/database.py, lines 464-534, and worker/graph.py. */
module Engines {
  import opened Text
  import opened TextIndex
  import opened Windows
  import opened Chunker
  import opened ChunkRows
  import Graph = IndexingGraph
  import GraphRunner

  /** The text both engines send to the embedding service. */
  function EmbedText(heading: string, content: string): string {
    Strip(heading + "\n" + content)
  }

  /** A row of the graph engine: the staging file carries neither the parent text nor the title flag. */
  function GraphRow(c: Graph.StagedChunk, r: Graph.Row): StoredRow {
    StoredRow(r.heading, r.page, r.content, "", false, LexicalText(c.heading + " " + c.content), r.embedding)
  }

  function PiecesIn(chunks: seq<Chunk>): (ps: seq<Piece>)
    ensures |ps| == |chunks| && forall i | 0 <= i < |chunks| :: ps[i] == chunks[i].piece
  {
    seq(|chunks|, i requires 0 <= i < |chunks| => chunks[i].piece)
  }

  function VectorsOf(pieces: seq<Piece>, embed: string -> Vector): (vs: seq<Vector>)
    ensures |vs| == |pieces|
    ensures forall i | 0 <= i < |pieces| :: vs[i] == embed(EmbedText(pieces[i].heading, pieces[i].content))
  {
    seq(|pieces|, i requires 0 <= i < |pieces| => embed(EmbedText(pieces[i].heading, pieces[i].content)))
  }

  /** The rows that the synchronous engine ends with. */
  function SynchronousRows(chunks: seq<Chunk>, embed: string -> Vector): (rows: seq<StoredRow>)
    ensures |rows| == |chunks|
  {
    SimpleRows(PiecesIn(chunks), VectorsOf(PiecesIn(chunks), embed))
  }

  function ChunkEmbedder(embed: string -> Vector): Graph.StagedChunk -> Vector {
    (c: Graph.StagedChunk) => embed(EmbedText(c.heading, c.content))
  }

  /** The rows that the graph engine ends with, whatever crashed. */
  function GraphRows(doc: seq<Graph.StagedChunk>, embed: string -> Vector): (rows: seq<StoredRow>)
    ensures |rows| == |doc|
    ensures forall o | 0 <= o < |doc| :: rows[o] == GraphRow(doc[o], Graph.RowsOf(doc, ChunkEmbedder(embed))[o])
  {
    seq(|doc|, o requires 0 <= o < |doc| => GraphRow(doc[o], Graph.RowsOf(doc, ChunkEmbedder(embed))[o]))
  }

  // ----- where the engines differ -----

  /** One row differs exactly in what the staging file drops. */
  lemma RowsAgreeIff(chunks: seq<Chunk>, embed: string -> Vector, o: nat)
    requires o < |chunks|
    ensures var simple := SynchronousRows(chunks, embed)[o];
            var graph := GraphRows(GraphRunner.StagedFor(chunks), embed)[o];
            graph == simple.(parentContent := "", isTitleBlock := false)
            && (graph == simple <==> chunks[o].piece.parentContent == "" && !chunks[o].piece.isTitleBlock)
  {
  }

  /** A chunk carries a parent text exactly in the parent-child layout. */
  lemma ParentTextIffLinked(sections: seq<Section>, cfg: Config, c: Chunk)
    requires cfg.Sane() && HasText(sections)
    requires c in ChunkedDocument(sections, cfg).value
    ensures c.piece.parentContent == "" <==> cfg.childMax.None?
  {
    if cfg.childMax.Some? {
      var k, child, parent := ParentLinkIsReal(sections, cfg, c);
      WindowsAreSpans(Normalize(sections[k].text), cfg.maxChars, cfg.overlap, parent);
    } else {
      var k, j := SectionOf(PiecesBySection(sections, cfg), c);
      assert c.piece == SectionPieces(sections[k], cfg)[j];
    }
  }

  lemma RowAgreesIff(sections: seq<Section>, cfg: Config, embed: string -> Vector, chunks: seq<Chunk>, o: nat)
    requires cfg.Sane() && HasText(sections) && ChunkedDocument(sections, cfg) == Ok(chunks) && o < |chunks|
    ensures GraphRows(GraphRunner.StagedFor(chunks), embed)[o] == SynchronousRows(chunks, embed)[o]
            <==> cfg.childMax.None? && !chunks[o].piece.isTitleBlock
  {
    RowsAgreeIff(chunks, embed, o);
    ParentTextIffLinked(sections, cfg, chunks[o]);
  }

  lemma RowsAgreeThroughout(sections: seq<Section>, cfg: Config, embed: string -> Vector, chunks: seq<Chunk>,
                            simple: seq<StoredRow>, graph: seq<StoredRow>)
    requires cfg.Sane() && HasText(sections) && ChunkedDocument(sections, cfg) == Ok(chunks)
    requires simple == SynchronousRows(chunks, embed)
    requires graph == GraphRows(GraphRunner.StagedFor(chunks), embed)
    ensures |simple| == |graph| == |chunks| > 0
    ensures forall o | 0 <= o < |chunks| :: graph[o] == simple[o] <==> cfg.childMax.None? && !chunks[o].piece.isTitleBlock
  {
    DocumentNotEmpty(sections, cfg);
    forall o: nat | o < |chunks| ensures graph[o] == simple[o] <==> cfg.childMax.None? && !chunks[o].piece.isTitleBlock {
      RowAgreesIff(sections, cfg, embed, chunks, o);
    }
  }

  lemma TablesAgreeIff(chunks: seq<Chunk>, simple: seq<StoredRow>, graph: seq<StoredRow>, flat: bool)
    requires |simple| == |graph| == |chunks| > 0
    requires forall o | 0 <= o < |chunks| :: graph[o] == simple[o] <==> flat && !chunks[o].piece.isTitleBlock
    ensures Keyed(simple) == Keyed(graph) <==> flat && forall o | 0 <= o < |chunks| :: !chunks[o].piece.isTitleBlock
  {
    if Keyed(simple) == Keyed(graph) {
      assert forall o: nat | o < |simple| :: Keyed(simple)[o] == simple[o] && Keyed(graph)[o] == graph[o];
      assert graph[0] == simple[0];
    }
  }

  /**
   * The engines store the same table for a document exactly when it is chunked without parents and none of its chunks
   * is a title block; in the parent-child layout every row differs.
   */
  lemma EnginesAgreeIff(sections: seq<Section>, cfg: Config, embed: string -> Vector, chunks: seq<Chunk>)
    requires cfg.Sane() && HasText(sections) && ChunkedDocument(sections, cfg) == Ok(chunks)
    ensures Keyed(SynchronousRows(chunks, embed)) == Keyed(GraphRows(GraphRunner.StagedFor(chunks), embed))
            <==> cfg.childMax.None? && forall o | 0 <= o < |chunks| :: !chunks[o].piece.isTitleBlock
  {
    var simple, graph := SynchronousRows(chunks, embed), GraphRows(GraphRunner.StagedFor(chunks), embed);
    RowsAgreeThroughout(sections, cfg, embed, chunks, simple, graph);
    TablesAgreeIff(chunks, simple, graph, cfg.childMax.None?);
  }

  lemma DocumentNotEmpty(sections: seq<Section>, cfg: Config)
    requires cfg.SizesPositive() && HasText(sections)
    ensures ChunkedDocument(sections, cfg).Ok? && ChunkedDocument(sections, cfg).value != []
  {
    ExpectedDocument(sections, cfg, Expected(sections, cfg));
  }

  /** Both engines store, for every chunk, the vector of its heading and text together. */
  lemma VectorsAreOfHeadingAndText(chunks: seq<Chunk>, embed: string -> Vector, o: nat)
    requires o < |chunks|
    ensures var p := chunks[o].piece;
            SynchronousRows(chunks, embed)[o].embedding == embed(Strip(p.heading + "\n" + p.content))
            && GraphRows(GraphRunner.StagedFor(chunks), embed)[o].embedding == embed(Strip(p.heading + "\n" + p.content))
  {
  }
}
