/** backend/database.py, lines 464-496: chunk rows as the synchronous engine stores them. */
module ChunkRows {
  import opened Text
  import opened TextIndex
  import opened Chunker

  type Vector = seq<real>

  /** A chunk row as it is stored, apart from its ordinal. */
  datatype StoredRow = StoredRow(
    heading: string, page: Option<int>, content: string, parentContent: string, isTitleBlock: bool, searchText: string,
    embedding: Vector)

  function SimpleRow(p: Piece, v: Vector): StoredRow {
    StoredRow(Cut(p.heading, HEADING_LIMIT), p.page, p.content, p.parentContent, p.isTitleBlock,
              LexicalText(p.heading + " " + p.content), v)
  }

  /** Rows keyed by their ordinal. */
  function Keyed<T>(xs: seq<T>): map<nat, T> {
    map o: nat | 0 <= o < |xs| :: xs[o]
  }

  function SimpleRows(pieces: seq<Piece>, vectors: seq<Vector>): (rows: seq<StoredRow>)
    requires |pieces| == |vectors|
    ensures |rows| == |pieces| && forall o | 0 <= o < |pieces| :: rows[o] == SimpleRow(pieces[o], vectors[o])
  {
    seq(|pieces|, o requires 0 <= o < |pieces| => SimpleRow(pieces[o], vectors[o]))
  }

  /** One row after the other, each under its ordinal. */
  method BuildTable(added: seq<StoredRow>) returns (rows: map<nat, StoredRow>)
    ensures rows == Keyed(added)
  {
    rows := map[];
    var i := 0;
    while i < |added|
      invariant 0 <= i <= |added|
      invariant rows == Keyed(added[..i])
    {
      rows := rows[i := added[i]];
      i := i + 1;
    }
    assert added[..i] == added;
  }

  /**
   * What is stored of a piece: its text, page, parent text and flag as they are, the first 512 characters of its heading,
   * its vector, and a search text that splits into the terms of heading and text.
   */
  lemma StoredPiece(pieces: seq<Piece>, vectors: seq<Vector>, o: nat)
    requires |pieces| == |vectors| && o < |pieces|
    ensures var row, p := Keyed(SimpleRows(pieces, vectors))[o], pieces[o];
            row.content == p.content && row.page == p.page && row.parentContent == p.parentContent
            && row.isTitleBlock == p.isTitleBlock && row.embedding == vectors[o]
            && row.heading == (if |p.heading| > 512 then p.heading[..512] else p.heading)
            && SplitWords(row.searchText) == LexicalTerms(p.heading + " " + p.content)
  {
    SearchTextSplitsBack(pieces[o].heading + " " + pieces[o].content);
  }
}
