/**
 * The Word document the renderer writes, reduced to what it says: an
 * append-only sequence of paragraphs (runs of text, some bold), bullet items
 * and tables. Fonts, sizes, alignment and page layout are not part of it.
 */
module Docx {
  import opened Wrappers

  /** A run of text in a paragraph. */
  datatype Run = Run(text: string, bold: bool)

  /** A cell of a table's first header row: its title, first column and column span. */
  datatype HeaderCell = HeaderCell(title: string, start: nat, span: nat)

  datatype Block =
    | Para(runs: seq<Run>)
    | Bullet(text: string)
    /** A table: its column count, its first header row, then every further row's cell texts. */
    | Table(width: nat, header: seq<HeaderCell>, body: seq<seq<string>>)

  /** The paragraph written in place of a table without headers or rows. */
  const NoData: Block := Para([Run("No data available for this table.", false)])

  /** A paragraph of one bold run (`add_bold_subheading`). */
  function BoldPara(text: string): Block {
    Para([Run(text, true)])
  }

  /** A paragraph of one plain run. */
  function PlainPara(text: string): Block {
    Para([Run(text, false)])
  }

  /** What a rendering step appends: the blocks written, and the error raised after them, if any. */
  datatype Emitted = Emitted(blocks: seq<Block>, error: Option<PyError>)

  /** Blocks written without error. */
  function Done(blocks: seq<Block>): Emitted {
    Emitted(blocks, None)
  }

  /** Sequencing: the second step runs only when the first did not raise. */
  function Then(first: Emitted, second: Emitted): (r: Emitted)
    ensures first.error.Some? ==> r == first
    ensures first.error == None ==> r.blocks == first.blocks + second.blocks && r.error == second.error
  {
    if first.error.Some? then first else Emitted(first.blocks + second.blocks, second.error)
  }

  /** Appending in two steps is appending the two parts at once. */
  lemma AppendAssoc(a: seq<Block>, b: seq<Block>, c: seq<Block>)
    ensures (a + b) + c == a + (b + c)
  {
  }

  /** The document being written. */
  class Document {
    var blocks: seq<Block>

    constructor()
      ensures blocks == []
    {
      blocks := [];
    }

    /** `add_paragraph` / `add_table`: one block at the end, nothing else changes. */
    method Add(b: Block)
      modifies this
      ensures blocks == old(blocks) + [b]
    {
      blocks := blocks + [b];
    }
  }
}
