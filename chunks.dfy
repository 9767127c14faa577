/**
 * The unit the extractor produces and the embedding engine indexes: a piece
 * of text with metadata saying where in the document it came from.
 */
module Chunks {

  /**
   * The metadata dictionary of a chunk. Each shape has its own `source` tag:
   * a PDF page, a whole worksheet, or one column of a worksheet.
   */
  datatype Metadata =
    | PdfMeta(page: nat, totalPages: nat)
    | SheetMeta(sheet: string, columns: seq<string>, rows: nat)
    | ColumnMeta(sheet: string, column: string)
  {
    /** The value of the `source` key. */
    function Source(): string
    {
      match this
      case PdfMeta(_, _) => "pdf"
      case SheetMeta(_, _, _) => "excel"
      case ColumnMeta(_, _) => "excel_column"
    }
  }

  datatype Chunk = Chunk(content: string, metadata: Metadata)

  /** The contents of the chunks, in order. */
  function Contents(chunks: seq<Chunk>): seq<string>
  {
    seq(|chunks|, i requires 0 <= i < |chunks| => chunks[i].content)
  }
}
