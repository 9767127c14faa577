/**
 * The extractor: turns an uploaded PDF or workbook into its full text and an
 * ordered list of chunks with metadata. Parsing (PyMuPDF, pandas) and
 * pandas' `to_string` rendering are foreign; they are the fields of a
 * `Library` value that the operations receive.
 */
module DocumentProcessor {
  import opened Wrappers
  import opened Text
  import opened Chunks

  newtype byte = b: int | 0 <= b < 256

  /** A cell value as pandas holds it; the model never looks inside. */
  type Cell

  /** A worksheet column: its header and one optional value per row (None is a missing value). */
  datatype Column = Column(name: string, cells: seq<Option<Cell>>)

  /** A worksheet as `pd.read_excel` returns it: name, columns in order, and `len(df)`. */
  datatype Sheet = Sheet(name: string, columns: seq<Column>, rows: nat)

  /** A frame as pandas builds it: every column has one cell per row, `len(df)` in all. */
  predicate Rectangular(sheet: Sheet)
  {
    forall j :: 0 <= j < |sheet.columns| ==> |sheet.columns[j].cells| == sheet.rows
  }

  /** The foreign code the extractor calls. */
  datatype Library = Library(
    // `fitz.open` then `page.get_text()` per page; None when opening fails
    openPdf: seq<byte> -> Option<seq<string>>,
    // `pd.ExcelFile` then `pd.read_excel` per sheet name; None when opening fails
    openWorkbook: seq<byte> -> Option<seq<Sheet>>,
    // `df.to_string(index=False)`
    frameToString: Sheet -> string,
    // `Series.to_string()` of a column after `dropna()`: row label and value per kept row
    seriesToString: seq<(nat, Cell)> -> string)

  datatype FileKind = Pdf | Excel

  datatype ProcessError =
    | UnsupportedFileType(fileType: string)
    | CorruptFile(kind: FileKind)

  /** The pair `(full_text, chunks)` that the extractor returns. */
  datatype Extracted = Extracted(fullText: string, chunks: seq<Chunk>)

  // ---------------------------------------------------------------------
  // PDF

  /** One chunk per page, in page order, numbered from 1, each carrying the page count `total`. */
  function PdfChunks(pages: seq<string>, total: nat): (chunks: seq<Chunk>)
    ensures |chunks| == |pages|
    ensures forall i :: 0 <= i < |pages| ==> chunks[i] == Chunk(pages[i], PdfMeta(i + 1, total))
  {
    if pages == [] then []
    else PdfChunks(pages[..|pages| - 1], total) + [Chunk(pages[|pages| - 1], PdfMeta(|pages|, total))]
  }

  function PdfExtraction(content: seq<byte>, lib: Library): Result<Extracted, ProcessError>
  {
    match lib.openPdf(content)
    case None => Failure(CorruptFile(Pdf))
    case Some(pages) => Success(Extracted(Concat(pages), PdfChunks(pages, |pages|)))
  }

  /** Every chunk of a PDF carries the `source` tag "pdf". */
  lemma PdfChunkSources(pages: seq<string>, total: nat)
    ensures forall k :: 0 <= k < |PdfChunks(pages, total)| ==> PdfChunks(pages, total)[k].metadata.Source() == "pdf"
  {
  }

  method ProcessPdf(content: seq<byte>, lib: Library) returns (r: Result<Extracted, ProcessError>)
    ensures r == PdfExtraction(content, lib)
  {
    var parsed := lib.openPdf(content);
    if parsed.None? {
      return Failure(CorruptFile(Pdf));
    }
    var doc := parsed.value;
    var fullText := "";
    var chunks := [];
    var pageNum := 0;
    while pageNum < |doc|
      invariant 0 <= pageNum <= |doc|
      invariant fullText == Concat(doc[..pageNum])
      invariant chunks == PdfChunks(doc[..pageNum], |doc|)
    {
      var text := doc[pageNum];
      fullText := fullText + text;
      chunks := chunks + [Chunk(text, PdfMeta(pageNum + 1, |doc|))];
      pageNum := pageNum + 1;
      assert doc[..pageNum][..pageNum - 1] == doc[..pageNum - 1];
    }
    assert doc[..pageNum] == doc;
    return Success(Extracted(fullText, chunks));
  }

  /**
   * The chunk contents of a PDF are its page texts, none skipped, so the
   * full text is the chunk contents put together.
   */
  lemma PdfChunkContents(pages: seq<string>, total: nat)
    ensures Contents(PdfChunks(pages, total)) == pages
    ensures Concat(Contents(PdfChunks(pages, total))) == Concat(pages)
  {
    assert Contents(PdfChunks(pages, total)) == pages;
  }

  /** The full text holds page `i`'s text, as its chunk has it, right after the texts of the pages before it. */
  lemma PdfFullTextIsPageTexts(pages: seq<string>, i: nat)
    requires i < |pages|
    ensures TotalLength(pages[..i]) + |pages[i]| <= |Concat(pages)|
    ensures var start := TotalLength(pages[..i]);
      Concat(pages)[start..start + |pages[i]|] == PdfChunks(pages, |pages|)[i].content
  {
    ConcatAt(pages, i);
  }

  // ---------------------------------------------------------------------
  // Workbooks

  /** The text of a sheet-level chunk: a title line, the rendered table and a blank line. */
  function SheetText(sheet: Sheet, lib: Library): string
  {
    "Sheet: " + sheet.name + "\n" + lib.frameToString(sheet) + "\n\n"
  }

  /** `df.columns.tolist()` */
  function ColumnNames(columns: seq<Column>): seq<string>
  {
    seq(|columns|, i requires 0 <= i < |columns| => columns[i].name)
  }

  function SheetChunk(sheet: Sheet, lib: Library): Chunk
  {
    Chunk(SheetText(sheet, lib), SheetMeta(sheet.name, ColumnNames(sheet.columns), sheet.rows))
  }

  /** `dropna()` on a column: the non-missing values in row order, each with its row label. */
  function NonMissing(cells: seq<Option<Cell>>): seq<(nat, Cell)>
  {
    if cells == [] then []
    else
      var front := NonMissing(cells[..|cells| - 1]);
      match cells[|cells| - 1]
      case None => front
      case Some(v) => front + [(|cells| - 1, v)]
  }

  /** `dropna()` keeps only present cells, each with its own row label, in row order. */
  lemma {:induction false} NonMissingSound(cells: seq<Option<Cell>>)
    ensures forall k :: 0 <= k < |NonMissing(cells)| ==>
      NonMissing(cells)[k].0 < |cells| && cells[NonMissing(cells)[k].0] == Some(NonMissing(cells)[k].1)
    ensures forall k, l :: 0 <= k < l < |NonMissing(cells)| ==> NonMissing(cells)[k].0 < NonMissing(cells)[l].0
  {
    if cells != [] {
      var front := cells[..|cells| - 1];
      NonMissingSound(front);
      var frontKept := NonMissing(front);
      assert forall i :: 0 <= i < |front| ==> front[i] == cells[i];
      match cells[|cells| - 1]
      case None =>
        assert NonMissing(cells) == frontKept;
      case Some(v) =>
        assert NonMissing(cells) == frontKept + [(|front|, v)];
    }
  }

  /** `dropna()` drops only missing values: every present cell is kept, with its row label. */
  lemma {:induction false} NonMissingKeepsPresent(cells: seq<Option<Cell>>, i: nat)
    requires i < |cells| && cells[i].Some?
    ensures exists k :: 0 <= k < |NonMissing(cells)| && NonMissing(cells)[k] == (i, cells[i].value)
  {
    var front := cells[..|cells| - 1];
    if i < |front| {
      NonMissingKeepsPresent(front, i);
      var k :| 0 <= k < |NonMissing(front)| && NonMissing(front)[k] == (i, front[i].value);
      assert NonMissing(cells)[k] == (i, cells[i].value);
    } else {
      assert NonMissing(cells)[|NonMissing(cells)| - 1] == (i, cells[i].value);
    }
  }

  /** In a frame as pandas builds it, every row label `dropna()` keeps is one of the sheet's rows. */
  lemma RowLabelsInRange(sheet: Sheet, j: nat)
    requires Rectangular(sheet) && j < |sheet.columns|
    ensures forall k :: 0 <= k < |NonMissing(sheet.columns[j].cells)| ==>
      NonMissing(sheet.columns[j].cells)[k].0 < sheet.rows
  {
    NonMissingSound(sheet.columns[j].cells);
  }

  predicate HasValue(column: Column)
  {
    |NonMissing(column.cells)| > 0
  }

  /** A column has a non-missing value exactly when one of its cells is present. */
  lemma HasValueIff(column: Column)
    ensures HasValue(column) <==> exists i :: 0 <= i < |column.cells| && column.cells[i].Some?
  {
    if exists i :: 0 <= i < |column.cells| && column.cells[i].Some? {
      var i :| 0 <= i < |column.cells| && column.cells[i].Some?;
      NonMissingKeepsPresent(column.cells, i);
    }
    if HasValue(column) {
      NonMissingSound(column.cells);
      var first := NonMissing(column.cells)[0];
      assert column.cells[first.0].Some?;
    }
  }

  function ColumnText(column: Column, lib: Library): string
  {
    "Column " + column.name + ":\n" + lib.seriesToString(NonMissing(column.cells))
  }

  function ColumnChunk(sheetName: string, column: Column, lib: Library): Chunk
  {
    Chunk(ColumnText(column, lib), ColumnMeta(sheetName, column.name))
  }

  /** The number of columns with at least one non-missing value. */
  function WithValues(columns: seq<Column>): nat
  {
    if columns == [] then 0
    else WithValues(columns[..|columns| - 1]) + (if HasValue(columns[|columns| - 1]) then 1 else 0)
  }

  /** The column-level chunks of one sheet, in column order, one per column that has a value. */
  function ColumnChunks(sheetName: string, columns: seq<Column>, lib: Library): seq<Chunk>
  {
    if columns == [] then []
    else
      var last := columns[|columns| - 1];
      ColumnChunks(sheetName, columns[..|columns| - 1], lib)
        + (if HasValue(last) then [ColumnChunk(sheetName, last, lib)] else [])
  }

  /**
   * A sheet yields as many column chunks as it has columns with a value, each
   * with column-level metadata naming that sheet.
   */
  lemma {:induction false} ColumnChunksShape(sheetName: string, columns: seq<Column>, lib: Library)
    ensures |ColumnChunks(sheetName, columns, lib)| == WithValues(columns)
    ensures forall k :: 0 <= k < |ColumnChunks(sheetName, columns, lib)| ==>
      && ColumnChunks(sheetName, columns, lib)[k].metadata.ColumnMeta?
      && ColumnChunks(sheetName, columns, lib)[k].metadata.sheet == sheetName
  {
    if columns != [] {
      ColumnChunksShape(sheetName, columns[..|columns| - 1], lib);
    }
  }

  /** A sheet's chunk followed by its column chunks. */
  function SheetChunks(sheet: Sheet, lib: Library): seq<Chunk>
  {
    [SheetChunk(sheet, lib)] + ColumnChunks(sheet.name, sheet.columns, lib)
  }

  /** The number of column-level chunks of all sheets. */
  function ColumnTotal(sheets: seq<Sheet>): nat
  {
    if sheets == [] then 0
    else ColumnTotal(sheets[..|sheets| - 1]) + WithValues(sheets[|sheets| - 1].columns)
  }

  /** All chunks of a workbook: sheet by sheet, each sheet's chunk followed by its column chunks. */
  function ExcelChunks(sheets: seq<Sheet>, lib: Library): seq<Chunk>
  {
    if sheets == [] then []
    else ExcelChunks(sheets[..|sheets| - 1], lib) + SheetChunks(sheets[|sheets| - 1], lib)
  }

  /** A workbook yields one chunk per sheet plus one per column that has a value. */
  lemma {:induction false} ExcelChunkCount(sheets: seq<Sheet>, lib: Library)
    ensures |ExcelChunks(sheets, lib)| == |sheets| + ColumnTotal(sheets)
  {
    if sheets != [] {
      var last := sheets[|sheets| - 1];
      ExcelChunkCount(sheets[..|sheets| - 1], lib);
      ColumnChunksShape(last.name, last.columns, lib);
    }
  }

  /**
   * Every chunk of a workbook carries the `source` tag "excel" when it is a
   * sheet's chunk and "excel_column" when it is a column's.
   */
  lemma {:induction false} ExcelChunkSources(sheets: seq<Sheet>, lib: Library)
    ensures forall k :: 0 <= k < |ExcelChunks(sheets, lib)| ==>
      ExcelChunks(sheets, lib)[k].metadata.Source() ==
        (if ExcelChunks(sheets, lib)[k].metadata.SheetMeta? then "excel" else "excel_column")
  {
    if sheets != [] {
      var last := sheets[|sheets| - 1];
      var earlier := ExcelChunks(sheets[..|sheets| - 1], lib);
      var columnChunks := ColumnChunks(last.name, last.columns, lib);
      ExcelChunkSources(sheets[..|sheets| - 1], lib);
      ColumnChunksShape(last.name, last.columns, lib);
      assert ExcelChunks(sheets, lib) == earlier + [SheetChunk(last, lib)] + columnChunks;
    }
  }

  /** The full text of a workbook: the sheet texts in sheet order. */
  function ExcelFullText(sheets: seq<Sheet>, lib: Library): string
  {
    if sheets == [] then ""
    else ExcelFullText(sheets[..|sheets| - 1], lib) + SheetText(sheets[|sheets| - 1], lib)
  }

  lemma ExcelStep(sheets: seq<Sheet>, i: nat, lib: Library)
    requires i < |sheets|
    ensures ExcelChunks(sheets[..i + 1], lib) == ExcelChunks(sheets[..i], lib) + SheetChunks(sheets[i], lib)
    ensures ExcelFullText(sheets[..i + 1], lib) == ExcelFullText(sheets[..i], lib) + SheetText(sheets[i], lib)
  {
    assert sheets[..i + 1][..i] == sheets[..i];
  }

  lemma ColumnStep(sheetName: string, columns: seq<Column>, j: nat, lib: Library)
    requires j < |columns|
    ensures ColumnChunks(sheetName, columns[..j + 1], lib) == ColumnChunks(sheetName, columns[..j], lib)
      + (if HasValue(columns[j]) then [ColumnChunk(sheetName, columns[j], lib)] else [])
  {
    assert columns[..j + 1][..j] == columns[..j];
  }

  function ExcelExtraction(content: seq<byte>, lib: Library): Result<Extracted, ProcessError>
  {
    match lib.openWorkbook(content)
    case None => Failure(CorruptFile(Excel))
    case Some(sheets) => Success(Extracted(ExcelFullText(sheets, lib), ExcelChunks(sheets, lib)))
  }

  method ProcessExcel(content: seq<byte>, lib: Library) returns (r: Result<Extracted, ProcessError>)
    ensures r == ExcelExtraction(content, lib)
  {
    var parsed := lib.openWorkbook(content);
    if parsed.None? {
      return Failure(CorruptFile(Excel));
    }
    var sheets := parsed.value;
    var fullText := "";
    var chunks := [];
    for i := 0 to |sheets|
      invariant fullText == ExcelFullText(sheets[..i], lib)
      invariant chunks == ExcelChunks(sheets[..i], lib)
    {
      var sheet := sheets[i];
      var sheetText := "Sheet: " + sheet.name + "\n";
      sheetText := sheetText + lib.frameToString(sheet) + "\n\n";
      assert sheetText == SheetText(sheet, lib);
      fullText := fullText + sheetText;
      chunks := chunks + [Chunk(sheetText, SheetMeta(sheet.name, ColumnNames(sheet.columns), sheet.rows))];
      assert sheet.columns[..0] == [];
      ghost var before := chunks;
      assert before == ExcelChunks(sheets[..i], lib) + [SheetChunk(sheet, lib)];
      for j := 0 to |sheet.columns|
        invariant chunks == before + ColumnChunks(sheet.name, sheet.columns[..j], lib)
      {
        var col := sheet.columns[j];
        var colData := NonMissing(col.cells);
        if |colData| > 0 {
          chunks := chunks + [Chunk("Column " + col.name + ":\n" + lib.seriesToString(colData),
                                    ColumnMeta(sheet.name, col.name))];
        }
        assert HasValue(col) <==> |colData| > 0;
        ColumnStep(sheet.name, sheet.columns, j, lib);
      }
      assert sheet.columns[..|sheet.columns|] == sheet.columns;
      assert chunks == ExcelChunks(sheets[..i], lib) + SheetChunks(sheet, lib);
      ExcelStep(sheets, i, lib);
    }
    assert sheets[..|sheets|] == sheets;
    return Success(Extracted(fullText, chunks));
  }

  lemma {:induction false} WithValuesMonotone(columns: seq<Column>, a: nat, b: nat)
    requires a <= b <= |columns|
    ensures WithValues(columns[..a]) <= WithValues(columns[..b])
  {
    if a < b {
      WithValuesMonotone(columns, a, b - 1);
      assert columns[..b][..b - 1] == columns[..b - 1];
    }
  }

  /** A column with a value yields the column chunk after those of the earlier columns with a value. */
  lemma {:induction false} ValuedColumnEmitted(sheetName: string, columns: seq<Column>, j: nat, lib: Library)
    requires j < |columns| && HasValue(columns[j])
    ensures WithValues(columns[..j]) < |ColumnChunks(sheetName, columns, lib)|
    ensures ColumnChunks(sheetName, columns, lib)[WithValues(columns[..j])] == ColumnChunk(sheetName, columns[j], lib)
  {
    var front := columns[..|columns| - 1];
    ColumnChunksShape(sheetName, front, lib);
    assert ColumnChunks(sheetName, columns, lib)[..|ColumnChunks(sheetName, front, lib)|]
      == ColumnChunks(sheetName, front, lib);
    if j < |front| {
      ValuedColumnEmitted(sheetName, front, j, lib);
      assert columns[..j] == front[..j];
    } else {
      assert columns[..j] == front;
    }
  }

  /** Every column chunk is the chunk of a column with a value, at that column's position. */
  lemma {:induction false} EmittedChunkOrigin(sheetName: string, columns: seq<Column>, k: nat, lib: Library)
    requires k < |ColumnChunks(sheetName, columns, lib)|
    ensures exists j :: && 0 <= j < |columns| && HasValue(columns[j]) && WithValues(columns[..j]) == k
                        && ColumnChunks(sheetName, columns, lib)[k] == ColumnChunk(sheetName, columns[j], lib)
  {
    var front := columns[..|columns| - 1];
    var fs := ColumnChunks(sheetName, front, lib);
    ColumnChunksShape(sheetName, front, lib);
    assert ColumnChunks(sheetName, columns, lib)[..|fs|] == fs;
    if k < |fs| {
      EmittedChunkOrigin(sheetName, front, k, lib);
      var j :| && 0 <= j < |front| && HasValue(front[j]) && WithValues(front[..j]) == k
               && fs[k] == ColumnChunk(sheetName, front[j], lib);
      assert columns[..j] == front[..j];
      assert columns[j] == front[j];
    } else {
      var j := |columns| - 1;
      assert columns[..j] == front;
      assert HasValue(columns[j]) && WithValues(columns[..j]) == k;
    }
  }

  /**
   * Every column with a value yields a column chunk, at position
   * `WithValues(columns[..j])`, and earlier columns take earlier positions.
   * With `EmittedChunkOrigin` and the count in `ColumnChunksShape` this
   * pairs column chunks one to one with the columns that have a value.
   */
  lemma ColumnChunksExact(sheetName: string, columns: seq<Column>, lib: Library)
    ensures forall j :: 0 <= j < |columns| && HasValue(columns[j]) ==>
      && WithValues(columns[..j]) < |ColumnChunks(sheetName, columns, lib)|
      && ColumnChunks(sheetName, columns, lib)[WithValues(columns[..j])] == ColumnChunk(sheetName, columns[j], lib)
    ensures forall j1, j2 :: 0 <= j1 < j2 < |columns| && HasValue(columns[j1]) ==>
      WithValues(columns[..j1]) < WithValues(columns[..j2])
  {
    forall j | 0 <= j < |columns| && HasValue(columns[j])
      ensures WithValues(columns[..j]) < |ColumnChunks(sheetName, columns, lib)|
      ensures ColumnChunks(sheetName, columns, lib)[WithValues(columns[..j])] == ColumnChunk(sheetName, columns[j], lib)
    {
      ValuedColumnEmitted(sheetName, columns, j, lib);
    }
    forall j1, j2 | 0 <= j1 < j2 < |columns| && HasValue(columns[j1])
      ensures WithValues(columns[..j1]) < WithValues(columns[..j2])
    {
      WithValuesMonotone(columns, j1 + 1, j2);
      assert columns[..j1 + 1][..j1] == columns[..j1];
    }
  }

  lemma {:induction false} ExcelChunksAppend(a: seq<Sheet>, b: seq<Sheet>, lib: Library)
    ensures ExcelChunks(a + b, lib) == ExcelChunks(a, lib) + ExcelChunks(b, lib)
  {
    if b == [] {
      assert a + b == a;
    } else {
      var front := b[..|b| - 1];
      assert (a + b)[..|a + b| - 1] == a + front;
      ExcelChunksAppend(a, front, lib);
    }
  }

  /**
   * Sheet `i`'s chunk comes after all chunks of the earlier sheets and is
   * followed at once by that sheet's column chunks; the next sheet's chunks
   * come after them.
   */
  lemma SheetChunkPlacement(sheets: seq<Sheet>, i: nat, lib: Library)
    requires i < |sheets|
    ensures ExcelChunks(sheets, lib)
      == ExcelChunks(sheets[..i], lib) + SheetChunks(sheets[i], lib) + ExcelChunks(sheets[i + 1..], lib)
    ensures var start := i + ColumnTotal(sheets[..i]);
      var columnsEnd := start + 1 + WithValues(sheets[i].columns);
      && columnsEnd <= |ExcelChunks(sheets, lib)|
      && ExcelChunks(sheets, lib)[start] == SheetChunk(sheets[i], lib)
      && ExcelChunks(sheets, lib)[start + 1..columnsEnd] == ColumnChunks(sheets[i].name, sheets[i].columns, lib)
  {
    assert sheets == sheets[..i] + [sheets[i]] + sheets[i + 1..];
    ExcelChunksAppend(sheets[..i] + [sheets[i]], sheets[i + 1..], lib);
    ExcelChunksAppend(sheets[..i], [sheets[i]], lib);
    assert [sheets[i]][..0] == [];
    ExcelChunkCount(sheets[..i], lib);
    ExcelChunkCount(sheets, lib);
    ColumnChunksShape(sheets[i].name, sheets[i].columns, lib);
  }

  /** The sheet-level chunks among `chunks`, in order. */
  function SheetLevel(chunks: seq<Chunk>): seq<Chunk>
  {
    if chunks == [] then []
    else
      var last := chunks[|chunks| - 1];
      SheetLevel(chunks[..|chunks| - 1]) + (if last.metadata.SheetMeta? then [last] else [])
  }

  lemma {:induction false} SheetLevelAppend(a: seq<Chunk>, b: seq<Chunk>)
    ensures SheetLevel(a + b) == SheetLevel(a) + SheetLevel(b)
  {
    if b == [] {
      assert a + b == a;
    } else {
      var front := b[..|b| - 1];
      assert (a + b)[..|a + b| - 1] == a + front;
      SheetLevelAppend(a, front);
    }
  }

  lemma {:induction false} NoSheetLevel(chunks: seq<Chunk>)
    requires forall k :: 0 <= k < |chunks| ==> chunks[k].metadata.ColumnMeta?
    ensures SheetLevel(chunks) == []
  {
    if chunks != [] {
      NoSheetLevel(chunks[..|chunks| - 1]);
    }
  }

  function SheetChunkList(sheets: seq<Sheet>, lib: Library): seq<Chunk>
  {
    seq(|sheets|, i requires 0 <= i < |sheets| => SheetChunk(sheets[i], lib))
  }

  lemma SheetLevelOfSheet(sheet: Sheet, lib: Library)
    ensures SheetLevel(SheetChunks(sheet, lib)) == [SheetChunk(sheet, lib)]
  {
    var columnChunks := ColumnChunks(sheet.name, sheet.columns, lib);
    SheetLevelAppend([SheetChunk(sheet, lib)], columnChunks);
    ColumnChunksShape(sheet.name, sheet.columns, lib);
    NoSheetLevel(columnChunks);
    assert [SheetChunk(sheet, lib)][..0] == [];
  }

  /** Exactly one sheet-level chunk per sheet, in sheet order. */
  lemma {:induction false} OneSheetChunkPerSheet(sheets: seq<Sheet>, lib: Library)
    ensures SheetLevel(ExcelChunks(sheets, lib)) == SheetChunkList(sheets, lib)
  {
    if sheets != [] {
      var front := sheets[..|sheets| - 1];
      var last := sheets[|sheets| - 1];
      assert ExcelChunks(sheets, lib) == ExcelChunks(front, lib) + SheetChunks(last, lib);
      OneSheetChunkPerSheet(front, lib);
      SheetLevelAppend(ExcelChunks(front, lib), SheetChunks(last, lib));
      SheetLevelOfSheet(last, lib);
      assert SheetLevel(ExcelChunks(sheets, lib)) == SheetChunkList(front, lib) + [SheetChunk(last, lib)];
      assert SheetChunkList(sheets, lib) == SheetChunkList(front, lib) + [SheetChunk(last, lib)];
    }
  }

  lemma {:induction false} SheetTextsInOrder(sheets: seq<Sheet>, lib: Library)
    ensures ExcelFullText(sheets, lib) == Concat(Contents(SheetChunkList(sheets, lib)))
  {
    if sheets != [] {
      var front := sheets[..|sheets| - 1];
      SheetTextsInOrder(front, lib);
      var texts := Contents(SheetChunkList(sheets, lib));
      assert texts[..|texts| - 1] == Contents(SheetChunkList(front, lib));
    }
  }

  /**
   * The full text of a workbook is made of the sheet-level chunks alone, in
   * sheet order; no column-level text enters it.
   */
  lemma ExcelFullTextIsSheetChunks(sheets: seq<Sheet>, lib: Library)
    ensures ExcelFullText(sheets, lib) == Concat(Contents(SheetLevel(ExcelChunks(sheets, lib))))
    ensures |SheetLevel(ExcelChunks(sheets, lib))| == |sheets|
  {
    OneSheetChunkPerSheet(sheets, lib);
    SheetTextsInOrder(sheets, lib);
  }

  // ---------------------------------------------------------------------
  // Dispatch on the declared file type

  /** Which extractor a file type selects; the comparison ignores letter case. */
  function Kind(fileType: string): Option<FileKind>
  {
    var t := Lower(fileType);
    if t == "pdf" then Some(Pdf)
    else if t == "xlsx" || t == "xls" then Some(Excel)
    else None
  }

  method ProcessFile(content: seq<byte>, fileType: string, lib: Library) returns (r: Result<Extracted, ProcessError>)
    ensures Kind(fileType) == Some(Pdf) ==> r == PdfExtraction(content, lib)
    ensures Kind(fileType) == Some(Excel) ==> r == ExcelExtraction(content, lib)
    ensures Kind(fileType) == None ==> r == Failure(UnsupportedFileType(fileType))
  {
    var t := Lower(fileType);
    if t == "pdf" {
      r := ProcessPdf(content, lib);
    } else if t == "xlsx" || t == "xls" {
      r := ProcessExcel(content, lib);
    } else {
      r := Failure(UnsupportedFileType(fileType));
    }
  }

  /** The accepted spellings: "pdf", "xlsx" and "xls" in any mix of letter case, and nothing else. */
  lemma KindSpellings(fileType: string)
    ensures Kind(fileType) == Some(Pdf) <==> MatchesIgnoringCase(fileType, "pdf")
    ensures Kind(fileType) == Some(Excel)
      <==> MatchesIgnoringCase(fileType, "xlsx") || MatchesIgnoringCase(fileType, "xls")
    ensures Kind(fileType) == None
      <==> !MatchesIgnoringCase(fileType, "pdf") && !MatchesIgnoringCase(fileType, "xlsx")
           && !MatchesIgnoringCase(fileType, "xls")
  {
    LowerMatches(fileType, "pdf");
    LowerMatches(fileType, "xlsx");
    LowerMatches(fileType, "xls");
  }
}
