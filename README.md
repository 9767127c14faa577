# Document ingestion core of an AI operations copilot

This project models, in Dafny, the part of the copilot that turns an uploaded
document into retrievable pieces and feeds them to a language model:

- the **document processor** (`DocumentProcessor`, `document_processor.dfy`):
  a PDF becomes one chunk per page, a page without text included (its
  chunk's content is empty); a workbook becomes one chunk per sheet,
  each followed by one chunk per column that holds at least one value; both
  paths also build the document's full text. `ProcessFile` picks the path
  from the declared file type, ignoring letter case, and rejects any other
  type with an error carrying the type as given;
- the **embedding engine** (`Embedding`, `embedding_engine.dfy`): a class
  whose `vectorStore` field is empty until `CreateEmbeddings` builds a store
  from the chunks (one LangChain document per chunk). Retrieval before that
  fails. A rebuild replaces the store; a build that raises keeps the old one.
  Retrieval passes `k` to the store unchanged;
- the **task planner** (`Planning`, `task_planner.dfy`): the task plan is
  asked for with the retrieved documents' contents joined by blank lines. The
  summary is asked for with the full text, passed on whole.

The processing loops are imperative methods (`ProcessPdf`, `ProcessExcel`),
each proved equal to a specification function (`PdfChunks`, `ExcelChunks`,
`Concat`, `ExcelFullText`). The properties the source promises are lemmas
about those functions. The engine is a class with `modifies` clauses; the
planner is pure functions. `Text` (`text.dfy`) holds the string building
blocks: repeated `+=`, `sep.join` and ASCII `str.lower`. `Chunks`
(`chunks.dfy`) holds the chunk and its metadata. `Wrappers`
(`wrappers.dfy`) holds `Option` and `Result`.

Foreign code is passed in as function-valued fields, each assumed to be a
function of its arguments (same input, same answer):
- `Library`: PyMuPDF's page texts and pandas' workbook reading, each `None` when opening raises; `DataFrame.to_string(index=False)` and `Series.to_string()`, assumed total;
- `VectorIndex`: `Chroma.from_documents` with the OpenAI embedding model and `similarity_search`, each `None` when it raises;
- `TaskPlanner.llm`: the chat model behind `LLMChain.run`, assumed total (see "Left out").

The vector store is an opaque type parameter `Store`.

## Model

| member | source | states |
|---|---|---|
| `DocumentProcessor.PdfChunks` | utils/document_processor.py:19-31 | one chunk per page, in page order; chunk i holds exactly page i's text (empty text too) with page number i+1 and the page count |
| `DocumentProcessor.PdfChunkSources` | utils/document_processor.py:27-30 | every PDF chunk carries the `source` tag "pdf" |
| `DocumentProcessor.ProcessPdf` | utils/document_processor.py:12-33 | the loop returns the concatenated page texts and `PdfChunks` of the pages with total = number of pages; a document the PDF library cannot open fails with `CorruptFile(Pdf)` |
| `DocumentProcessor.PdfChunkContents` | utils/document_processor.py:19-25 | the chunk contents are exactly the page texts, so no page is skipped (empty pages included), and the full text is those contents put together |
| `DocumentProcessor.PdfFullTextIsPageTexts` | utils/document_processor.py:19-25 | the full text holds page i's text, as its chunk has it, right after the texts of pages 0..i-1 |
| `Text.ConcatAt` | utils/document_processor.py:21 | after the `full_text += text` loop, part i sits unchanged at offset = total length of the earlier parts |
| `DocumentProcessor.NonMissingSound` | utils/document_processor.py:61 | `dropna` keeps only present cells, each with its own row label, in increasing row order |
| `DocumentProcessor.NonMissingKeepsPresent` | utils/document_processor.py:61 | `dropna` keeps every present cell, with its row label |
| `DocumentProcessor.RowLabelsInRange` | utils/document_processor.py:60-61 | in a frame whose columns all have `len(df)` cells, every row label `dropna` keeps is below `len(df)` |
| `DocumentProcessor.HasValueIff` | utils/document_processor.py:61-62 | the column's non-missing series is non-empty iff some cell of the column is present |
| `DocumentProcessor.ColumnChunksShape` | utils/document_processor.py:60-71 | a sheet yields as many column chunks as it has columns with a value; each has `excel_column` metadata naming that sheet |
| `DocumentProcessor.ValuedColumnEmitted` | utils/document_processor.py:60-71 | every column with a value yields its chunk `"Column " + name + ":\n" + rendered values`, placed after the chunks of the earlier columns that have a value |
| `DocumentProcessor.EmittedChunkOrigin` | utils/document_processor.py:60-71 | every column chunk is the chunk of some column with a value, at that column's position |
| `DocumentProcessor.ColumnChunksExact` | utils/document_processor.py:60-71 | columns with a value map one to one to chunk positions, and earlier columns get earlier positions (column order) |
| `DocumentProcessor.ExcelChunkCount` | utils/document_processor.py:44-71 | a workbook yields one chunk per sheet plus one per column that has a value |
| `DocumentProcessor.ExcelChunkSources` | utils/document_processor.py:52-70 | every workbook chunk is tagged "excel" when it is a sheet's chunk and "excel_column" when it is a column's |
| `DocumentProcessor.SheetChunkPlacement` | utils/document_processor.py:44-71 | sheet i's chunk comes after all chunks of earlier sheets, at index i + their column chunks; its own column chunks follow it at once; later sheets' chunks come after those |
| `DocumentProcessor.OneSheetChunkPerSheet` | utils/document_processor.py:44-58 | the sheet-level chunks are exactly one per sheet, in sheet order, each with content `"Sheet: " + name + "\n" + table + "\n\n"`, the column list and the row count |
| `DocumentProcessor.SheetTextsInOrder` | utils/document_processor.py:46-48 | the full text is the sheet texts concatenated in sheet order |
| `DocumentProcessor.ExcelFullTextIsSheetChunks` | utils/document_processor.py:41-58 | the full text is the contents of the sheet-level chunks alone, in order (no column text), and there are as many sheet-level chunks as sheets |
| `DocumentProcessor.ProcessExcel` | utils/document_processor.py:35-73 | the nested loops return `ExcelFullText` and `ExcelChunks` of the workbook's sheets; a workbook pandas cannot open fails with `CorruptFile(Excel)` |
| `DocumentProcessor.ProcessFile` | utils/document_processor.py:75-83 | a type that lowercases to "pdf" takes the PDF path; "xlsx" or "xls" take the workbook path; any other type fails with `UnsupportedFileType` carrying the type as given |
| `DocumentProcessor.KindSpellings` | utils/document_processor.py:78-83 | the accepted types are exactly "pdf", "xlsx" and "xls" in any mix of upper and lower case letters |
| `Text.LowerMatches` | utils/document_processor.py:78 | a string lowercases to a lower-case word iff each character is that word's letter or its upper-case form |
| `Embedding.ToDocuments` | utils/embedding_engine.py:22-25 | one document per chunk, in chunk order, with the chunk's content as `page_content` and its metadata |
| `Embedding.DocumentsRoundTrip` | utils/embedding_engine.py:22-25 | mapping each document back to a chunk gives the original chunks |
| `Embedding.EmbeddingEngine.constructor` | utils/embedding_engine.py:11-17 | a new engine has no vector store |
| `Embedding.EmbeddingEngine.CreateEmbeddings` | utils/embedding_engine.py:19-34 | builds the store from `ToDocuments(chunks)`, stores it in the field whatever was there before, and returns that same store; when the build raises, it fails with `BuildFailed` and the field keeps the earlier store (or none) |
| `Embedding.EmbeddingEngine.RetrieveRelevantChunks` | utils/embedding_engine.py:36-42 | fails with `NoDocumentsEmbedded` when no store exists; otherwise returns the current store's search for the query and `k` unchanged (`k` defaults to 5), or fails with `SearchFailed` when the search raises; the store is not changed |
| `Embedding.EmbeddingEngine.GetVectorStore` | utils/embedding_engine.py:44-46 | returns the current store, None before the first build |
| `Embedding.RetrievalAfterRebuild` | utils/embedding_engine.py:17-46 | which store the field holds: on a fresh engine, retrieval fails; after two builds, `GetVectorStore` returns and retrieval (with the default k = 5) searches the store value the second build returned when it succeeded, and the first one's (or none) when it raised; nothing is said about what that store contains |
| `Planning.Fill` | utils/task_planner.py:50 | the prompt is the template text with the content placed whole and unchanged between its head and tail |
| `Planning.FillInjective` | utils/task_planner.py:75 | different contents give different prompts, so nothing of the content is cut off |
| `Planning.GenerateTasks` | utils/task_planner.py:43-52 | the plan is the model's answer to one prompt: the task template's text around the documents' contents joined by "\n\n" |
| `Planning.GenerateSummary` | utils/task_planner.py:54-75 | the summary is the model's answer, returned as is, to one prompt: the summary template's text around the whole full text, unmodified |
| `Planning.CombinedContentSize` | utils/task_planner.py:47 | no documents combine to "", one document to its own content, and n >= 1 documents to a string of length (sum of content lengths) + 2(n-1) |
| `Planning.CombinedContentInOrder` | utils/task_planner.py:47 | document i's content appears whole, in the given order, after the earlier contents and separators, and right after "\n\n" unless it is the first |
| `Text.JoinLength` | utils/task_planner.py:47 | a join of n >= 1 parts is as long as the parts plus n-1 separators |

## Left out

- Opening the bytes is not modelled. PyMuPDF's `fitz.open` with `get_text`, and pandas' `ExcelFile` with `read_excel`, are inputs of type `Library`. A file either library cannot open is `None` there, and the model turns that into `CorruptFile`. The source lets the library's exception propagate instead.
- The exact text of `DataFrame.to_string(index=False)` and `Series.to_string()` is left out. Both are opaque functions. The series renderer receives the kept (row label, value) pairs.
- Cell values are an opaque type `Cell`, and a missing value (None/NaN) is `None`. Column headers are strings. pandas' renaming of duplicate headers is not modelled; columns are taken by position.
- `Text.Lower` lowers only the ASCII letters, where Python's `str.lower` is full Unicode. No non-ASCII character lowercases to a letter of "pdf", "xlsx" or "xls", so the dispatch decision is the same.
- The `ValueError` message text ("Unsupported file type: ...") is not modelled.
- Embedding vectors, Chroma's similarity ranking, its `persist_directory` on disk, and the `OPENAI_API_KEY` environment variable are left out. The store is opaque, so nothing is claimed about how many results a search returns or their order. Whether the on-disk collection grows across rebuilds is library behaviour.
- `if not self.vector_store` is modelled as "no store built yet". The model assumes a built Chroma store is truthy.
- Prompt wording, the chat model (gpt-4, temperature 0) and `LLMChain` are left out. The planner's model is an opaque `string -> string`, and each template is its text before and after `{document_content}`.
- Also left out: `app.py` (the Streamlit shell, session state, temporary files and previews), `utils/query_engine.py` (the agent and its RetrievalQA fallback, wrappers over library calls), and `utils/voice_handler.py` (microphone and speech output).
- `DocumentProcessor.ProcessFile`: the exception a parse failure raises is whatever the library raises; the model names it `CorruptFile`. The message texts are not modelled.
- `Embedding.EmbeddingEngine.RetrieveRelevantChunks`: any clamping of `k` and the order of the results belong to the store, which is opaque here; why a search raises (the query's embedding) is not modelled.
- `Planning.GenerateTasks`: a chat call that raises is not modelled; the model's `llm` is total. In the code the exception propagates and nothing changes.
- `Planning.GenerateSummary`: a chat call that raises is not modelled, as for `GenerateTasks`.
- `Embedding.EmbeddingEngine.CreateEmbeddings`: why a build raises is not modelled. Whether Chroma accepts the list-valued `columns` metadata of sheet chunks is library behaviour; a refusal is a failed build.
- Sheets given by `Library.openWorkbook` are not required to be `Rectangular` (one cell per row in every column); pandas builds frames that way, and no property but the row-label bound depends on it.
