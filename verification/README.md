# BMSCSE-CT conversion backend, modelled in Dafny

This project models the decision logic of the BMSCSE-CT backend. The backend
turns uploaded document images and PDFs into Excel workbooks. The model covers:

- the standard conversion endpoint: one sheet `File_<n>` per upload, holding the
  stacked tables of the first two pages, or the OCR lines of the file's first page
  as an "Extracted Text" column when table extraction raises or finds nothing;
- the advanced conversion endpoint: one sheet `F<f>_P<p>_T<k>` per table and one
  `F<f>_P<p>_TEXT` per page with text, plus the `EMPTY` placeholder when nothing
  was written;
- `extract_text_safe`, the agent router, the login role rule, the data effects of
  the workbook formatter, and how output paths and download paths are derived.

The OCR and layout engines, the PDF rasteriser, the image loader and
`pd.read_html` are fields of the `Engines.Engines` datatype. Each field is a total
function: of the staged file (its path and bytes), of a page, or, for `read_html`,
of the HTML string. `None` means the call raised. The job id is an opaque input string.

Modules, one per component: `Wrappers` (Option/Result), `Strings` (ASCII
lower-casing, `startswith`/`endswith`/`in`, decimal rendering), `Json`
(engine values and `extract_text_safe`), `Router`, `Roles`, `Paths`, `Sheets`
(tables, sheet keys and the sheet namer), `Engines`, `Standard`, `Advanced`,
`Formatter`.

Every sheet carries a `SheetKey`, and its name is `SheetName(key)`.
`Sheets.SheetNameInjective` shows that distinct keys get distinct names. The
uniqueness of sheet names then follows from the order in which keys are emitted.

## Notes on behaviour

These points follow the code rather than an idealised pipeline:

- Standard mode writes "No text" only when the OCR result is an empty list. If the
  first OCR page is an empty list, the sheet is the "Extracted Text" header alone.
  If the first OCR page is `None`, iterating it raises outside any handler and the
  request fails (`Unhandled`).
- Standard mode swallows every exception between rasterising and concatenating. The
  tables already collected for that file are discarded.
- Advanced mode swallows failures only inside a table block's `try`: the
  `block["res"]["html"]` lookup, `read_html`, and the per-table counter bump and sheet
  write. The model lets only the lookup and `read_html` fail there (see "Left out").
  A rasteriser, image or layout failure fails the whole request.
- Standard mode tests `.pdf` case-insensitively and advanced mode tests it
  case-sensitively, so "SCAN.PDF" is rasterised in one mode and opened as an image
  in the other.
- The advanced text sheet is named `F<f>_P<p>_TEXT`, and its column is labelled
  "Detected Text".
- The `EMPTY` sheet's DataFrame has no column names, so its header row is the
  default label `0`.
- Sheet names are neither truncated nor sanitised. They are unique by construction.

## Model

| member | source | states |
|---|---|---|
| Json.ExtractTextSafe | backend/main.py:61-69 | a dict with "text" gives exactly that text; a list gives one entry per dict element that has "text", and an entry is a text exactly when some such element carries it; any other value gives nothing |
| Json.TextsOfAppend | backend/main.py:65-68 | the list loop keeps element order: the texts of a concatenation are the texts of the parts, concatenated |
| Json.TextsOfLength | backend/main.py:65-68 | each element with "text" contributes exactly one entry and every other element none |
| Json.TextsOfMembers | backend/main.py:65-68 | every extracted text is the "text" of some element, and every element's "text" is extracted |
| Strings.ContainsIsOccurs | backend/main.py:156 | the scanning substring test agrees with Python's `w in s` (some offset where `s` continues with `w`) |
| Strings.NatToString | backend/main.py:184 | the decimal rendering of an index is a non-empty run of digits without a leading zero (only 0 itself starts with "0"), so `File_1` and never `File_01` |
| Strings.DecimalRoundTrip | backend/main.py:184 | reading the rendered digits back gives the index, so different indices render differently |
| Router.AnyKeyword | backend/main.py:155-161 | the keyword loop reports a match exactly when some keyword of the list occurs in the task |
| Router.RouteTask | backend/main.py:147-167 | the advanced route (mode, endpoint, message) is returned iff the lower-cased task contains one of the eight keywords, the standard route otherwise |
| Router.RouteIgnoresCase | backend/main.py:148 | routing a task and routing its lower-cased form give the same route |
| Router.HandwrittenNotesAreAdvanced | backend/main.py:149-161 | "This file has handwritten notes" is routed to the advanced agent |
| Router.SimpleInvoiceIsStandard | backend/main.py:149-167 | "simple invoice" mentions no keyword and is routed to the standard agent |
| Roles.RoleFor | backend/main.py:123-132 | the role is the first matching rule: "principal", "hod", "admin" as prefixes, then "student" anywhere, else "user"; each role is stated as an iff over those tests |
| Roles.Login | backend/main.py:118-121 | an address whose lower-cased form does not end with "@bmsce.ac.in" is refused; otherwise the lower-cased address and its role are returned |
| Roles.LoginIgnoresCase | backend/main.py:118 | logging in with an address and with its lower-cased form gives the same outcome |
| Roles.PrincipalOutranksStudent | backend/main.py:123-130 | "principal.student@bmsce.ac.in" is a principal: the prefix rule outranks the "student" rule |
| Roles.OtherDomainsAreForbidden | backend/main.py:120-121 | "hod@gmail.com" is refused despite its "hod" prefix |
| Paths.Download | backend/main.py:285-288 | the download resolves `<file_id>.xlsx` in the output directory and fails with not-found exactly when no saved workbook has that path |
| Paths.ReturnedIdsResolveToWrittenWorkbook | backend/main.py:280-288 | in both modes the id handed back (`id`, `ADV_<id>`) resolves at download time to the path the workbook was written to (`<id>.xlsx`, `ADV_<id>.xlsx`), and the download of a saved workbook returns exactly that path |
| Paths.UploadPathSuffix | backend/main.py:180 | the staged path `<id>_<name>` ends with a suffix free of '_' iff the original name does |
| Paths.LowerUploadPathSuffix | backend/main.py:188 | the same holds after lower-casing, so the case-insensitive PDF test depends only on the original name |
| Sheets.SheetNameInjective | backend/main.py:252-272 | the names `File_<n>`, `F<f>_P<p>_T<k>`, `F<f>_P<p>_TEXT` and `EMPTY` determine their indices: two keys with the same name are equal |
| Sheets.OrderedHasDistinctNames | backend/main.py:250-272 | sheets emitted in strict file/page/ordinal order have pairwise distinct names |
| Sheets.OrderedAppend | backend/main.py:240-268 | joining two ordered runs, the first wholly before the second, keeps the order |
| Standard.CappedPages | backend/main.py:188-191 | a PDF contributes its first two rasterised pages in order (all of them when it has fewer), and fails exactly when rasterising fails; any other file contributes exactly the opened image, and fails exactly when opening fails |
| Standard.StackRows | backend/main.py:200-201 | a single table stacks to exactly its own rows |
| Standard.StackRowsMembers | backend/main.py:200-201 | the stacked frame holds every row of every table found, and no row from anywhere else |
| Standard.StackRowsAppend | backend/main.py:200-201 | stacking is ordered and repeats nothing: the stack of a concatenation of table lists is the concatenation of their stacks |
| Standard.OcrFallback | backend/main.py:206-209 | the fallback column holds one row per OCR line of the first page, the single row "No text" for an empty OCR result, and raises when the first page is None |
| Standard.FileSheet | backend/main.py:184-211 | each upload's sheet is `File_<idx+1>`; whenever extraction raised, found no table or gave an empty frame it is exactly the OCR fallback frame ("Extracted Text" column), and otherwise a non-empty frame under the first table's header whose rows are the tables' rows stacked in order |
| Standard.ConvertMultiple | backend/main.py:171-220 | an empty upload list is rejected; otherwise N uploads give exactly N sheets named File_1..File_N in upload order, each the sheet of its upload, with distinct names; among the modelled failures, the request fails exactly where some upload's OCR fallback raises; the returned id resolves to the written path |
| Standard.FailingPageDiscardsTables | backend/main.py:187-204 | when the layout engine fails on any page, the tables of every page of that file are lost |
| Standard.FailingBlocksDiscardTables | backend/main.py:194-198 | when a page's table blocks cannot all be read, the tables of every page of that file are lost |
| Standard.UnreadableTableDiscardsTables | backend/main.py:196-198 | one unreadable table block loses the tables of all blocks of its page |
| Standard.FailedExtractionFallsBack | backend/main.py:187-209 | a file whose extraction raised becomes the "Extracted Text" sheet (here with an empty OCR result: the single row "No text"), whatever tables had been found before the failure |
| Standard.PagesAfterSecondIgnored | backend/main.py:189 | appending pages after the second to a PDF does not change the tables collected |
| Standard.StagedPdfTest | backend/main.py:188 | standard mode's PDF test on the staged path is the case-insensitive test on the uploaded name |
| Advanced.FilePages | backend/main.py:238 | a file taken for a PDF contributes every rasterised page, uncapped, and fails exactly when rasterising fails; any other file contributes exactly the opened image, and fails exactly when opening fails |
| Advanced.TableSheets | backend/main.py:248-254 | the k-th table of page p of file f is written as `F<f>_P<p>_T<k>` with that table's header and rows |
| Advanced.WriteTables | backend/main.py:248-255 | the DataFrame loop of one table block continues the page's table counter and appends one numbered sheet per DataFrame |
| Advanced.ConvertPage | backend/main.py:241-268 | the block loop with its shared table counter and side list of text rows writes exactly the page's table sheets, then its text sheet, and its flag is set iff it wrote a sheet |
| Advanced.ConvertDocument | backend/main.py:240-268 | the page loop writes the sheets of every page in page order, and fails when the layout engine fails on some page |
| Advanced.ConvertAdvanced | backend/main.py:224-281 | an empty upload list is rejected; a rasteriser, image or layout failure fails the request; otherwise the workbook is the data sheets of all uploads in order, or the EMPTY placeholder when the written flag stayed false; the id `ADV_<id>` resolves to the written path |
| Advanced.DocumentFailurePropagates | backend/main.py:240-241 | a page the layout engine fails on makes the whole file fail |
| Advanced.DataFailurePropagates | backend/main.py:233-241 | a failing upload makes the whole request fail |
| Advanced.PageSheetsShape | backend/main.py:242-268 | a page yields one sheet per table read, named T1..Tk in detection order with the counter starting afresh on each page, plus the TEXT sheet exactly when its non-table blocks produced some text |
| Advanced.DocumentSheetsOrdered | backend/main.py:240-268 | every sheet of a file belongs to that file and one of its pages, and the sheets appear in page, then ordinal, order |
| Advanced.DataSheetsOrdered | backend/main.py:233-268 | the data sheets of a request belong to its uploads and appear in file, page, ordinal order, each page's text last |
| Advanced.PlaceholderIffNothingWritten | backend/main.py:270-273 | the EMPTY placeholder is in the workbook exactly when no data sheet was written, and is then the only sheet |
| Advanced.WorkbookWellFormed | backend/main.py:230-273 | whatever data sheets were written in emission order (see DataSheetsOrdered), the saved workbook has at least one sheet and no two of its sheets share a name |
| Advanced.AdvancedWorkbookHasDistinctNames | backend/main.py:232-273 | the workbook an advanced conversion saves has at least one sheet and no two of its sheets share a name |
| Advanced.UpperCaseExtensionIsNotPdf | backend/main.py:238 | advanced mode does not take "SCAN.PDF" for a PDF |
| Formatter.Widest | backend/main.py:91 | the widest row bounds every row and is reached by one |
| Formatter.ColumnMax | backend/main.py:101 | the longest cell of a column bounds every cell in it and is reached by one |
| Formatter.Widths | backend/main.py:100-102 | there is one width per column up to `max_column`, and each equals the longest cell text of its column plus 3 |
| Formatter.ColumnLetter | backend/main.py:102 | column letters are a non-empty run of capital letters |
| Formatter.ColumnLetterRoundTrip | backend/main.py:104 | reading column letters back gives the column number (bijective base 26) |
| Formatter.CoordinateRoundTrip | backend/main.py:104 | a cell coordinate such as `B7` names the row and column it was built from |
| Formatter.AsWrittenGuardNeverFires | backend/main.py:88 | `max_row < 1 or max_column < 1` never holds, since openpyxl reports both as at least 1 |
| Formatter.AsWrittenEmptySheetStaysEmpty | backend/main.py:88-89 | as written, a sheet without cells gets no "No data detected" cell, and its table is registered over the empty cell A1 |
| Formatter.Format | backend/main.py:87-111 | a sheet without cells first gets the single cell "No data detected"; every other sheet keeps all its cells unchanged; the result always has a cell |
| Formatter.FormatIdempotent | backend/main.py:87-113 | the modelled data effects are idempotent: formatting a formatted sheet again leaves its cells, widths and table range unchanged |
| Formatter.TableRefSpansSheet | backend/main.py:104 | the table reference is `A1:` followed by the coordinate of the cell at (max_row, max_column) |

## Findings

| source | as written | input that shows it | evidently intended | confidence | as-written member | corrected member |
|---|---|---|---|---|---|---|
| backend/main.py:88-89 | the safety row is guarded by `ws.max_row < 1 or ws.max_column < 1`, but openpyxl reports 1 for both on a sheet without cells, so the guard never holds | a sheet without any cells (the empty grid) | a sheet without cells gets the single cell "No data detected" | not executed; relies on openpyxl's `max_row`/`max_column` defaulting to 1 | Formatter.AsWrittenEmptySheetStaysEmpty | Formatter.Format |

## Left out

- FastAPI routing, CORS, request objects and status codes. The rejections are error values: `Forbidden` (403), `NoFilesUploaded` (400), `FileNotFound` (404), `Unhandled` (an uncaught exception, 500).
- uuid generation. The job id is an input string.
- File writes, directory creation and `wb.save`. Staging is modelled as the pair of staging path and uploaded bytes that the engines receive.
- On an uncaught error, the partly written workbook that the Excel writer still saves is not modelled. The model returns only `Unhandled`.
- Standard.ConvertMultiple, Advanced.ConvertPage and Advanced.WriteTables: `DataFrame.to_excel` (backend/main.py:211, 250-254, 263-267) is treated as never raising. In the source a failed write of a standard sheet or of an advanced TEXT sheet fails the request. A failed table write inside the advanced `try` is swallowed after the counter was bumped, which leaves a gap in the `T<k>` numbering and skips that block's remaining tables.
- PaddleOCR, PPStructure, `pdf2image`, PIL and `load_image_safe` internals. They are the abstract `Engines` fields, and OCR is treated as a call that never raises.
- Standard.CappedPages: rasterises the whole PDF and keeps the first two pages, so a rasteriser failure confined to later pages is not told apart from a failure on the first two.
- `pd.read_html` is abstract. Standard.Concat stacks rows under the first table's column labels, because `pd.concat`'s column-label alignment is pandas semantics.
- The rendering of cell values to text (`str(cell.value)` and the falsiness of `0` or `False`) is not modelled. The formatter works on a grid of optional cell texts of its own, not on the assembled sheets.
- Formatter.FormatIdempotent: the model keeps one table range per sheet and replaces it. openpyxl's `add_table` adds a table instead, so a second run over an already formatted file would meet its own `Table_<title>` and raise on the duplicate name. The backend formats each file once, so this path is not reached.
- Formatter.MaxRow: counts every row entry of the grid, including rows without cells.
- openpyxl styling (fonts, alignment, borders, table style, frozen panes). These carry no data.
- openpyxl's limit of 18278 on column letters, and any length limit on sheet titles.
- backend/database.py, `log_action` (backend/main.py:213-216) and the `INSERT OR IGNORE` in `login`: persistence only.
- frontend/app.js and frontend/login.js: DOM, `fetch` and `localStorage` code.
- Python's Unicode `lower()`: only ASCII letters are lower-cased.
