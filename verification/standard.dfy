/** Standard mode: one sheet per uploaded file. The tables found on the file's first
    two pages are stacked into one sheet; when that attempt raises or finds nothing,
    the OCR lines of the file's first page are written instead. */
module Standard {
  import opened Wrappers
  import opened Strings
  import opened Json
  import opened Sheets
  import opened Paths
  import opened Engines

  /** Only the first two pages of a PDF are rasterised. */
  const PdfPageCap := 2

  const ExtractedTextHeader := Str("Extracted Text")
  const NoTextCell := Str("No text")

  /** The PDF test of this mode ignores case. */
  predicate IsPdf(path: string)
  {
    EndsWith(Lower(path), ".pdf")
  }

  /** The pages the try block works on: the first two PDF pages, or the image itself. */
  function CappedPages(e: Engines, s: Staged): (r: Option<seq<Page>>)
    ensures IsPdf(s.path) ==> (r.None? <==> e.rasterize(s).None?)
    ensures r.Some? && IsPdf(s.path) ==>
      |r.value| <= PdfPageCap && r.value <= e.rasterize(s).value
      && (|r.value| == PdfPageCap || r.value == e.rasterize(s).value)
    ensures !IsPdf(s.path) ==> (r.None? <==> e.openImage(s).None?)
    ensures r.Some? && !IsPdf(s.path) ==> r.value == [e.openImage(s).value]
  {
    if IsPdf(s.path) then
      match e.rasterize(s)
      case None => None
      case Some(ps) => Some(if |ps| <= PdfPageCap then ps else ps[..PdfPageCap])
    else
      match e.openImage(s)
      case None => None
      case Some(p) => Some([p])
  }

  /** The tables of a page's blocks in detection order; None as soon as one table
      block cannot be read. */
  function BlockTables(e: Engines, blocks: seq<Block>): Option<seq<Table>>
    decreases |blocks|
  {
    if |blocks| == 0 then Some([])
    else
      match BlockTables(e, blocks[..|blocks| - 1])
      case None => None
      case Some(prev) =>
        var b := blocks[|blocks| - 1];
        if !IsTableBlock(b) then Some(prev)
        else match ReadTables(e, b)
          case None => None
          case Some(ts) => Some(prev + ts)
  }

  /** The tables of all pages; None as soon as a page cannot be analysed or one of
      its table blocks cannot be read. */
  function PageTables(e: Engines, pages: seq<Page>): Option<seq<Table>>
    decreases |pages|
  {
    if |pages| == 0 then Some([])
    else
      match PageTables(e, pages[..|pages| - 1])
      case None => None
      case Some(prev) =>
        match e.analyse(pages[|pages| - 1])
        case None => None
        case Some(blocks) =>
          match BlockTables(e, blocks)
          case None => None
          case Some(ts) => Some(prev + ts)
  }

  /** The outcome of the try block: the tables collected, or None where it raised
      (the tables collected so far are then lost). */
  function TryTables(e: Engines, s: Staged): Option<seq<Table>>
  {
    match CappedPages(e, s)
    case None => None
    case Some(pages) => PageTables(e, pages)
  }

  /** The rows of the tables, stacked in order. */
  function StackRows(ts: seq<Table>): (rows: seq<seq<Value>>)
    ensures |ts| == 1 ==> rows == ts[0].rows
    decreases |ts|
  {
    if |ts| == 0 then [] else StackRows(ts[..|ts| - 1]) + ts[|ts| - 1].rows
  }

  /** Stacking keeps the order of the tables and repeats no row: the stack of a
      concatenation is the concatenation of the stacks. */
  lemma {:induction false} StackRowsAppend(a: seq<Table>, b: seq<Table>)
    ensures StackRows(a + b) == StackRows(a) + StackRows(b)
    decreases |b|
  {
    if |b| == 0 {
      assert a + b == a;
    } else {
      var b', last := b[..|b| - 1], b[|b| - 1];
      assert (a + b)[..|a + b| - 1] == a + b';
      assert (a + b)[|a + b| - 1] == last;
      StackRowsAppend(a, b');
      calc {
        StackRows(a + b);
        StackRows(a + b') + last.rows;
        StackRows(a) + StackRows(b') + last.rows;
        StackRows(a) + StackRows(b);
      }
    }
  }

  /** The stack holds every row of every table, and no row from anywhere else. */
  lemma {:induction false} StackRowsMembers(ts: seq<Table>)
    ensures forall i, j :: 0 <= i < |ts| && 0 <= j < |ts[i].rows| ==> ts[i].rows[j] in StackRows(ts)
    ensures forall row :: row in StackRows(ts) ==> exists i :: 0 <= i < |ts| && row in ts[i].rows
    decreases |ts|
  {
    if |ts| > 0 {
      var prev := ts[..|ts| - 1];
      StackRowsMembers(prev);
      assert forall i :: 0 <= i < |prev| ==> prev[i] == ts[i];
      assert StackRows(ts) == StackRows(prev) + ts[|ts| - 1].rows;
    }
  }

  /** `pd.concat(tables, ignore_index=True)` as plain row stacking under the first
      table's column labels. */
  function Concat(ts: seq<Table>): Table
    requires |ts| > 0
  {
    Table(ts[0].header, StackRows(ts))
  }

  /** The try block produced no usable DataFrame. */
  predicate NeedsFallback(e: Engines, s: Staged)
  {
    match TryTables(e, s)
    case None => true
    case Some(ts) => |ts| == 0 || IsEmptyFrame(Concat(ts))
  }

  /** The "Extracted Text" frame built from the OCR result: one row per line of its
      first page, the single row "No text" when the result is empty, and None where
      the first page is None (iterating it raises, outside any handler). */
  function OcrFallback(ocr: OcrResult): (r: Option<Table>)
    ensures |ocr| == 0 ==> r == Some(Table([ExtractedTextHeader], [[NoTextCell]]))
    ensures |ocr| > 0 && ocr[0].None? ==> r.None?
    ensures |ocr| > 0 && ocr[0].Some? ==>
      (r.Some? && r.value.header == [ExtractedTextHeader]
       && |r.value.rows| == |ocr[0].value|
       && forall i :: 0 <= i < |ocr[0].value| ==> r.value.rows[i] == [Str(ocr[0].value[i])])
  {
    if |ocr| == 0 then Some(Table([ExtractedTextHeader], [[NoTextCell]]))
    else match ocr[0]
      case None => None
      case Some(lines) => Some(Table([ExtractedTextHeader], LineRows(lines)))
  }

  function LineRows(lines: seq<string>): (rows: seq<seq<Value>>)
    ensures |rows| == |lines|
    ensures forall i :: 0 <= i < |lines| ==> rows[i] == [Str(lines[i])]
    decreases |lines|
  {
    if |lines| == 0 then [] else LineRows(lines[..|lines| - 1]) + [[Str(lines[|lines| - 1])]]
  }

  /** The sheet `File_<idx+1>` of one upload, or None where its OCR fallback raises. */
  function FileSheet(e: Engines, id: string, idx: nat, u: Upload): (r: Option<Sheet>)
    ensures r.Some? ==> r.value.key == FileKey(idx + 1)
    ensures r.None? <==> NeedsFallback(e, Stage(id, u)) && OcrFallback(e.ocr(Stage(id, u))).None?
    ensures r.Some? && NeedsFallback(e, Stage(id, u)) ==>
      r.value.header == [ExtractedTextHeader]
      && Table(r.value.header, r.value.rows) == OcrFallback(e.ocr(Stage(id, u))).value
    ensures r.Some? && !NeedsFallback(e, Stage(id, u)) ==>
      var ts := TryTables(e, Stage(id, u)).value;
      r.value.header == ts[0].header && !IsEmptyFrame(Table(r.value.header, r.value.rows))
      && r.value.rows == StackRows(ts)
      && (forall i, j :: 0 <= i < |ts| && 0 <= j < |ts[i].rows| ==> ts[i].rows[j] in r.value.rows)
      && (forall row :: row in r.value.rows ==> exists i :: 0 <= i < |ts| && row in ts[i].rows)
  {
    var s := Stage(id, u);
    var key := FileKey(idx + 1);
    StackRowsMembers(if TryTables(e, s).Some? then TryTables(e, s).value else []);
    if NeedsFallback(e, s) then
      match OcrFallback(e.ocr(s))
      case None => None
      case Some(t) => Some(Sheet(key, t.header, t.rows))
    else
      var t := Concat(TryTables(e, s).value);
      Some(Sheet(key, t.header, t.rows))
  }

  /** The standard conversion endpoint. */
  method ConvertMultiple(e: Engines, id: string, files: seq<Upload>) returns (r: Result<Conversion, ConvertError>)
    ensures |files| == 0 <==> r == Err(NoFilesUploaded)
    ensures r == Err(Unhandled) <==>
      |files| > 0 && exists j :: 0 <= j < |files| && FileSheet(e, id, j, files[j]).None?
    ensures r.Ok? ==> r.value.fileId == StandardFileId(id) && r.value.outputPath == StandardOutputPath(id)
    ensures r.Ok? ==> |r.value.sheets| == |files|
    ensures r.Ok? ==> forall j :: 0 <= j < |files| ==>
      r.value.sheets[j].Name() == "File_" + NatToString(j + 1)
      && Some(r.value.sheets[j]) == FileSheet(e, id, j, files[j])
    ensures r.Ok? ==> DistinctNames(r.value.sheets)
  {
    if |files| == 0 {
      return Err(NoFilesUploaded);
    }
    var sheets: seq<Sheet> := [];
    var idx := 0;
    while idx < |files|
      invariant 0 <= idx <= |files|
      invariant |sheets| == idx
      invariant forall j :: 0 <= j < idx ==> Some(sheets[j]) == FileSheet(e, id, j, files[j])
    {
      var sheet := FileSheet(e, id, idx, files[idx]);
      if sheet.None? {
        return Err(Unhandled);
      }
      sheets := sheets + [sheet.value];
      idx := idx + 1;
    }
    assert Ordered(sheets);
    OrderedHasDistinctNames(sheets);
    return Ok(Conversion(StandardFileId(id), StandardOutputPath(id), sheets));
  }

  /** A page the layout engine fails on loses every table of the file, including
      those found on earlier pages. */
  lemma {:induction false} FailingPageDiscardsTables(e: Engines, pages: seq<Page>, i: nat)
    requires i < |pages| && e.analyse(pages[i]).None?
    ensures PageTables(e, pages).None?
    decreases |pages|
  {
    if i < |pages| - 1 {
      assert pages[..|pages| - 1][i] == pages[i];
      FailingPageDiscardsTables(e, pages[..|pages| - 1], i);
    }
  }

  /** A table block whose HTML cannot be read loses every table of its page, and so
      (through PageTables) of the file. */
  lemma {:induction false} UnreadableTableDiscardsTables(e: Engines, blocks: seq<Block>, i: nat)
    requires i < |blocks| && IsTableBlock(blocks[i]) && ReadTables(e, blocks[i]).None?
    ensures BlockTables(e, blocks).None?
    decreases |blocks|
  {
    if i < |blocks| - 1 {
      assert blocks[..|blocks| - 1][i] == blocks[i];
      UnreadableTableDiscardsTables(e, blocks[..|blocks| - 1], i);
    }
  }

  lemma {:induction false} FailingBlocksDiscardTables(e: Engines, pages: seq<Page>, i: nat, blocks: seq<Block>)
    requires i < |pages| && e.analyse(pages[i]) == Some(blocks) && BlockTables(e, blocks).None?
    ensures PageTables(e, pages).None?
    decreases |pages|
  {
    if i < |pages| - 1 {
      assert pages[..|pages| - 1][i] == pages[i];
      FailingBlocksDiscardTables(e, pages[..|pages| - 1], i, blocks);
    }
  }

  /** A file whose extraction raised is written as the OCR text column, even when
      tables had been found before the failure. */
  lemma FailedExtractionFallsBack(e: Engines, id: string, idx: nat, u: Upload, i: nat)
    requires CappedPages(e, Stage(id, u)).Some?
    requires i < |CappedPages(e, Stage(id, u)).value|
    requires e.analyse(CappedPages(e, Stage(id, u)).value[i]).None?
    requires |e.ocr(Stage(id, u))| == 0
    ensures FileSheet(e, id, idx, u) == Some(Sheet(FileKey(idx + 1), [ExtractedTextHeader], [[NoTextCell]]))
  {
    FailingPageDiscardsTables(e, CappedPages(e, Stage(id, u)).value, i);
  }

  /** Pages after the second never influence the tables of a PDF. */
  lemma PagesAfterSecondIgnored(e: Engines, s: Staged, raster: Staged -> Option<seq<Page>>, more: seq<Page>)
    requires IsPdf(s.path)
    requires e.rasterize(s).Some? && |e.rasterize(s).value| >= PdfPageCap
    requires raster(s) == Some(e.rasterize(s).value + more)
    ensures TryTables(e.(rasterize := raster), s) == TryTables(e, s)
  {
    var ps := e.rasterize(s).value;
    assert (ps + more)[..PdfPageCap] == ps[..PdfPageCap];
    var e' := e.(rasterize := raster);
    assert e'.rasterize(s) == Some(ps + more);
    if |ps + more| <= PdfPageCap {
      assert ps + more == ps[..PdfPageCap];
    }
    if |ps| <= PdfPageCap {
      assert ps == ps[..PdfPageCap];
    }
    assert CappedPages(e', s) == Some(ps[..PdfPageCap]);
    assert CappedPages(e, s) == Some(ps[..PdfPageCap]);
    PageTablesIgnoreRaster(e, raster, ps[..PdfPageCap]);
  }

  lemma {:induction false} PageTablesIgnoreRaster(e: Engines, raster: Staged -> Option<seq<Page>>, pages: seq<Page>)
    ensures PageTables(e.(rasterize := raster), pages) == PageTables(e, pages)
    decreases |pages|
  {
    if |pages| > 0 {
      PageTablesIgnoreRaster(e, raster, pages[..|pages| - 1]);
      var blocks := e.analyse(pages[|pages| - 1]);
      if blocks.Some? {
        BlockTablesIgnoreRaster(e, raster, blocks.value);
      }
    }
  }

  lemma {:induction false} BlockTablesIgnoreRaster(e: Engines, raster: Staged -> Option<seq<Page>>, blocks: seq<Block>)
    ensures BlockTables(e.(rasterize := raster), blocks) == BlockTables(e, blocks)
    decreases |blocks|
  {
    if |blocks| > 0 {
      BlockTablesIgnoreRaster(e, raster, blocks[..|blocks| - 1]);
    }
  }

  /** The PDF test on the staged path is the case-insensitive test on the original
      name, so "SCAN.PDF" is rasterised like "scan.pdf". */
  lemma StagedPdfTest(id: string, u: Upload)
    ensures IsPdf(Stage(id, u).path) <==> IsPdf(u.filename)
  {
    LowerUploadPathSuffix(id, u.filename, ".pdf");
  }
}
