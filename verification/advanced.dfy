/** Advanced mode: every page of every file is decomposed; each table becomes a
    sheet of its own and the page's remaining text one more, and a placeholder sheet
    keeps the workbook from being empty. */
module Advanced {
  import opened Wrappers
  import opened Strings
  import opened Json
  import opened Sheets
  import opened Paths
  import opened Engines

  const DetectedTextHeader := Str("Detected Text")
  const NoReadableData := Str("No readable data detected")

  /** `pd.DataFrame([["No readable data detected"]])`: its one column carries the
      default label 0, which becomes the header row. */
  const Placeholder := Sheet(EmptyKey, [Int(0)], [[NoReadableData]])

  /** The PDF test of this mode is case-sensitive. */
  predicate IsPdf(path: string)
  {
    EndsWith(path, ".pdf")
  }

  /** Every page of a PDF, or the image itself; None where that raises, which this
      endpoint does not catch. */
  function FilePages(e: Engines, s: Staged): (r: Option<seq<Page>>)
    ensures IsPdf(s.path) ==> r == e.rasterize(s)
    ensures !IsPdf(s.path) ==> (r.None? <==> e.openImage(s).None?)
    ensures r.Some? && !IsPdf(s.path) ==> r.value == [e.openImage(s).value]
  {
    if IsPdf(s.path) then e.rasterize(s)
    else
      match e.openImage(s)
      case None => None
      case Some(p) => Some([p])
  }

  /** The tables one block yields: all tables of a readable table block, none for an
      unreadable one (its exception is swallowed) or for any other block. */
  function BlockTables(e: Engines, b: Block): seq<Table>
  {
    if !IsTableBlock(b) then []
    else match ReadTables(e, b)
      case None => []
      case Some(ts) => ts
  }

  /** The texts a non-table block yields. */
  function BlockTexts(b: Block): seq<Value>
  {
    if IsTableBlock(b) then [] else ExtractTextSafe(Get(b.fields, "res"))
  }

  /** The tables of a page's blocks, in detection order. */
  function LayoutTables(e: Engines, blocks: seq<Block>): seq<Table>
    decreases |blocks|
  {
    if |blocks| == 0 then []
    else LayoutTables(e, blocks[..|blocks| - 1]) + BlockTables(e, blocks[|blocks| - 1])
  }

  /** The texts of a page's non-table blocks, in detection order. */
  function LayoutTexts(blocks: seq<Block>): seq<Value>
    decreases |blocks|
  {
    if |blocks| == 0 then []
    else LayoutTexts(blocks[..|blocks| - 1]) + BlockTexts(blocks[|blocks| - 1])
  }

  /** The k-th table of page p of file f goes to sheet `F<f>_P<p>_T<k>`. */
  function TableSheets(f: nat, p: nat, ts: seq<Table>): (r: seq<Sheet>)
    ensures |r| == |ts|
    ensures forall k :: 0 <= k < |ts| ==>
      r[k].key == TableKey(f, p, k + 1) && r[k].header == ts[k].header && r[k].rows == ts[k].rows
  {
    seq(|ts|, k requires 0 <= k < |ts| => Sheet(TableKey(f, p, k + 1), ts[k].header, ts[k].rows))
  }

  /** One "Detected Text" row per text. */
  function TextRows(texts: seq<Value>): (rows: seq<seq<Value>>)
  {
    seq(|texts|, i requires 0 <= i < |texts| => [texts[i]])
  }

  /** The text sheet `F<f>_P<p>_TEXT`, present only when the page produced text. */
  function TextSheets(f: nat, p: nat, texts: seq<Value>): seq<Sheet>
  {
    if |texts| == 0 then [] else [Sheet(TextKey(f, p), [DetectedTextHeader], TextRows(texts))]
  }

  /** The sheets of one page: its tables in detection order, then its text. */
  function PageSheets(e: Engines, f: nat, p: nat, blocks: seq<Block>): seq<Sheet>
  {
    TableSheets(f, p, LayoutTables(e, blocks)) + TextSheets(f, p, LayoutTexts(blocks))
  }

  /** The sheets of a file's pages, page p being the p-th (1-based); None where the
      layout engine fails on a page. */
  function DocumentSheets(e: Engines, f: nat, pages: seq<Page>): Option<seq<Sheet>>
    decreases |pages|
  {
    if |pages| == 0 then Some([])
    else
      match DocumentSheets(e, f, pages[..|pages| - 1])
      case None => None
      case Some(prev) =>
        match e.analyse(pages[|pages| - 1])
        case None => None
        case Some(blocks) => Some(prev + PageSheets(e, f, |pages|, blocks))
  }

  /** The sheets of the f-th upload (1-based). */
  function FileSheets(e: Engines, id: string, f: nat, u: Upload): Option<seq<Sheet>>
  {
    match FilePages(e, Stage(id, u))
    case None => None
    case Some(pages) => DocumentSheets(e, f, pages)
  }

  /** The data sheets of all uploads, in upload order. */
  function DataSheets(e: Engines, id: string, files: seq<Upload>): Option<seq<Sheet>>
    decreases |files|
  {
    if |files| == 0 then Some([])
    else
      match DataSheets(e, id, files[..|files| - 1])
      case None => None
      case Some(prev) =>
        match FileSheets(e, id, |files|, files[|files| - 1])
        case None => None
        case Some(ss) => Some(prev + ss)
  }

  /** The workbook as saved: the data sheets, or the placeholder alone when there are none. */
  function Workbook(data: seq<Sheet>): seq<Sheet>
  {
    if |data| == 0 then [Placeholder] else data
  }

  lemma TableSheetsSnoc(f: nat, p: nat, ts: seq<Table>, t: Table)
    ensures TableSheets(f, p, ts + [t]) == TableSheets(f, p, ts) + [Sheet(TableKey(f, p, |ts| + 1), t.header, t.rows)]
  {
  }

  lemma TextRowsAppend(a: seq<Value>, b: seq<Value>)
    ensures TextRows(a + b) == TextRows(a) + TextRows(b)
  {
  }

  /** The inner loop over the DataFrames of one table block: each one bumps the
      page's table counter and is written under the new ordinal. */
  method WriteTables(f: nat, p: nat, sheets: seq<Sheet>, tableCount: nat, ghost prev: seq<Table>, dfs: seq<Table>)
    returns (sheets': seq<Sheet>, tableCount': nat)
    requires sheets == TableSheets(f, p, prev) && tableCount == |prev|
    ensures sheets' == TableSheets(f, p, prev + dfs)
    ensures tableCount' == |prev| + |dfs|
  {
    sheets', tableCount' := sheets, tableCount;
    var j := 0;
    while j < |dfs|
      invariant 0 <= j <= |dfs|
      invariant tableCount' == |prev| + j
      invariant sheets' == TableSheets(f, p, prev + dfs[..j])
    {
      tableCount' := tableCount' + 1;
      TableSheetsSnoc(f, p, prev + dfs[..j], dfs[j]);
      assert prev + dfs[..j + 1] == (prev + dfs[..j]) + [dfs[j]];
      sheets' := sheets' + [Sheet(TableKey(f, p, tableCount'), dfs[j].header, dfs[j].rows)];
      j := j + 1;
    }
    assert dfs[..j] == dfs;
  }

  /** The block loop of one page, as the endpoint runs it: a table counter shared by
      all table blocks of the page, text rows collected on the side, and the flag
      that records whether any sheet was written. */
  method ConvertPage(e: Engines, f: nat, p: nat, layout: seq<Block>) returns (sheets: seq<Sheet>, wrote: bool)
    ensures sheets == PageSheets(e, f, p, layout)
    ensures wrote <==> |sheets| > 0
  {
    sheets := [];
    wrote := false;
    var textRows: seq<seq<Value>> := [];
    var tableCount := 0;
    var b := 0;
    while b < |layout|
      invariant 0 <= b <= |layout|
      invariant tableCount == |LayoutTables(e, layout[..b])|
      invariant sheets == TableSheets(f, p, LayoutTables(e, layout[..b]))
      invariant textRows == TextRows(LayoutTexts(layout[..b]))
      invariant wrote <==> |sheets| > 0
    {
      var block := layout[b];
      assert layout[..b + 1][..b] == layout[..b];
      assert LayoutTables(e, layout[..b + 1]) == LayoutTables(e, layout[..b]) + BlockTables(e, block);
      assert LayoutTexts(layout[..b + 1]) == LayoutTexts(layout[..b]) + BlockTexts(block);
      if IsTableBlock(block) {
        var dfs := ReadTables(e, block);
        if dfs.Some? {
          sheets, tableCount := WriteTables(f, p, sheets, tableCount, LayoutTables(e, layout[..b]), dfs.value);
          wrote := wrote || |dfs.value| > 0;
        }
      } else {
        var texts := ExtractTextSafe(Get(block.fields, "res"));
        TextRowsAppend(LayoutTexts(layout[..b]), texts);
        textRows := textRows + TextRows(texts);
      }
      b := b + 1;
    }
    assert layout[..b] == layout;
    if |textRows| > 0 {
      sheets := sheets + [Sheet(TextKey(f, p), [DetectedTextHeader], textRows)];
      wrote := true;
    }
  }

  /** The page loop of one file; None where the layout engine raises on a page. */
  method ConvertDocument(e: Engines, f: nat, pages: seq<Page>) returns (r: Option<seq<Sheet>>, wrote: bool)
    ensures r == DocumentSheets(e, f, pages)
    ensures r.Some? ==> (wrote <==> |r.value| > 0)
  {
    var sheets: seq<Sheet> := [];
    wrote := false;
    var pIdx := 0;
    while pIdx < |pages|
      invariant 0 <= pIdx <= |pages|
      invariant DocumentSheets(e, f, pages[..pIdx]) == Some(sheets)
      invariant wrote <==> |sheets| > 0
    {
      assert pages[..pIdx + 1][..pIdx] == pages[..pIdx];
      var layout := e.analyse(pages[pIdx]);
      if layout.None? {
        DocumentFailurePropagates(e, f, pages, pIdx + 1);
        return None, wrote;
      }
      var pageSheets, pageWrote := ConvertPage(e, f, pIdx + 1, layout.value);
      sheets := sheets + pageSheets;
      wrote := wrote || pageWrote;
      pIdx := pIdx + 1;
    }
    assert pages[..pIdx] == pages;
    return Some(sheets), wrote;
  }

  /** The advanced conversion endpoint. */
  method ConvertAdvanced(e: Engines, id: string, files: seq<Upload>) returns (r: Result<Conversion, ConvertError>)
    ensures |files| == 0 <==> r == Err(NoFilesUploaded)
    ensures |files| > 0 ==> (r == Err(Unhandled) <==> DataSheets(e, id, files).None?)
    ensures r.Ok? ==>
      r.value == Conversion(AdvancedFileId(id), AdvancedOutputPath(id), Workbook(DataSheets(e, id, files).value))
  {
    if |files| == 0 {
      return Err(NoFilesUploaded);
    }
    var sheets: seq<Sheet> := [];
    var wroteSheet := false;
    var fIdx := 0;
    while fIdx < |files|
      invariant 0 <= fIdx <= |files|
      invariant DataSheets(e, id, files[..fIdx]) == Some(sheets)
      invariant wroteSheet <==> |sheets| > 0
    {
      assert files[..fIdx + 1][..fIdx] == files[..fIdx];
      var pages := FilePages(e, Stage(id, files[fIdx]));
      if pages.None? {
        DataFailurePropagates(e, id, files, fIdx + 1);
        return Err(Unhandled);
      }
      var fileSheets, wrote := ConvertDocument(e, fIdx + 1, pages.value);
      if fileSheets.None? {
        DataFailurePropagates(e, id, files, fIdx + 1);
        return Err(Unhandled);
      }
      sheets := sheets + fileSheets.value;
      wroteSheet := wroteSheet || wrote;
      fIdx := fIdx + 1;
    }
    assert files[..fIdx] == files;
    if !wroteSheet {
      sheets := [Placeholder];
    }
    return Ok(Conversion(AdvancedFileId(id), AdvancedOutputPath(id), sheets));
  }

  /** A failing prefix of the pages makes the whole file fail. */
  lemma {:induction false} DocumentFailurePropagates(e: Engines, f: nat, pages: seq<Page>, n: nat)
    requires n <= |pages| && DocumentSheets(e, f, pages[..n]).None?
    ensures DocumentSheets(e, f, pages).None?
    decreases |pages| - n
  {
    if n < |pages| {
      assert pages[..n + 1][..n] == pages[..n];
      DocumentFailurePropagates(e, f, pages, n + 1);
    } else {
      assert pages[..n] == pages;
    }
  }

  /** A failing upload makes the whole request fail. */
  lemma {:induction false} DataFailurePropagates(e: Engines, id: string, files: seq<Upload>, n: nat)
    requires 0 < n <= |files| && FileSheets(e, id, n, files[n - 1]).None?
    ensures DataSheets(e, id, files).None?
    decreases |files|
  {
    if n < |files| {
      assert files[..|files| - 1][n - 1] == files[n - 1];
      DataFailurePropagates(e, id, files[..|files| - 1], n);
    }
  }

  /** A page yields one sheet per table, named by its ordinal on the page, plus a
      text sheet exactly when its non-table blocks produced some text; all of them
      belong to that page and appear in emission order. */
  lemma PageSheetsShape(e: Engines, f: nat, p: nat, blocks: seq<Block>)
    ensures var ss := PageSheets(e, f, p, blocks);
      && |ss| == |LayoutTables(e, blocks)| + (if |LayoutTexts(blocks)| > 0 then 1 else 0)
      && (forall k :: 0 <= k < |LayoutTables(e, blocks)| ==> ss[k].key == TableKey(f, p, k + 1))
      && ((exists i :: 0 <= i < |ss| && ss[i].key == TextKey(f, p)) <==> |LayoutTexts(blocks)| > 0)
      && OfFile(ss, f, p, p)
      && Ordered(ss)
  {
    var ts := TableSheets(f, p, LayoutTables(e, blocks));
    var xs := TextSheets(f, p, LayoutTexts(blocks));
    var ss := ts + xs;
    assert Ordered(ts);
    OrderedAppend(ts, xs);
    if exists i :: 0 <= i < |ss| && ss[i].key == TextKey(f, p) {
      var i :| 0 <= i < |ss| && ss[i].key == TextKey(f, p);
      assert i >= |ts|;
    }
    if |xs| > 0 {
      assert ss[|ts|].key == TextKey(f, p);
    }
  }

  /** The sheets of a file belong to that file, to one of its pages, and appear in
      emission order. */
  lemma {:induction false} DocumentSheetsOrdered(e: Engines, f: nat, pages: seq<Page>)
    requires DocumentSheets(e, f, pages).Some?
    ensures OfFile(DocumentSheets(e, f, pages).value, f, 1, |pages|)
    ensures Ordered(DocumentSheets(e, f, pages).value)
    decreases |pages|
  {
    if |pages| > 0 {
      var n := |pages|;
      DocumentSheetsOrdered(e, f, pages[..n - 1]);
      var prev := DocumentSheets(e, f, pages[..n - 1]).value;
      var blocks := e.analyse(pages[n - 1]).value;
      var page := PageSheets(e, f, n, blocks);
      PageSheetsShape(e, f, n, blocks);
      OrderedAppend(prev, page);
    }
  }

  /** The data sheets of a request belong to its files and appear in emission
      order: by file, then page, then table ordinal, the page's text last. */
  lemma {:induction false} DataSheetsOrdered(e: Engines, id: string, files: seq<Upload>)
    requires DataSheets(e, id, files).Some?
    ensures OfFiles(DataSheets(e, id, files).value, 1, |files|)
    ensures Ordered(DataSheets(e, id, files).value)
    decreases |files|
  {
    if |files| > 0 {
      var n := |files|;
      DataSheetsOrdered(e, id, files[..n - 1]);
      var prev := DataSheets(e, id, files[..n - 1]).value;
      var pages := FilePages(e, Stage(id, files[n - 1])).value;
      DocumentSheetsOrdered(e, n, pages);
      var last := DocumentSheets(e, n, pages).value;
      OrderedAppend(prev, last);
    }
  }

  /** The placeholder sheet appears exactly when no data sheet was written, and is
      then the only sheet of the workbook. */
  lemma PlaceholderIffNothingWritten(e: Engines, id: string, files: seq<Upload>)
    requires DataSheets(e, id, files).Some?
    ensures (exists i :: 0 <= i < |Workbook(DataSheets(e, id, files).value)|
               && Workbook(DataSheets(e, id, files).value)[i].key == EmptyKey)
            <==> |DataSheets(e, id, files).value| == 0
    ensures |DataSheets(e, id, files).value| == 0 ==> Workbook(DataSheets(e, id, files).value) == [Placeholder]
  {
    var data := DataSheets(e, id, files).value;
    DataSheetsOrdered(e, id, files);
    if |data| == 0 {
      assert Workbook(data)[0].key == EmptyKey;
    }
  }

  /** The saved workbook always has a sheet, and no two of its sheets share a name,
      given data sheets in emission order (as `DataSheetsOrdered` shows they are). */
  lemma WorkbookWellFormed(data: seq<Sheet>)
    requires Ordered(data)
    ensures |Workbook(data)| >= 1
    ensures DistinctNames(Workbook(data))
  {
    OrderedHasDistinctNames(Workbook(data));
  }

  /** The workbook an advanced conversion saves has at least one sheet, and no two of
      its sheets share a name. */
  lemma AdvancedWorkbookHasDistinctNames(e: Engines, id: string, files: seq<Upload>)
    requires DataSheets(e, id, files).Some?
    ensures |Workbook(DataSheets(e, id, files).value)| >= 1
    ensures DistinctNames(Workbook(DataSheets(e, id, files).value))
  {
    DataSheetsOrdered(e, id, files);
    WorkbookWellFormed(DataSheets(e, id, files).value);
  }

  /** An upload named "SCAN.PDF" is not taken for a PDF here, though standard mode
      takes it for one. */
  lemma UpperCaseExtensionIsNotPdf()
    ensures !IsPdf("SCAN.PDF")
  {
    assert "SCAN.PDF"[4..] != ".pdf" by {
      assert "SCAN.PDF"[4..][1] == 'P';
    }
  }
}
