/** The external collaborators of the conversion endpoints, supplied as total
    functions: the PDF rasteriser, the image loader, the layout engine (with the
    RGB conversion in front of it), the HTML table reader and the line OCR. A
    `None` result stands for the call raising. */
module Engines {
  import opened Wrappers
  import opened Json
  import opened Sheets
  import opened Paths

  /** An opaque raster page. */
  datatype Page = Page(handle: nat)

  /** One region the layout engine reports: a dict with (usually) "type" and "res". */
  datatype Block = Block(fields: map<string, Value>)

  datatype Upload = Upload(filename: string, data: seq<bv8>)

  /** An upload after it was written to its staging path. */
  datatype Staged = Staged(path: string, data: seq<bv8>)

  /** What the line OCR returns: one entry per page, each a list of recognised
      lines or None. */
  type OcrResult = seq<Option<seq<string>>>

  datatype Engines = Engines(
    rasterize: Staged -> Option<seq<Page>>,
    openImage: Staged -> Option<Page>,
    analyse: Page -> Option<seq<Block>>,
    readHtml: string -> Option<seq<Table>>,
    ocr: Staged -> OcrResult)

  /** Writing an upload under `<id>_<name>` in the upload directory. */
  function Stage(id: string, u: Upload): (s: Staged)
  {
    Staged(UploadPath(id, u.filename), u.data)
  }

  /** `block.get("type") == "table"`. */
  predicate IsTableBlock(b: Block)
  {
    Get(b.fields, "type") == Str("table")
  }

  /** `block["res"]["html"]`, or None where that lookup (or handing its value to the
      HTML reader) raises. */
  function HtmlOf(b: Block): Option<string>
  {
    if "res" in b.fields && b.fields["res"].Dict? && "html" in b.fields["res"].fields
       && b.fields["res"].fields["html"].Str?
    then Some(b.fields["res"].fields["html"].s)
    else None
  }

  /** `pd.read_html(block["res"]["html"])`; None where any part of it raises. */
  function ReadTables(e: Engines, b: Block): Option<seq<Table>>
  {
    match HtmlOf(b)
    case None => None
    case Some(html) => e.readHtml(html)
  }
}
