/** Where uploads are staged and workbooks are written, and how a returned file id
    is resolved again at download time. */
module Paths {
  import opened Wrappers
  import opened Strings

  const UploadDir := "uploads"
  const OutputDir := "outputs"
  const WorkbookExtension := ".xlsx"
  const AdvancedPrefix := "ADV_"

  /** POSIX `os.path.join(dir, name)` for a directory without a trailing slash: an
      absolute name replaces the directory. */
  function Join(dir: string, name: string): string
  {
    if |name| > 0 && name[0] == '/' then name else dir + "/" + name
  }

  /** Each upload is staged as `<id>_<original name>` under the upload directory. */
  function UploadPath(id: string, filename: string): string
  {
    Join(UploadDir, id + "_" + filename)
  }

  /** Standard mode writes `<id>.xlsx` and hands back the bare id. */
  function StandardOutputPath(id: string): string
  {
    Join(OutputDir, id + WorkbookExtension)
  }

  function StandardFileId(id: string): string
  {
    id
  }

  /** Advanced mode writes `ADV_<id>.xlsx` and hands back `ADV_<id>`. */
  function AdvancedOutputPath(id: string): string
  {
    Join(OutputDir, AdvancedPrefix + id + WorkbookExtension)
  }

  function AdvancedFileId(id: string): string
  {
    AdvancedPrefix + id
  }

  /** The download endpoint looks for `<file_id>.xlsx` in the output directory. */
  function DownloadPath(fileId: string): string
  {
    Join(OutputDir, fileId + WorkbookExtension)
  }

  datatype DownloadError = FileNotFound

  /** The 404 answer unless the resolved path was saved by some conversion. */
  function Download(fileId: string, saved: set<string>): (r: Result<string, DownloadError>)
    ensures r.Ok? <==> DownloadPath(fileId) in saved
    ensures r.Ok? ==> r.value == DownloadPath(fileId)
  {
    var path := DownloadPath(fileId);
    if path in saved then Ok(path) else Err(FileNotFound)
  }

  /** In both modes the id handed back resolves, at download time, to exactly the
      workbook that was written. */
  lemma ReturnedIdsResolveToWrittenWorkbook(id: string)
    ensures DownloadPath(StandardFileId(id)) == StandardOutputPath(id)
    ensures DownloadPath(AdvancedFileId(id)) == AdvancedOutputPath(id)
    ensures forall saved: set<string> :: StandardOutputPath(id) in saved ==>
      Download(StandardFileId(id), saved) == Ok(StandardOutputPath(id))
    ensures forall saved: set<string> :: AdvancedOutputPath(id) in saved ==>
      Download(AdvancedFileId(id), saved) == Ok(AdvancedOutputPath(id))
  {
    assert AdvancedFileId(id) + WorkbookExtension == AdvancedPrefix + id + WorkbookExtension;
  }

  /** The staged path ends with a suffix free of '_' exactly when the original name
      does: the `<id>_` prefix can never contribute to it. */
  lemma UploadPathSuffix(id: string, filename: string, suffix: string)
    requires '_' !in suffix
    ensures EndsWith(UploadPath(id, filename), suffix) <==> EndsWith(filename, suffix)
  {
    var head := id + "_";
    var path := UploadPath(id, filename);
    var pre := if |head| > 0 && head[0] == '/' then [] else UploadDir + "/";
    assert path == pre + head + filename;
    SuffixThroughSeparator(pre + id, filename, suffix);
    assert pre + head + filename == (pre + id) + ['_'] + filename;
  }

  lemma SuffixThroughSeparator(x: string, y: string, suffix: string)
    requires '_' !in suffix
    ensures EndsWith(x + ['_'] + y, suffix) <==> EndsWith(y, suffix)
  {
    var s := x + ['_'] + y;
    if |suffix| <= |y| {
      assert s[|s| - |suffix|..] == y[|y| - |suffix|..];
    } else if |suffix| <= |s| {
      var k := |suffix| - |y| - 1;
      assert s[|s| - |suffix|..][k] == '_';
    }
  }

  /** Standard mode's case-insensitive test sees the same suffix on the staged path
      as on the original name. */
  lemma LowerUploadPathSuffix(id: string, filename: string, suffix: string)
    requires '_' !in suffix
    ensures EndsWith(Lower(UploadPath(id, filename)), suffix) <==> EndsWith(Lower(filename), suffix)
  {
    var path := UploadPath(id, filename);
    var pre := if |id + "_"| > 0 && (id + "_")[0] == '/' then [] else UploadDir + "/";
    assert path == (pre + id) + ['_'] + filename;
    LowerAppend((pre + id) + ['_'], filename);
    LowerAppend(pre + id, ['_']);
    assert Lower(['_']) == ['_'];
    SuffixThroughSeparator(Lower(pre + id), Lower(filename), suffix);
  }
}
