/** Tables, sheets and the sheet namer shared by both conversion modes. */
module Sheets {
  import opened Strings
  import opened Json

  /** A DataFrame as read from one HTML table: column labels and data rows. Rows
      may be ragged. */
  datatype Table = Table(header: seq<Value>, rows: seq<seq<Value>>)

  /** `DataFrame.empty`: no columns or no rows. */
  predicate IsEmptyFrame(t: Table)
  {
    |t.header| == 0 || |t.rows| == 0
  }

  /** What a sheet stands for: the n-th file (standard mode), the k-th table or the
      text of one page (advanced mode), or the placeholder. Indices are 1-based. */
  datatype SheetKey =
    | FileKey(file: nat)
    | TableKey(file: nat, page: nat, ordinal: nat)
    | TextKey(file: nat, page: nat)
    | EmptyKey

  /** The sheet namer: `File_<n>`, `F<f>_P<p>_T<k>`, `F<f>_P<p>_TEXT`, `EMPTY`. */
  function SheetName(k: SheetKey): string
  {
    match k
    case FileKey(n) => "File_" + NatToString(n)
    case TableKey(f, p, t) => "F" + NatToString(f) + "_P" + NatToString(p) + "_T" + NatToString(t)
    case TextKey(f, p) => "F" + NatToString(f) + "_P" + NatToString(p) + "_TEXT"
    case EmptyKey => "EMPTY"
  }

  /** One worksheet: its key (hence its name), its header row and its data rows. */
  datatype Sheet = Sheet(key: SheetKey, header: seq<Value>, rows: seq<seq<Value>>)
  {
    function Name(): string
    {
      SheetName(key)
    }
  }

  /** The part of an advanced name after `F<f>_`. */
  function PagePart(p: nat, tail: string): string
  {
    "P" + NatToString(p) + "_" + tail
  }

  lemma AdvancedNameShape(k: SheetKey)
    requires k.TableKey? || k.TextKey?
    ensures SheetName(k) == "F" + (NatToString(k.file) + ['_'] + PagePart(k.page,
      if k.TableKey? then "T" + NatToString(k.ordinal) else "TEXT"))
  {
  }

  lemma PagePartInjective(p: nat, tail: string, p': nat, tail': string)
    requires PagePart(p, tail) == PagePart(p', tail')
    ensures p == p' && tail == tail'
  {
    var a, a' := NatToString(p), NatToString(p');
    assert PagePart(p, tail)[1..] == a + ['_'] + tail;
    assert PagePart(p', tail')[1..] == a' + ['_'] + tail';
    DigitsHaveNoSeparator(a, '_');
    DigitsHaveNoSeparator(a', '_');
    SplitAtSeparator(a, tail, a', tail', '_');
    NatToStringInjective(p, p');
  }

  /** Distinct keys get distinct names, so a workbook whose keys are distinct has
      no two sheets of the same name. */
  lemma SheetNameInjective(k: SheetKey, k': SheetKey)
    requires SheetName(k) == SheetName(k')
    ensures k == k'
  {
    var s := SheetName(k);
    match k
    case EmptyKey =>
      assert s[0] == 'E';
      assert k'.EmptyKey? by { NotEmptyName(k'); }
    case FileKey(n) =>
      assert s[0] == 'F' && s[1] == 'i';
      match k' {
        case FileKey(n') =>
          assert s[5..] == NatToString(n);
          assert SheetName(k')[5..] == NatToString(n');
          NatToStringInjective(n, n');
        case EmptyKey =>
        case TableKey(_, _, _) => AdvancedSecondIsDigit(k');
        case TextKey(_, _) => AdvancedSecondIsDigit(k');
      }
    case TableKey(f, p, t) =>
      AdvancedSecondIsDigit(k);
      AdvancedAgainst(k, k');
    case TextKey(f, p) =>
      AdvancedSecondIsDigit(k);
      AdvancedAgainst(k, k');
  }

  lemma NotEmptyName(k: SheetKey)
    requires SheetName(k)[0] == 'E'
    ensures k.EmptyKey?
  {
  }

  lemma AdvancedSecondIsDigit(k: SheetKey)
    requires k.TableKey? || k.TextKey?
    ensures |SheetName(k)| >= 2 && SheetName(k)[0] == 'F' && IsDigit(SheetName(k)[1])
  {
    AdvancedNameShape(k);
  }

  lemma AdvancedAgainst(k: SheetKey, k': SheetKey)
    requires k.TableKey? || k.TextKey?
    requires SheetName(k) == SheetName(k')
    ensures k == k'
  {
    var s := SheetName(k);
    if k'.EmptyKey? {
    } else if k'.FileKey? {
      assert SheetName(k')[1] == 'i';
      AdvancedSecondIsDigit(k);
    } else {
      AdvancedNameShape(k);
      AdvancedNameShape(k');
      var tail := if k.TableKey? then "T" + NatToString(k.ordinal) else "TEXT";
      var tail' := if k'.TableKey? then "T" + NatToString(k'.ordinal) else "TEXT";
      var a, a' := NatToString(k.file), NatToString(k'.file);
      assert s[1..] == a + ['_'] + PagePart(k.page, tail);
      assert SheetName(k')[1..] == a' + ['_'] + PagePart(k'.page, tail');
      DigitsHaveNoSeparator(a, '_');
      DigitsHaveNoSeparator(a', '_');
      SplitAtSeparator(a, PagePart(k.page, tail), a', PagePart(k'.page, tail'), '_');
      NatToStringInjective(k.file, k'.file);
      PagePartInjective(k.page, tail, k'.page, tail');
      TailInjective(k, k');
    }
  }

  lemma TailInjective(k: SheetKey, k': SheetKey)
    requires k.TableKey? || k.TextKey?
    requires k'.TableKey? || k'.TextKey?
    requires (if k.TableKey? then "T" + NatToString(k.ordinal) else "TEXT")
          == (if k'.TableKey? then "T" + NatToString(k'.ordinal) else "TEXT")
    requires k.file == k'.file && k.page == k'.page
    ensures k == k'
  {
    if k.TableKey? && k'.TableKey? {
      assert ("T" + NatToString(k.ordinal))[1..] == NatToString(k.ordinal);
      assert ("T" + NatToString(k'.ordinal))[1..] == NatToString(k'.ordinal);
      NatToStringInjective(k.ordinal, k'.ordinal);
    } else if k.TableKey? {
      OrdinalTailIsNotText(k.ordinal);
    } else if k'.TableKey? {
      OrdinalTailIsNotText(k'.ordinal);
    }
  }

  /** A table tail `T<k>` continues with a digit, the text tail `TEXT` with a letter. */
  lemma OrdinalTailIsNotText(t: nat)
    ensures "T" + NatToString(t) != "TEXT"
  {
    assert ("T" + NatToString(t))[1] == NatToString(t)[0];
  }

  /** (file, page) comes strictly before (file', page') in emission order. */
  predicate UnitBefore(f: nat, p: nat, f': nat, p': nat)
  {
    f < f' || (f == f' && p < p')
  }

  /** Emission order: files, then pages, then the tables of a page by ordinal, and a
      page's text sheet after its tables. */
  predicate Before(a: SheetKey, b: SheetKey)
  {
    match a
    case FileKey(n) => b.FileKey? && n < b.file
    case TableKey(f, p, t) =>
      (b.TableKey? && (UnitBefore(f, p, b.file, b.page) || (f == b.file && p == b.page && t < b.ordinal)))
      || (b.TextKey? && (UnitBefore(f, p, b.file, b.page) || (f == b.file && p == b.page)))
    case TextKey(f, p) => (b.TableKey? || b.TextKey?) && UnitBefore(f, p, b.file, b.page)
    case EmptyKey => false
  }

  /** The sheets appear in strict emission order. */
  ghost predicate Ordered(ss: seq<Sheet>)
  {
    forall i, j :: 0 <= i < j < |ss| ==> Before(ss[i].key, ss[j].key)
  }

  /** Concatenating two ordered runs, every sheet of the first before every sheet of
      the second, gives an ordered run. */
  lemma OrderedAppend(a: seq<Sheet>, b: seq<Sheet>)
    requires Ordered(a) && Ordered(b)
    requires forall i, j :: 0 <= i < |a| && 0 <= j < |b| ==> Before(a[i].key, b[j].key)
    ensures Ordered(a + b)
  {
    forall i, j | 0 <= i < j < |a + b|
      ensures Before((a + b)[i].key, (a + b)[j].key)
    {
      if j < |a| {
        assert (a + b)[i] == a[i] && (a + b)[j] == a[j];
      } else if i < |a| {
        assert (a + b)[i] == a[i] && (a + b)[j] == b[j - |a|];
      } else {
        assert (a + b)[i] == b[i - |a|] && (a + b)[j] == b[j - |a|];
      }
    }
  }

  /** Every sheet is a table or text sheet of file f, on a page between lo and hi. */
  ghost predicate OfFile(ss: seq<Sheet>, f: nat, lo: nat, hi: nat)
  {
    forall i :: 0 <= i < |ss| ==>
      (ss[i].key.TableKey? || ss[i].key.TextKey?) && ss[i].key.file == f && lo <= ss[i].key.page <= hi
  }

  /** Every sheet is a table or text sheet of a file between lo and hi. */
  ghost predicate OfFiles(ss: seq<Sheet>, lo: nat, hi: nat)
  {
    forall i :: 0 <= i < |ss| ==>
      (ss[i].key.TableKey? || ss[i].key.TextKey?) && lo <= ss[i].key.file <= hi
  }

  ghost predicate DistinctNames(ss: seq<Sheet>)
  {
    forall i, j :: 0 <= i < j < |ss| ==> ss[i].Name() != ss[j].Name()
  }

  /** Emission order is strict, so ordered sheets carry pairwise distinct names. */
  lemma OrderedHasDistinctNames(ss: seq<Sheet>)
    requires Ordered(ss)
    ensures DistinctNames(ss)
  {
    forall i, j | 0 <= i < j < |ss|
      ensures ss[i].Name() != ss[j].Name()
    {
      if ss[i].Name() == ss[j].Name() {
        SheetNameInjective(ss[i].key, ss[j].key);
      }
    }
  }

  /** How a conversion request can fail: no files (the 400 answer), or an exception
      the endpoint does not catch (the 500 answer). */
  datatype ConvertError = NoFilesUploaded | Unhandled

  /** A finished conversion: the id handed back, where the workbook was written, and
      its sheets in workbook order. */
  datatype Conversion = Conversion(fileId: string, outputPath: string, sheets: seq<Sheet>)
}
