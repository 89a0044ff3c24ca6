/**
  The spreadsheet export (`src/utils/exportExcel.ts`), its layout arithmetic:
  title and download name, the header row under an optional subtitle, the
  merged title width, the optional title column, the normalisation of cell
  values, zebra striping of body rows, and auto-fitted column widths.
*/
module ExportExcel {
  import opened Common

  const Xlsx := ".xlsx"
  const TitleKey := "__title__"

  // ---------------------------------------------------------------- names

  /** The filename ends with ".xlsx" in any letter case (`/\.xlsx$/i`). */
  predicate EndsWithXlsxAnyCase(name: string) {
    |name| >= 5 && ToLower(name[|name| - 5..]) == Xlsx
  }

  /** `filename.replace(/\.xlsx$/i, "")`. */
  function StripXlsx(name: string): (r: string)
    ensures EndsWithXlsxAnyCase(name) ==> |r| == |name| - 5 && name == r + name[|name| - 5..]
    ensures !EndsWithXlsxAnyCase(name) ==> r == name
  {
    if EndsWithXlsxAnyCase(name) then name[..|name| - 5] else name
  }

  /** Stripping the extension undoes adding it, in either letter case. */
  lemma StripXlsxRoundTrip(base: string, ext: string)
    requires ext == Xlsx || ext == ".XLSX"
    ensures StripXlsx(base + ext) == base
  {
    var n := base + ext;
    assert n[|n| - 5..] == ext;
    assert ToLower(".XLSX") == Xlsx;
  }

  /** `title || filename.replace(/\.xlsx$/i, "")`. */
  function TitleText(filename: string, title: Option<string>): (t: string)
    ensures Truthy(title) ==> t == title.value
    ensures !Truthy(title) ==> t == StripXlsx(filename)
  {
    OrElse(title, StripXlsx(filename))
  }

  /** The download name: ".xlsx" is appended unless the name already ends with it, in lower case. */
  function DownloadName(filename: string): (d: string)
    ensures EndsWith(d, Xlsx)
    ensures EndsWith(filename, Xlsx) <==> d == filename
    ensures !EndsWith(filename, Xlsx) ==> d == filename + Xlsx
  {
    if EndsWith(filename, Xlsx) then filename
    else
      assert (filename + Xlsx)[|filename + Xlsx| - 5..] == Xlsx;
      filename + Xlsx
  }

  /** The download name is stable, and the title of an export named by it is the name without the extension. */
  lemma DownloadNameFacts(filename: string)
    ensures DownloadName(DownloadName(filename)) == DownloadName(filename)
    ensures !EndsWith(filename, Xlsx) ==> StripXlsx(DownloadName(filename)) == filename
  {
    if !EndsWith(filename, Xlsx) {
      StripXlsxRoundTrip(filename, Xlsx);
    }
  }

  /**
    The title ignores the letter case of the extension but the download name
    does not: "Report.XLSX" is titled "Report" and saved as "Report.XLSX.xlsx".
  */
  lemma UpperCaseExtension()
    ensures TitleText("Report.XLSX", None) == "Report"
    ensures DownloadName("Report.XLSX") == "Report.XLSX.xlsx"
  {
    StripXlsxRoundTrip("Report", ".XLSX");
    assert "Report" + ".XLSX" == "Report.XLSX";
    assert "Report.XLSX"[6] != Xlsx[1];
  }

  // ---------------------------------------------------------------- layout

  /** The row the column headers go in, which is also the frozen split: 3 below a subtitle, 2 without. */
  function HeaderRow(subtitle: Option<string>): (row: int)
    ensures row == 3 <==> Truthy(subtitle)
    ensures row == 2 <==> !Truthy(subtitle)
  {
    if Truthy(subtitle) then 3 else 2
  }

  /** `totalCols`: the column count with the title column, and 1 when that is 0; the merge spans at least one column. */
  function TotalCols(columnCount: nat, includeTitleColumn: bool): (n: int)
    ensures n >= 1
    ensures n == MaxInt(1, columnCount + (if includeTitleColumn then 1 else 0))
  {
    var c := if includeTitleColumn then columnCount + 1 else columnCount;
    if c == 0 then 1 else c
  }

  datatype ColumnDef = ColumnDef(header: string, key: string, width: Option<int>)

  /** The columns written: with a title column, one keyed `__title__` comes first. */
  function EffectiveColumns(columns: seq<ColumnDef>, includeTitleColumn: bool, titleColumnName: Option<string>)
    : (r: seq<ColumnDef>)
    ensures includeTitleColumn ==>
              |r| == |columns| + 1 && r[0] == ColumnDef(OrElse(titleColumnName, "Title"), TitleKey, None) && r[1..] == columns
    ensures !includeTitleColumn ==> r == columns
    ensures |r| <= TotalCols(|columns|, includeTitleColumn)
  {
    if includeTitleColumn then [ColumnDef(OrElse(titleColumnName, "Title"), TitleKey, None)] + columns else columns
  }

  /** The initial width of a column: `c.width || 18`. */
  function InitialWidth(c: ColumnDef): (w: int)
    ensures c.width.Some? && c.width.value != 0 ==> w == c.width.value
    ensures c.width.None? || c.width.value == 0 ==> w == 18
  {
    if c.width.Some? && c.width.value != 0 then c.width.value else 18
  }

  // ---------------------------------------------------------------- cells

  /** A value of a row record; `Other` is any other object, with the text `String(v)` gives. */
  datatype Value = Undefined | Null | DateValue(iso: string) | Number(n: real) | Boolean(b: bool) | Text(s: string)
                 | Other(asText: string)

  /** A value as written to a cell. */
  datatype Cell = DateCell(iso: string) | NumberCell(n: real) | BoolCell(b: bool) | TextCell(s: string)

  /** Missing values become empty text; dates, numbers, booleans and text are kept; anything else becomes its text. */
  function NormalizeCell(v: Value): (c: Cell)
    ensures v.Undefined? || v.Null? ==> c == TextCell("")
    ensures v.DateValue? ==> c == DateCell(v.iso)
    ensures v.Number? ==> c == NumberCell(v.n)
    ensures v.Boolean? ==> c == BoolCell(v.b)
    ensures v.Text? ==> c == TextCell(v.s)
    ensures v.Other? ==> c == TextCell(v.asText)
  {
    match v
    case Undefined => TextCell("")
    case Null => TextCell("")
    case DateValue(d) => DateCell(d)
    case Number(n) => NumberCell(n)
    case Boolean(b) => BoolCell(b)
    case Text(s) => TextCell(s)
    case Other(t) => TextCell(t)
  }

  /** Normalising a normalised value changes nothing. */
  lemma NormalizeCellStable(v: Value)
    ensures var c := NormalizeCell(v);
            NormalizeCell(match c
                          case DateCell(d) => DateValue(d)
                          case NumberCell(n) => Number(n)
                          case BoolCell(b) => Boolean(b)
                          case TextCell(s) => Text(s)) == c
  {
  }

  /** The value of `key` in a row record; a key the record lacks reads as `undefined`. */
  function Lookup(row: map<string, Value>, key: string): Value {
    if key in row then row[key] else Undefined
  }

  /** The cell a body row gets under `key`. */
  function CellFor(row: map<string, Value>, key: string, includeTitleColumn: bool, titleValue: Option<string>,
                   titleText: string): Cell
  {
    if includeTitleColumn && key == TitleKey then TextCell(OrElse(titleValue, titleText))
    else NormalizeCell(Lookup(row, key))
  }

  /** A body row: its cells by column key, and whether it gets the striped fill. */
  datatype BodyRow = BodyRow(cells: map<string, Cell>, striped: bool)

  /** Builds `obj` for one record, key by key. */
  method RowObject(row: map<string, Value>, keys: seq<string>, includeTitleColumn: bool, titleValue: Option<string>,
                   titleText: string) returns (obj: map<string, Cell>)
    ensures obj.Keys == set k | k in keys
    ensures forall k :: k in keys ==> obj[k] == CellFor(row, k, includeTitleColumn, titleValue, titleText)
  {
    obj := map[];
    var i := 0;
    while i < |keys|
      invariant 0 <= i <= |keys|
      invariant obj.Keys == set k | k in keys[..i]
      invariant forall k :: k in keys[..i] ==> obj[k] == CellFor(row, k, includeTitleColumn, titleValue, titleText)
    {
      var key := keys[i];
      if includeTitleColumn && key == TitleKey {
        obj := obj[key := TextCell(OrElse(titleValue, titleText))];
      } else {
        obj := obj[key := NormalizeCell(Lookup(row, key))];
      }
      assert keys[..i + 1] == keys[..i] + [key];
      i := i + 1;
    }
    assert keys[..i] == keys;
  }

  /** The body: one row per record, in order, with rows 0, 2, 4, ... striped. */
  method Body(rows: seq<map<string, Value>>, keys: seq<string>, includeTitleColumn: bool, titleValue: Option<string>,
              titleText: string) returns (body: seq<BodyRow>)
    ensures |body| == |rows|
    ensures forall i :: 0 <= i < |rows| ==> (body[i].striped <==> i % 2 == 0)
    ensures forall i :: 0 <= i < |rows| - 1 ==> body[i].striped != body[i + 1].striped
    ensures forall i, k :: 0 <= i < |rows| && k in keys ==>
              k in body[i].cells && body[i].cells[k] == CellFor(rows[i], k, includeTitleColumn, titleValue, titleText)
    ensures forall i :: 0 <= i < |rows| ==> body[i].cells.Keys == set k | k in keys
  {
    body := [];
    var idx := 0;
    while idx < |rows|
      invariant 0 <= idx <= |rows| && |body| == idx
      invariant forall i :: 0 <= i < idx ==> (body[i].striped <==> i % 2 == 0)
      invariant forall i, k :: 0 <= i < idx && k in keys ==>
                  k in body[i].cells && body[i].cells[k] == CellFor(rows[i], k, includeTitleColumn, titleValue, titleText)
      invariant forall i :: 0 <= i < idx ==> body[i].cells.Keys == set k | k in keys
    {
      var obj := RowObject(rows[idx], keys, includeTitleColumn, titleValue, titleText);
      body := body + [BodyRow(obj, idx % 2 == 0)];
      idx := idx + 1;
    }
  }

  // ---------------------------------------------------------------- auto-fit

  /** The longest of some text lengths, 0 for none. */
  function Longest(lengths: seq<nat>): (m: nat)
    ensures forall i :: 0 <= i < |lengths| ==> lengths[i] <= m
    ensures lengths != [] ==> exists i :: 0 <= i < |lengths| && lengths[i] == m
    ensures lengths == [] ==> m == 0
  {
    if lengths == [] then 0
    else
      var m := Longest(lengths[..|lengths| - 1]);
      var last := lengths[|lengths| - 1];
      if last > m then last else m
  }

  /**
    The auto-fitted width of a column whose cells have the text lengths
    `lengths` (an empty cell counting as 0): each cell asks for its length
    plus 2, capped at 24; the width is the largest request, at least 10,
    capped again at 28.
  */
  method FitWidth(lengths: seq<nat>) returns (width: int)
    ensures 10 <= width <= 24
    ensures width == MaxInt(10, MinInt(24, Longest(lengths) + 2))
    ensures forall i :: 0 <= i < |lengths| ==> MinInt(24, lengths[i] + 2) <= width
  {
    var max := 10;
    var i := 0;
    while i < |lengths|
      invariant 0 <= i <= |lengths|
      invariant max == MaxInt(10, MinInt(24, Longest(lengths[..i]) + 2))
    {
      assert lengths[..i + 1][..i] == lengths[..i];
      max := MaxInt(max, MinInt(24, lengths[i] + 2));
      i := i + 1;
    }
    assert lengths[..i] == lengths;
    width := MinInt(28, max);
  }

  /**
    The widths of all columns: with auto-fit on (the default) each is fitted
    to its cells, otherwise each keeps its initial width.
  */
  method ColumnWidths(columns: seq<ColumnDef>, cellLengths: seq<seq<nat>>, autoFit: Option<bool>) returns (widths: seq<int>)
    requires |cellLengths| == |columns|
    ensures |widths| == |columns|
    ensures autoFit != Some(false) ==> forall i :: 0 <= i < |columns| ==> 10 <= widths[i] <= 24
    ensures autoFit != Some(false) ==>
              forall i :: 0 <= i < |columns| ==> widths[i] == MaxInt(10, MinInt(24, Longest(cellLengths[i]) + 2))
    ensures autoFit == Some(false) ==> forall i :: 0 <= i < |columns| ==> widths[i] == InitialWidth(columns[i])
  {
    widths := [];
    var i := 0;
    while i < |columns|
      invariant 0 <= i <= |columns| && |widths| == i
      invariant autoFit != Some(false) ==>
                  forall j :: 0 <= j < i ==> widths[j] == MaxInt(10, MinInt(24, Longest(cellLengths[j]) + 2))
      invariant autoFit == Some(false) ==> forall j :: 0 <= j < i ==> widths[j] == InitialWidth(columns[j])
    {
      var w := InitialWidth(columns[i]);
      if autoFit.GetOr(true) {
        w := FitWidth(cellLengths[i]);
      }
      widths := widths + [w];
      i := i + 1;
    }
  }
}
