/**
 * The table's export (`src/lib/exportUtils.ts`): one flat record per model,
 * and the CSV text built from those records. The download itself (a Blob
 * and an anchor element) is not part of this model.
 */
module ExportUtils {
  import opened Wrappers
  import opened Types
  import Text
  import Helpers

  /** One exported row. `parametersB` is copied as it is and may be absent. */
  datatype ExportData = ExportData(
    systemName: string,
    displayName: string,
    categoryName: string,
    parametersB: Option<real>,
    inputText: real,
    outputText: real,
    vendorName: string,
    contextWindow: int,
    tokenLimit: int,
    precision: string,
    isOpenSource: bool,
    isHidden: bool)

  /** The row of one model: names of the first category and vendor with a
      matching id (else ''), and falsy or missing values replaced by 0, ''
      or false. */
  function ExportRecord(m: AIModel, categories: seq<Category>, vendors: seq<Vendor>): (r: ExportData)
    ensures r.systemName == m.systemName && r.displayName == m.displayName
    ensures r.parametersB == m.parametersB
    ensures (forall i :: 0 <= i < |categories| ==> categories[i].id != m.categoryId) ==> r.categoryName == ""
    ensures forall i :: 0 <= i < |categories| && categories[i].id == m.categoryId
                        && (forall j :: 0 <= j < i ==> categories[j].id != m.categoryId)
                        ==> r.categoryName == categories[i].name
    ensures (forall i :: 0 <= i < |vendors| ==> vendors[i].id != m.vendorId) ==> r.vendorName == ""
    ensures forall i :: 0 <= i < |vendors| && vendors[i].id == m.vendorId
                        && (forall j :: 0 <= j < i ==> vendors[j].id != m.vendorId)
                        ==> r.vendorName == vendors[i].name
    ensures r.inputText == (if m.pricing.Some? then m.pricing.value.inputText else 0.0)
    ensures r.outputText == (if m.pricing.Some? then m.pricing.value.outputText else 0.0)
    ensures r.contextWindow == m.contextWindow.GetOr(0) && r.tokenLimit == m.tokenLimit.GetOr(0)
    ensures r.precision == m.precision.GetOr("")
    ensures r.isOpenSource == m.isOpenSource.GetOr(false) && r.isHidden == m.isHidden.GetOr(false)
  {
    var category := FindCategory(categories, m.categoryId);
    var vendor := FindVendor(vendors, m.vendorId);
    ExportData(
      m.systemName,
      m.displayName,
      if category.Some? then category.value.name else "",
      m.parametersB,
      if m.pricing.Some? then m.pricing.value.inputText else 0.0,
      if m.pricing.Some? then m.pricing.value.outputText else 0.0,
      if vendor.Some? then vendor.value.name else "",
      m.contextWindow.GetOr(0),
      m.tokenLimit.GetOr(0),
      m.precision.GetOr(""),
      m.isOpenSource.GetOr(false),
      m.isHidden.GetOr(false))
  }

  /** `models.map(...)`: one row per model, in order. */
  function PrepareExportData(models: seq<AIModel>, categories: seq<Category>, vendors: seq<Vendor>): (r: seq<ExportData>)
    ensures |r| == |models|
    ensures forall i :: 0 <= i < |r| ==> r[i] == ExportRecord(models[i], categories, vendors)
  {
    if models == [] then []
    else [ExportRecord(models[0], categories, vendors)] + PrepareExportData(models[1..], categories, vendors)
  }

  /** The exported names agree with the table's lookups wherever a record
      is found; where none is, the table shows "Unknown" and the export ''. */
  lemma ExportNamesAgreeWithTable(m: AIModel, categories: seq<Category>, vendors: seq<Vendor>)
    ensures var r := ExportRecord(m, categories, vendors);
            && (FindCategory(categories, m.categoryId).Some? ==> r.categoryName == Helpers.GetCategoryName(m.categoryId, categories))
            && (FindCategory(categories, m.categoryId).None? ==> r.categoryName == "" && Helpers.GetCategoryName(m.categoryId, categories) == "Unknown")
            && (FindVendor(vendors, m.vendorId).Some? ==> r.vendorName == Helpers.GetVendorName(m.vendorId, vendors))
            && (FindVendor(vendors, m.vendorId).None? ==> r.vendorName == "" && Helpers.GetVendorName(m.vendorId, vendors) == "Unknown")
  {
  }

  // -------------------------------------------------------------------- CSV

  /** A value of an exported row as `Object.values` yields it. */
  datatype CsvValue = CText(s: string) | CNumber(n: real) | CBool(b: bool) | CNull

  /** The keys of an exported row, in declaration order. */
  const FieldNames: seq<string> := ["systemName", "displayName", "categoryName", "parametersB", "inputText",
    "outputText", "vendorName", "contextWindow", "tokenLimit", "precision", "isOpenSource", "isHidden"]

  function Values(d: ExportData): (r: seq<CsvValue>)
    ensures |r| == |FieldNames|
  {
    [CText(d.systemName), CText(d.displayName), CText(d.categoryName),
     if d.parametersB.Some? then CNumber(d.parametersB.value) else CNull,
     CNumber(d.inputText), CNumber(d.outputText), CText(d.vendorName),
     CNumber(d.contextWindow as real), CNumber(d.tokenLimit as real), CText(d.precision),
     CBool(d.isOpenSource), CBool(d.isHidden)]
  }

  /** How `join` renders one value: a string with a comma is wrapped in
      double quotes (inner quotes are left as they are), numbers through
      `showNumber`, booleans as words, and an absent value as ''. */
  function Cell(v: CsvValue, showNumber: real -> string): (r: string)
    ensures v.CText? && Text.Contains(v.s, ",") ==> r == "\"" + v.s + "\""
    ensures v.CText? && !Text.Contains(v.s, ",") ==> r == v.s
  {
    match v
    case CText(s) => if Text.Contains(s, ",") then "\"" + s + "\"" else s
    case CNumber(n) => showNumber(n)
    case CBool(b) => if b then "true" else "false"
    case CNull => ""
  }

  function Cells(vs: seq<CsvValue>, showNumber: real -> string): (r: seq<string>)
    ensures |r| == |vs|
    ensures forall i :: 0 <= i < |vs| ==> r[i] == Cell(vs[i], showNumber)
  {
    if vs == [] then [] else [Cell(vs[0], showNumber)] + Cells(vs[1..], showNumber)
  }

  function Row(d: ExportData, showNumber: real -> string): string {
    Text.Join(Cells(Values(d), showNumber), ",")
  }

  function Rows(data: seq<ExportData>, showNumber: real -> string): (r: seq<string>)
    ensures |r| == |data|
    ensures forall i :: 0 <= i < |data| ==> r[i] == Row(data[i], showNumber)
  {
    if data == [] then [] else [Row(data[0], showNumber)] + Rows(data[1..], showNumber)
  }

  /** The CSV text, or `None` for an empty export (nothing is downloaded). */
  function ExportCsv(data: seq<ExportData>, showNumber: real -> string): (r: Option<string>)
    ensures r.None? <==> data == []
    ensures r.Some? ==> r.value == Text.Join(FieldNames, ",") + "\n" + Text.Join(Rows(data, showNumber), "\n")
  {
    if data == [] then None
    else Some(Text.Join(FieldNames, ",") + "\n" + Text.Join(Rows(data, showNumber), "\n"))
  }

  /** A row avoids a character when every string value and every rendered
      number does. */
  predicate TextFreeOf(d: ExportData, c: char) {
    c !in d.systemName && c !in d.displayName && c !in d.categoryName
    && c !in d.vendorName && c !in d.precision
  }

  lemma RowFreeOfNewline(d: ExportData, showNumber: real -> string)
    requires TextFreeOf(d, '\n')
    requires forall n :: '\n' !in showNumber(n)
    ensures '\n' !in Row(d, showNumber)
  {
    var cells := Cells(Values(d), showNumber);
    forall i | 0 <= i < |cells|
      ensures '\n' !in cells[i]
    {
      var v := Values(d)[i];
      if v.CText? && Text.Contains(v.s, ",") {
        assert cells[i] == "\"" + v.s + "\"";
      }
    }
    Text.JoinAvoids(cells, ",", '\n');
  }

  lemma HeaderFreeOfNewline()
    ensures '\n' !in Text.Join(FieldNames, ",")
  {
    Text.JoinAvoids(FieldNames, ",", '\n');
  }

  /** The CSV has a header line and one line per row: with no line break in
      any value it holds exactly as many line breaks as rows, and no
      trailing one. */
  lemma CsvLineCount(data: seq<ExportData>, showNumber: real -> string)
    requires data != []
    requires forall i :: 0 <= i < |data| ==> TextFreeOf(data[i], '\n')
    requires forall n :: '\n' !in showNumber(n)
    ensures var csv := ExportCsv(data, showNumber).value;
            Text.CountChar(csv, '\n') == |data| && csv[|csv| - 1] != '\n'
  {
    var rows := Rows(data, showNumber);
    HeaderFreeOfNewline();
    forall i | 0 <= i < |rows|
      ensures '\n' !in rows[i]
    {
      RowFreeOfNewline(data[i], showNumber);
    }
    RowNonEmpty(data[|data| - 1], showNumber);
    JoinedLines(Text.Join(FieldNames, ","), rows);
  }

  /** A row holds at least the commas between its twelve cells. */
  lemma RowNonEmpty(d: ExportData, showNumber: real -> string)
    ensures Row(d, showNumber) != []
  {
  }

  /** A header and rows joined by line breaks, none holding one itself. */
  lemma JoinedLines(header: string, rows: seq<string>)
    requires rows != [] && rows[|rows| - 1] != []
    requires '\n' !in header
    requires forall i :: 0 <= i < |rows| ==> '\n' !in rows[i]
    ensures var s := header + "\n" + Text.Join(rows, "\n");
            Text.CountChar(s, '\n') == |rows| && s[|s| - 1] != '\n'
  {
    Text.CountCharAbsent(header, '\n');
    forall i | 0 <= i < |rows|
      ensures Text.CountChar(rows[i], '\n') == 0
    {
      Text.CountCharAbsent(rows[i], '\n');
    }
    Text.JoinCountsSeparators(rows, '\n');
    Text.CountCharConcat(header + "\n", Text.Join(rows, "\n"), '\n');
    Text.CountCharConcat(header, "\n", '\n');
    assert Text.CountChar("\n", '\n') == 1 by {
      assert "\n"[1..] == [];
    }
    LastCharOfJoin(rows, "\n");
  }

  /** A join whose last part is non-empty ends with that part's last
      character; an empty last part leaves the separator last. */
  lemma {:induction false} LastCharOfJoin(parts: seq<string>, sep: string)
    requires parts != [] && sep != []
    ensures var j := Text.Join(parts, sep);
            var last := parts[|parts| - 1];
            j != [] ==> j[|j| - 1] == if last != [] then last[|last| - 1] else sep[|sep| - 1]
  {
    if |parts| > 1 {
      LastCharOfJoin(parts[1..], sep);
    }
  }

  /** The shortcoming against section 2 (rules 6 and 7) of RFC 4180: a value
      holding both a comma and a double quote is quoted without doubling the
      inner quote, so the quote closes the field early. */
  lemma InnerQuoteNotDoubled(showNumber: real -> string)
    ensures Cell(CText("a,\"b"), showNumber) == "\"a,\"b\""
  {
    assert Text.OccursAt("a,\"b", ",", 1);
  }

  /** A value with a line break and no comma is written unquoted, so it
      splits its row across lines (RFC 4180 section 2, rule 6). */
  lemma NewlineNotQuoted(showNumber: real -> string)
    ensures Cell(CText("a\nb"), showNumber) == "a\nb"
  {
    Text.ContainsChar("a\nb", ',');
  }
}
