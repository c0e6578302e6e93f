/**
 * The batch worksheet a file's rows build: `testing_file_order`,
 * `control_data` and the `<analyte>_<testId>_raw` readings of regular
 * samples. Each data row is classified (a listed test on a regular sample,
 * a matrix spike or blank on a QC-flagged sample, a counter-numbered
 * configured QC type, or unrecognized) and its mapped cells are stored.
 * The pure fold `SheetOf` specifies the row loop `ProcessRows`.
 */
module BatchSheet {
  import opened Wrappers
  import opened JsString
  import opened JsNumber
  import opened FileParse
  import TestIndex

  /** An entry of `testing_file_order`: a regular sample's numeric test id, or a QC entry's name. */
  datatype OrderEntry = TestEntry(id: int) | NameEntry(name: string)

  /**
   * An entry of `control_data`: its `qc_type`, the `sample_id` and `test_id`
   * of a matrix QC entry, and the `<analyte>_raw` readings.
   */
  datatype ControlEntry = ControlEntry(qcType: string, sampleId: Option<nat>, testId: Option<int>, readings: map<string, real>)

  /** `worksheetData`: the file order, the control entries, and the regular samples' raw readings. */
  datatype Sheet = Sheet(order: seq<OrderEntry>, control: map<string, ControlEntry>, raw: map<string, real>)

  /**
   * What classifying a file's rows depends on: the layout, the assay's
   * column-label map, its `qc_types`, the batch's test index and the batch
   * samples flagged as QC.
   */
  datatype Context = Context(
    format: Format,
    labels: map<string, string>,
    qcTypes: seq<string>,
    index: TestIndex.Index,
    qcSamples: set<nat>)
  {
    predicate Valid() {
      TestIndex.Valid(index)
    }
  }

  // ---------------------------------------------------------------------------
  // Reading keys
  // ---------------------------------------------------------------------------

  /** The `worksheetData` key of a regular sample's reading. */
  function TestKey(analyte: string, testId: int): string {
    analyte + "_" + IntToString(testId) + "_raw"
  }

  /** How a row's readings are keyed: per test in `worksheetData`, or per analyte inside a control entry. */
  datatype KeyScheme = ForTest(testId: int) | ForControl

  function ReadingKey(scheme: KeyScheme, analyte: string): string {
    match scheme
    case ForTest(t) => TestKey(analyte, t)
    case ForControl => analyte + "_raw"
  }

  /** In `x + "_" + y`, a longer suffix after an underscore reaches back over the underscore that ends `x`. */
  lemma LongerSuffixHasUnderscore(x: string, y: string, x': string, y': string)
    requires x + "_" + y == x' + "_" + y'
    requires |y| < |y'|
    ensures '_' in y'
  {
    var s := x + "_" + y;
    assert s[|x|] == '_';
    assert y'[|x| - |x'| - 1] == s[|x|];
  }

  /** Splitting `x + "_" + y` at its last underscore, when `y` has none. */
  lemma SplitAtLastUnderscore(x: string, y: string, x': string, y': string)
    requires '_' !in y && '_' !in y'
    requires x + "_" + y == x' + "_" + y'
    ensures x == x' && y == y'
  {
    var s := x + "_" + y;
    if |y| < |y'| {
      LongerSuffixHasUnderscore(x, y, x', y');
    } else if |y| > |y'| {
      LongerSuffixHasUnderscore(x', y', x, y);
    }
    assert y == s[|s| - |y|..] == y';
    assert x == s[..|x|] == x';
  }

  /** Distinct (analyte, test) pairs have distinct reading keys, whatever the analyte names contain. */
  lemma TestKeyInjective(a: string, t: int, a': string, t': int)
    requires TestKey(a, t) == TestKey(a', t')
    ensures a == a' && t == t'
  {
    var k := TestKey(a, t);
    assert a + "_" + IntToString(t) == k[..|k| - 4];
    assert a' + "_" + IntToString(t') == k[..|k| - 4];
    SplitAtLastUnderscore(a, IntToString(t), a', IntToString(t'));
    IntToStringInjective(t, t');
  }

  /** Within one scheme, distinct analytes have distinct keys. */
  lemma ReadingKeyInjective(scheme: KeyScheme, a: string, a': string)
    requires ReadingKey(scheme, a) == ReadingKey(scheme, a')
    ensures a == a'
  {
    match scheme
    case ForTest(t) => TestKeyInjective(a, t, a', t);
    case ForControl =>
      var k := ReadingKey(scheme, a);
      assert a == k[..|k| - 4] == a';
  }

  // ---------------------------------------------------------------------------
  // Header and readings
  // ---------------------------------------------------------------------------

  /**
   * `orderedAnalytes` from the header row's trimmed cells: the position of
   * every cell whose text is a label with a non-empty analyte code, mapped
   * to that code.
   */
  function HeaderColumns(cells: seq<string>, labels: map<string, string>): map<nat, string> {
    HeaderPrefix(cells, labels, |cells|)
  }

  /** The columns the header lookup maps among the first `n` cells. */
  function HeaderPrefix(cells: seq<string>, labels: map<string, string>, n: nat): map<nat, string>
    requires n <= |cells|
  {
    map i: nat | i < n && cells[i] in labels && labels[cells[i]] != "" :: labels[cells[i]]
  }

  /** Looking at one more cell maps it when its text labels an analyte, and leaves the rest alone. */
  lemma HeaderPrefixStep(columns: map<nat, string>, cells: seq<string>, labels: map<string, string>, n: nat)
    requires n < |cells|
    ensures cells[n] in labels && labels[cells[n]] != "" ==>
      columns + HeaderPrefix(cells, labels, n + 1) == (columns + HeaderPrefix(cells, labels, n))[n := labels[cells[n]]]
    ensures !(cells[n] in labels && labels[cells[n]] != "") ==>
      columns + HeaderPrefix(cells, labels, n + 1) == columns + HeaderPrefix(cells, labels, n)
  {
  }

  /**
   * The column loop over the first `n` cells of a row: each cell at a mapped
   * position has its reading stored under its analyte's key, a later cell
   * overwriting an earlier one with the same key.
   */
  function Overlay(m: map<string, real>, readings: seq<real>, columns: map<nat, string>, scheme: KeyScheme, n: nat): map<string, real>
    requires n <= |readings|
  {
    if n == 0 then m
    else
      var before := Overlay(m, readings, columns, scheme, n - 1);
      if n - 1 in columns && columns[n - 1] != "" then before[ReadingKey(scheme, columns[n - 1]) := readings[n - 1]]
      else before
  }

  /** The keys the column loop stores: those already there, plus one per mapped cell. */
  lemma {:induction false} OverlayKeys(m: map<string, real>, readings: seq<real>, columns: map<nat, string>, scheme: KeyScheme, n: nat, k: string)
    requires n <= |readings|
    ensures k in Overlay(m, readings, columns, scheme, n) <==>
      k in m || exists i :: 0 <= i < n && i in columns && columns[i] != "" && ReadingKey(scheme, columns[i]) == k
    decreases n
  {
    if n > 0 {
      OverlayKeys(m, readings, columns, scheme, n - 1, k);
    }
  }

  /**
   * A mapped cell's reading is kept unless a later cell maps to the same
   * analyte: the stored value is the reading of the last such cell.
   */
  lemma {:induction false} OverlayLastCell(m: map<string, real>, readings: seq<real>, columns: map<nat, string>, scheme: KeyScheme, n: nat, i: nat)
    requires i < n <= |readings|
    requires i in columns && columns[i] != ""
    requires forall j :: i < j < n && j in columns ==> columns[j] != columns[i]
    ensures ReadingKey(scheme, columns[i]) in Overlay(m, readings, columns, scheme, n)
    ensures Overlay(m, readings, columns, scheme, n)[ReadingKey(scheme, columns[i])] == readings[i]
    decreases n
  {
    if i < n - 1 {
      OverlayLastCell(m, readings, columns, scheme, n - 1, i);
      if n - 1 in columns && columns[n - 1] != "" && ReadingKey(scheme, columns[n - 1]) == ReadingKey(scheme, columns[i]) {
        ReadingKeyInjective(scheme, columns[n - 1], columns[i]);
      }
    }
  }

  // ---------------------------------------------------------------------------
  // Classification
  // ---------------------------------------------------------------------------

  /** How a row is treated. */
  datatype RowKind =
    | Header
    | Blank
    | Regular(testId: int)
    | Matrix(spike: bool, testId: int, sampleId: nat)
    | Counted(qcType: string)
    | Unrecognized

  /** The sample token: the cleaned identity cell up to its first underscore (`split('_')[0]`). */
  function FileSampleId(cell: string): string {
    Split(CleanCell(cell), '_')[0]
  }

  /** `parseInt(fileSampleID.replace('-spk', ''))`: only the first "-spk" is removed. */
  function TestIdOf(token: string): Option<int> {
    ParseInt(ReplaceFirst(token, "-spk", ""))
  }

  /** `token.toLowerCase().includes(qcType.toLowerCase())`. */
  predicate QcMatches(token: string, qcType: string) {
    Includes(ToLower(token), ToLower(qcType))
  }

  /** The position of the first configured QC type the token matches, in declared order (`qcTypes.find`). */
  function FirstMatch(qcTypes: seq<string>, token: string): (r: Option<nat>)
    ensures r.Some? ==> r.value < |qcTypes| && QcMatches(token, qcTypes[r.value])
    ensures r.Some? ==> forall k :: 0 <= k < r.value ==> !QcMatches(token, qcTypes[k])
    ensures r.None? <==> forall k :: 0 <= k < |qcTypes| ==> !QcMatches(token, qcTypes[k])
  {
    if qcTypes == [] then None
    else if QcMatches(token, qcTypes[0]) then Some(0)
    else
      match FirstMatch(qcTypes[1..], token)
      case Some(j) => Some(j + 1)
      case None => None
  }

  /**
   * What the row loop reads from one row: whether it is skipped as blank
   * (first cell missing or empty once cleaned, or no identity cell), the
   * sample token, the test id parsed from it, whether it names a spike, the
   * first configured QC type it matches, each cell trimmed (for the header
   * lookup) and each cell through `toFloat`.
   */
  datatype RowView = RowView(
    blank: bool,
    token: string,
    testId: Option<int>,
    spike: bool,
    qcMatch: Option<nat>,
    cells: seq<string>,
    readings: seq<real>)

  function View(format: Format, qcTypes: seq<string>, row: seq<string>): (v: RowView)
    ensures |v.cells| == |v.readings| == |row|
    ensures forall i :: 0 <= i < |row| ==> v.cells[i] == Trim(row[i]) && v.readings[i] == ToFloat(row[i], 0.0)
    ensures v.blank <==> |row| == 0 || CleanCell(row[0]) == "" || format.idColumn >= |row|
    ensures !v.blank ==> v.token == FileSampleId(row[format.idColumn])
    ensures v.qcMatch.Some? ==> v.qcMatch.value < |qcTypes| && QcMatches(v.token, qcTypes[v.qcMatch.value])
    ensures v.qcMatch.None? <==> forall k :: 0 <= k < |qcTypes| ==> !QcMatches(v.token, qcTypes[k])
  {
    hide QcMatches;
    var blank := |row| == 0 || CleanCell(row[0]) == "" || format.idColumn >= |row|;
    var token := if format.idColumn < |row| then FileSampleId(row[format.idColumn]) else "";
    RowView(
      blank,
      token,
      TestIdOf(token),
      Includes(token, "-spk"),
      FirstMatch(qcTypes, token),
      TrimmedCells(row),
      CellReadings(row))
  }

  /** Each cell trimmed, as the header lookup reads it (`col.toString().trim()`). */
  function TrimmedCells(row: seq<string>): (cells: seq<string>)
    ensures |cells| == |row|
    ensures forall i :: 0 <= i < |row| ==> cells[i] == Trim(row[i])
  {
    seq(|row|, i requires 0 <= i < |row| => Trim(row[i]))
  }

  /** Each cell through `toFloat` with its default of 0. */
  function CellReadings(row: seq<string>): (readings: seq<real>)
    ensures |readings| == |row|
    ensures forall i :: 0 <= i < |row| ==> readings[i] == ToFloat(row[i], 0.0)
  {
    seq(|row|, i requires 0 <= i < |row| => ToFloat(row[i], 0.0))
  }

  /** The `qc_type` of a matrix QC row. */
  function MatrixType(spike: bool): string {
    if spike then "matrix_spike" else "matrix_blank"
  }

  function MatrixName(spike: bool, testId: int): string {
    MatrixType(spike) + "_" + IntToString(testId)
  }

  function CountedName(qcType: string, n: nat): string {
    qcType + "_" + NatToString(n)
  }

  /**
   * How the row at `rowIndex` is treated: the header row maps columns; a
   * blank row is skipped; a token naming a listed test is a matrix QC entry
   * when its owner sample is QC-flagged and a regular sample otherwise; any
   * other token takes the first configured QC type it contains, and is
   * skipped when there is none or that type is the empty string (which is
   * falsy).
   */
  function Classify(ctx: Context, v: RowView, rowIndex: nat): RowKind
    requires ctx.Valid()
  {
    if rowIndex == ctx.format.headerRow then Header
    else if v.blank then Blank
    else if v.testId.Some? && v.testId.value in ctx.index.tests then
      var owner := TestIndex.Owner(ctx.index, v.testId.value);
      if owner.Some? && owner.value in ctx.qcSamples then Matrix(v.spike, v.testId.value, owner.value)
      else Regular(v.testId.value)
    else
      match v.qcMatch
      case Some(j) => if j < |ctx.qcTypes| && ctx.qcTypes[j] != "" then Counted(ctx.qcTypes[j]) else Unrecognized
      case None => Unrecognized
  }

  /** Only the row at the header index is treated as the header. */
  lemma ClassifyHeader(ctx: Context, v: RowView, rowIndex: nat)
    requires ctx.Valid()
    ensures Classify(ctx, v, rowIndex).Header? <==> rowIndex == ctx.format.headerRow
  {
  }

  /** A row counted as a QC type took the first configured, non-empty QC type its token contains. */
  lemma ClassifyCounted(ctx: Context, v: RowView, rowIndex: nat)
    requires ctx.Valid()
    requires v.qcMatch == FirstMatch(ctx.qcTypes, v.token)
    requires Classify(ctx, v, rowIndex).Counted?
    ensures var q := Classify(ctx, v, rowIndex).qcType;
      && q in ctx.qcTypes && q != ""
      && exists j :: 0 <= j < |ctx.qcTypes| && ctx.qcTypes[j] == q && QcMatches(v.token, q)
           && forall k :: 0 <= k < j ==> !QcMatches(v.token, ctx.qcTypes[k])
  {
    var j := v.qcMatch.value;
    assert ctx.qcTypes[j] == Classify(ctx, v, rowIndex).qcType;
  }

  /**
   * A row is a regular sample or a matrix QC entry exactly when it is a
   * non-blank data row whose token names a listed test; it is a matrix entry
   * exactly when the test's owner sample is QC-flagged, and then it carries
   * that owner.
   */
  lemma ClassifyListedTest(ctx: Context, v: RowView, rowIndex: nat)
    requires ctx.Valid()
    ensures var kind := Classify(ctx, v, rowIndex);
      (kind.Regular? || kind.Matrix?) <==>
        rowIndex != ctx.format.headerRow && !v.blank && v.testId.Some? && v.testId.value in ctx.index.tests
    ensures var kind := Classify(ctx, v, rowIndex);
      kind.Matrix? ==>
        && kind.testId == v.testId.value && kind.spike == v.spike
        && TestIndex.Owner(ctx.index, kind.testId) == Some(kind.sampleId) && kind.sampleId in ctx.qcSamples
    ensures var kind := Classify(ctx, v, rowIndex);
      kind.Regular? ==>
        && kind.testId == v.testId.value
        && !(TestIndex.Owner(ctx.index, kind.testId).Some? && TestIndex.Owner(ctx.index, kind.testId).value in ctx.qcSamples)
  {
  }

  /** Every row's classification, in row order. */
  function Kinds(ctx: Context, views: seq<RowView>): (kinds: seq<RowKind>)
    requires ctx.Valid()
    ensures |kinds| == |views|
  {
    seq(|views|, i requires 0 <= i < |views| => Classify(ctx, views[i], i))
  }

  // ---------------------------------------------------------------------------
  // The row loop, field by field
  // ---------------------------------------------------------------------------

  /** How many of the first `n` rows are counted as QC type `q`. */
  function CountKind(kinds: seq<RowKind>, n: nat, q: string): nat
    requires n <= |kinds|
  {
    if n == 0 then 0 else CountKind(kinds, n - 1, q) + (if kinds[n - 1] == Counted(q) then 1 else 0)
  }

  /** `qcTypes.forEach(type => qcCounters[type] = 0)`. */
  function InitialCounters(qcTypes: seq<string>): map<string, nat> {
    map q | q in qcTypes :: 0
  }

  /** `qcCounters` after the first `n` rows: each configured type's count of rows counted as it. */
  function Counters(qcTypes: seq<string>, kinds: seq<RowKind>, n: nat): map<string, nat>
    requires n <= |kinds|
  {
    map q | q in qcTypes :: CountKind(kinds, n, q)
  }

  /** `orderedAnalytes` after the first `n` rows: the header row adds its mapped columns. */
  function ColumnsAfter(kinds: seq<RowKind>, views: seq<RowView>, labels: map<string, string>, n: nat): map<nat, string>
    requires n <= |kinds| && n <= |views|
  {
    if n == 0 then map[]
    else
      var before := ColumnsAfter(kinds, views, labels, n - 1);
      if kinds[n - 1].Header? then before + HeaderColumns(views[n - 1].cells, labels) else before
  }

  /**
   * The name the QC row `i` is stored under: `<qc_type>_<testId>` for a
   * matrix entry, `<qcType>_<k>` for the k-th row counted as that type.
   */
  function QcName(kinds: seq<RowKind>, i: nat): string
    requires i < |kinds| && (kinds[i].Matrix? || kinds[i].Counted?)
  {
    match kinds[i]
    case Matrix(spike, t, _) => MatrixName(spike, t)
    case Counted(q) => CountedName(q, CountKind(kinds, i, q) + 1)
  }

  /** What row `i` pushes onto `testing_file_order`. */
  function EntryFor(kinds: seq<RowKind>, i: nat): (r: seq<OrderEntry>)
    requires i < |kinds|
    ensures |r| <= 1
  {
    match kinds[i]
    case Regular(t) => [TestEntry(t)]
    case Matrix(_, _, _) => [NameEntry(QcName(kinds, i))]
    case Counted(_) => [NameEntry(QcName(kinds, i))]
    case _ => []
  }

  /** `testing_file_order` after the first `n` rows. */
  function OrderAfter(kinds: seq<RowKind>, n: nat): seq<OrderEntry>
    requires n <= |kinds|
  {
    if n == 0 then [] else OrderAfter(kinds, n - 1) + EntryFor(kinds, n - 1)
  }

  /** The `control_data` entry row `i` stores: its type, a matrix entry's sample and test, and its mapped readings. */
  function ControlEntryFor(kinds: seq<RowKind>, views: seq<RowView>, labels: map<string, string>, i: nat): ControlEntry
    requires i < |kinds| && i < |views| && (kinds[i].Matrix? || kinds[i].Counted?)
  {
    var readings := views[i].readings;
    var stored := Overlay(map[], readings, ColumnsAfter(kinds, views, labels, i), ForControl, |readings|);
    match kinds[i]
    case Matrix(spike, t, s) => ControlEntry(MatrixType(spike), Some(s), Some(t), stored)
    case Counted(q) => ControlEntry(q, None, None, stored)
  }

  /** `control_data` after the first `n` rows: a QC row's entry replaces any earlier entry of that name. */
  function ControlAfter(kinds: seq<RowKind>, views: seq<RowView>, labels: map<string, string>, n: nat): map<string, ControlEntry>
    requires n <= |kinds| && n <= |views|
  {
    if n == 0 then map[]
    else
      var before := ControlAfter(kinds, views, labels, n - 1);
      if kinds[n - 1].Matrix? || kinds[n - 1].Counted? then
        before[QcName(kinds, n - 1) := ControlEntryFor(kinds, views, labels, n - 1)]
      else before
  }

  /** The regular readings after the first `n` rows: a regular row stores its mapped cells under its test's keys. */
  function RawAfter(kinds: seq<RowKind>, views: seq<RowView>, labels: map<string, string>, n: nat): map<string, real>
    requires n <= |kinds| && n <= |views|
  {
    if n == 0 then map[]
    else
      var before := RawAfter(kinds, views, labels, n - 1);
      if kinds[n - 1].Regular? then
        var readings := views[n - 1].readings;
        Overlay(before, readings, ColumnsAfter(kinds, views, labels, n - 1), ForTest(kinds[n - 1].testId), |readings|)
      else before
  }

  /** Every row of a file, as the row loop reads it. */
  function Views(ctx: Context, rows: seq<seq<string>>): (views: seq<RowView>)
    ensures |views| == |rows|
  {
    seq(|rows|, i requires 0 <= i < |rows| => View(ctx.format, ctx.qcTypes, rows[i]))
  }

  /** The worksheet the row loop builds from a file's rows. */
  function SheetOf(ctx: Context, rows: seq<seq<string>>): Sheet
    requires ctx.Valid()
  {
    var views := Views(ctx, rows);
    var kinds := Kinds(ctx, views);
    Sheet(OrderAfter(kinds, |rows|), ControlAfter(kinds, views, ctx.labels, |rows|), RawAfter(kinds, views, ctx.labels, |rows|))
  }

  // ---------------------------------------------------------------------------
  // What the row loop builds
  // ---------------------------------------------------------------------------

  /** Counted rows of one QC type are numbered 1, 2, 3, … in row order, so their names never repeat. */
  lemma {:induction false} CountKindGrows(kinds: seq<RowKind>, i: nat, j: nat, q: string)
    requires i < j <= |kinds| && kinds[i] == Counted(q)
    ensures CountKind(kinds, i, q) < CountKind(kinds, j, q)
    decreases j
  {
    if j - 1 > i {
      CountKindGrows(kinds, i, j - 1, q);
    }
  }

  /** Two rows counted as the same QC type get different names. */
  lemma CountedNamesDistinct(kinds: seq<RowKind>, i: nat, j: nat, q: string)
    requires i < j < |kinds| && kinds[i] == Counted(q) && kinds[j] == Counted(q)
    ensures QcName(kinds, i) != QcName(kinds, j)
  {
    CountKindGrows(kinds, i, j, q);
    var a := NatToString(CountKind(kinds, i, q) + 1);
    var b := NatToString(CountKind(kinds, j, q) + 1);
    if q + "_" + a == q + "_" + b {
      SplitAtLastUnderscore(q, a, q, b);
      DecimalValueOfNatToString(CountKind(kinds, i, q) + 1);
      DecimalValueOfNatToString(CountKind(kinds, j, q) + 1);
    }
  }

  /** Every `control_data` key is named in `testing_file_order`, and every named entry has its control entry. */
  lemma {:induction false} ControlKeysNamed(kinds: seq<RowKind>, views: seq<RowView>, labels: map<string, string>, n: nat, k: string)
    requires n <= |kinds| && n <= |views|
    ensures k in ControlAfter(kinds, views, labels, n) <==> NameEntry(k) in OrderAfter(kinds, n)
    decreases n
  {
    if n > 0 {
      ControlKeysNamed(kinds, views, labels, n - 1, k);
    }
  }

  /** Every stored reading belongs to a regular test that appears in `testing_file_order`. */
  lemma {:induction false} RawKeysOfOrderedTests(kinds: seq<RowKind>, views: seq<RowView>, labels: map<string, string>, n: nat, k: string)
    requires n <= |kinds| && n <= |views|
    requires k in RawAfter(kinds, views, labels, n)
    ensures exists a, t :: k == TestKey(a, t) && TestEntry(t) in OrderAfter(kinds, n)
    decreases n
  {
    if k in RawAfter(kinds, views, labels, n - 1) {
      RawKeysOfOrderedTests(kinds, views, labels, n - 1, k);
      var a, t :| k == TestKey(a, t) && TestEntry(t) in OrderAfter(kinds, n - 1);
      assert OrderAfter(kinds, n - 1) <= OrderAfter(kinds, n);
    } else {
      var t := kinds[n - 1].testId;
      var readings := views[n - 1].readings;
      var columns := ColumnsAfter(kinds, views, labels, n - 1);
      OverlayKeys(RawAfter(kinds, views, labels, n - 1), readings, columns, ForTest(t), |readings|, k);
      var i :| 0 <= i < |readings| && i in columns && columns[i] != "" && ReadingKey(ForTest(t), columns[i]) == k;
      assert OrderAfter(kinds, n)[|OrderAfter(kinds, n - 1)|] == TestEntry(t);
    }
  }

  /** Until a header row has been read no column is mapped. */
  lemma {:induction false} NoColumnsBeforeHeader(kinds: seq<RowKind>, views: seq<RowView>, labels: map<string, string>, n: nat)
    requires n <= |kinds| && n <= |views|
    requires forall i :: 0 <= i < n ==> !kinds[i].Header?
    ensures ColumnsAfter(kinds, views, labels, n) == map[]
    decreases n
  {
    if n > 0 {
      NoColumnsBeforeHeader(kinds, views, labels, n - 1);
    }
  }

  /** After the only header row has been read, the column map is exactly that header's. */
  lemma {:induction false} ColumnsAfterHeader(kinds: seq<RowKind>, views: seq<RowView>, labels: map<string, string>, n: nat, h: nat)
    requires h < n <= |kinds| && n <= |views| && kinds[h].Header?
    requires forall i :: 0 <= i < n && i != h ==> !kinds[i].Header?
    ensures ColumnsAfter(kinds, views, labels, n) == HeaderColumns(views[h].cells, labels)
    decreases n
  {
    if n - 1 == h {
      NoColumnsBeforeHeader(kinds, views, labels, n - 1);
      var hc := HeaderColumns(views[h].cells, labels);
      assert map[] + hc == hc;
    } else {
      ColumnsAfterHeader(kinds, views, labels, n - 1, h);
    }
  }

  /**
   * In a file, the rows before the header row go through the data path with
   * no mapped column (so they store no readings), and every later row sees
   * exactly the header's columns.
   */
  lemma FileColumns(ctx: Context, views: seq<RowView>, n: nat)
    requires ctx.Valid() && n <= |views|
    ensures n <= ctx.format.headerRow ==> ColumnsAfter(Kinds(ctx, views), views, ctx.labels, n) == map[]
    ensures ctx.format.headerRow < n ==>
      ColumnsAfter(Kinds(ctx, views), views, ctx.labels, n) == HeaderColumns(views[ctx.format.headerRow].cells, ctx.labels)
  {
    var kinds := Kinds(ctx, views);
    forall i | 0 <= i < |kinds|
      ensures kinds[i].Header? <==> i == ctx.format.headerRow
    {
      ClassifyHeader(ctx, views[i], i);
    }
    if n <= ctx.format.headerRow {
      NoColumnsBeforeHeader(kinds, views, ctx.labels, n);
    } else {
      ColumnsAfterHeader(kinds, views, ctx.labels, n, ctx.format.headerRow);
    }
  }

  /**
   * A regular row stores each mapped cell's reading under its analyte and
   * test, unless a later cell of the row maps to the same analyte; a later
   * row of the same test overwrites it, so the last row's values are kept.
   */
  lemma RegularReadingStored(kinds: seq<RowKind>, views: seq<RowView>, labels: map<string, string>, n: nat, i: nat)
    requires 0 < n <= |kinds| && n <= |views| && kinds[n - 1].Regular?
    requires var columns := ColumnsAfter(kinds, views, labels, n - 1);
      && i < |views[n - 1].readings| && i in columns && columns[i] != ""
      && forall j :: i < j < |views[n - 1].readings| && j in columns ==> columns[j] != columns[i]
    ensures var key := TestKey(ColumnsAfter(kinds, views, labels, n - 1)[i], kinds[n - 1].testId);
      key in RawAfter(kinds, views, labels, n) && RawAfter(kinds, views, labels, n)[key] == views[n - 1].readings[i]
  {
    var columns := ColumnsAfter(kinds, views, labels, n - 1);
    var readings := views[n - 1].readings;
    OverlayLastCell(RawAfter(kinds, views, labels, n - 1), readings, columns, ForTest(kinds[n - 1].testId), |readings|, i);
  }

  // ---------------------------------------------------------------------------
  // The loops
  // ---------------------------------------------------------------------------

  /** The header row's column loop: each cell whose trimmed text labels an analyte maps its position to it. */
  method MapHeader(columns: map<nat, string>, row: seq<string>, labels: map<string, string>) returns (r: map<nat, string>)
    ensures r == columns + HeaderColumns(TrimmedCells(row), labels)
  {
    hide Trim;
    ghost var cells := TrimmedCells(row);
    r := columns;
    var j := 0;
    while j < |row|
      invariant 0 <= j <= |row|
      invariant r == columns + HeaderPrefix(cells, labels, j)
    {
      var cell := Trim(row[j]);
      assert cell == cells[j];
      HeaderPrefixStep(columns, cells, labels, j);
      if cell in labels && labels[cell] != "" {
        r := r[j := labels[cell]];
      }
      j := j + 1;
    }
  }

  /** A data row's column loop: every cell at a mapped position stores `toFloat(col)` under its analyte's key. */
  method StoreReadings(m: map<string, real>, row: seq<string>, columns: map<nat, string>, scheme: KeyScheme) returns (r: map<string, real>)
    ensures r == Overlay(m, CellReadings(row), columns, scheme, |row|)
  {
    hide ToFloat;
    ghost var readings := CellReadings(row);
    r := m;
    var j := 0;
    while j < |row|
      invariant 0 <= j <= |row|
      invariant r == Overlay(m, readings, columns, scheme, j)
    {
      if j in columns && columns[j] != "" {
        r := r[ReadingKey(scheme, columns[j]) := ToFloat(row[j], 0.0)];
      }
      j := j + 1;
    }
  }

  /** One more row counted as `q` bumps its counter and no other. */
  lemma CountersStep(qcTypes: seq<string>, kinds: seq<RowKind>, i: nat, q: string)
    requires i < |kinds| && kinds[i] == Counted(q) && q in qcTypes
    ensures Counters(qcTypes, kinds, i + 1) == Counters(qcTypes, kinds, i)[q := CountKind(kinds, i, q) + 1]
  {
  }

  /** A row not counted as any QC type leaves every counter as it was. */
  lemma CountersKept(qcTypes: seq<string>, kinds: seq<RowKind>, i: nat)
    requires i < |kinds| && !kinds[i].Counted?
    ensures Counters(qcTypes, kinds, i + 1) == Counters(qcTypes, kinds, i)
  {
  }

  /** The loop's state before a row's classification is acted on. */
  datatype Progress = Progress(
    order: seq<OrderEntry>,
    control: map<string, ControlEntry>,
    raw: map<string, real>,
    columns: map<nat, string>,
    counters: map<string, nat>)

  /** The state the row loop has reached after the first `n` rows. */
  ghost predicate Reached(p: Progress, qcTypes: seq<string>, kinds: seq<RowKind>, views: seq<RowView>, labels: map<string, string>, n: nat)
  {
    && n <= |kinds| && n <= |views|
    && p.order == OrderAfter(kinds, n)
    && p.control == ControlAfter(kinds, views, labels, n)
    && p.raw == RawAfter(kinds, views, labels, n)
    && p.columns == ColumnsAfter(kinds, views, labels, n)
    && p.counters == Counters(qcTypes, kinds, n)
  }

  /** The header row extends the column map and changes nothing else. */
  lemma ReachedHeader(p: Progress, qcTypes: seq<string>, kinds: seq<RowKind>, views: seq<RowView>, labels: map<string, string>, i: nat)
    requires i < |kinds| && i < |views| && kinds[i].Header?
    requires Reached(p, qcTypes, kinds, views, labels, i)
    ensures Reached(p.(columns := p.columns + HeaderColumns(views[i].cells, labels)), qcTypes, kinds, views, labels, i + 1)
  {
    CountersKept(qcTypes, kinds, i);
  }

  /** A blank or unrecognized row changes nothing. */
  lemma ReachedSkipped(p: Progress, qcTypes: seq<string>, kinds: seq<RowKind>, views: seq<RowView>, labels: map<string, string>, i: nat)
    requires i < |kinds| && i < |views| && (kinds[i].Blank? || kinds[i].Unrecognized?)
    requires Reached(p, qcTypes, kinds, views, labels, i)
    ensures Reached(p, qcTypes, kinds, views, labels, i + 1)
  {
    CountersKept(qcTypes, kinds, i);
  }

  /** A regular row pushes its test id and stores its readings under its test's keys. */
  lemma ReachedRegular(p: Progress, qcTypes: seq<string>, kinds: seq<RowKind>, views: seq<RowView>, labels: map<string, string>, i: nat)
    requires i < |kinds| && i < |views| && kinds[i].Regular?
    requires Reached(p, qcTypes, kinds, views, labels, i)
    ensures var t := kinds[i].testId;
      var readings := views[i].readings;
      Reached(p.(order := p.order + [TestEntry(t)], raw := Overlay(p.raw, readings, p.columns, ForTest(t), |readings|)),
              qcTypes, kinds, views, labels, i + 1)
  {
    CountersKept(qcTypes, kinds, i);
  }

  /** A matrix QC row pushes its name and stores its control entry. */
  lemma ReachedMatrix(p: Progress, qcTypes: seq<string>, kinds: seq<RowKind>, views: seq<RowView>, labels: map<string, string>, i: nat)
    requires i < |kinds| && i < |views| && kinds[i].Matrix?
    requires Reached(p, qcTypes, kinds, views, labels, i)
    ensures var k := kinds[i];
      var name := MatrixName(k.spike, k.testId);
      var readings := views[i].readings;
      var entry := ControlEntry(MatrixType(k.spike), Some(k.sampleId), Some(k.testId), Overlay(map[], readings, p.columns, ForControl, |readings|));
      Reached(p.(order := p.order + [NameEntry(name)], control := p.control[name := entry]), qcTypes, kinds, views, labels, i + 1)
  {
    CountersKept(qcTypes, kinds, i);
  }

  /** A row counted as a configured QC type bumps its counter, pushes the numbered name and stores its control entry. */
  lemma ReachedCounted(p: Progress, qcTypes: seq<string>, kinds: seq<RowKind>, views: seq<RowView>, labels: map<string, string>, i: nat)
    requires i < |kinds| && i < |views| && kinds[i].Counted? && kinds[i].qcType in qcTypes
    requires Reached(p, qcTypes, kinds, views, labels, i)
    ensures kinds[i].qcType in p.counters
    ensures var q := kinds[i].qcType;
      var n := p.counters[q] + 1;
      var name := CountedName(q, n);
      var readings := views[i].readings;
      var entry := ControlEntry(q, None, None, Overlay(map[], readings, p.columns, ForControl, |readings|));
      Reached(p.(order := p.order + [NameEntry(name)], control := p.control[name := entry], counters := p.counters[q := n]),
              qcTypes, kinds, views, labels, i + 1)
  {
    CountersStep(qcTypes, kinds, i, kinds[i].qcType);
  }

  /**
   * One iteration of the row loop, for a row already classified: map the
   * header, push a regular sample's test id and store its readings, or push
   * a QC entry's name and store its control entry.
   */
  method ApplyRow(p: Progress, kind: RowKind, row: seq<string>, labels: map<string, string>,
                  ghost qcTypes: seq<string>, ghost kinds: seq<RowKind>, ghost views: seq<RowView>, ghost i: nat)
    returns (q: Progress)
    requires i < |kinds| && i < |views| && kinds[i] == kind
    requires views[i].cells == TrimmedCells(row) && views[i].readings == CellReadings(row)
    requires kind.Counted? ==> kind.qcType in qcTypes
    requires Reached(p, qcTypes, kinds, views, labels, i)
    ensures Reached(q, qcTypes, kinds, views, labels, i + 1)
  {
    match kind {
      case Header =>
        ReachedHeader(p, qcTypes, kinds, views, labels, i);
        var columns := MapHeader(p.columns, row, labels);
        q := p.(columns := columns);
      case Regular(t) =>
        ReachedRegular(p, qcTypes, kinds, views, labels, i);
        var raw := StoreReadings(p.raw, row, p.columns, ForTest(t));
        q := p.(order := p.order + [TestEntry(t)], raw := raw);
      case Matrix(spike, t, s) =>
        ReachedMatrix(p, qcTypes, kinds, views, labels, i);
        var name := MatrixName(spike, t);
        var stored := StoreReadings(map[], row, p.columns, ForControl);
        q := p.(order := p.order + [NameEntry(name)],
                control := p.control[name := ControlEntry(MatrixType(spike), Some(s), Some(t), stored)]);
      case Counted(qc) =>
        ReachedCounted(p, qcTypes, kinds, views, labels, i);
        var n := p.counters[qc] + 1;
        var name := CountedName(qc, n);
        var stored := StoreReadings(map[], row, p.columns, ForControl);
        q := p.(order := p.order + [NameEntry(name)],
                control := p.control[name := ControlEntry(qc, None, None, stored)],
                counters := p.counters[qc := n]);
      case Blank =>
        ReachedSkipped(p, qcTypes, kinds, views, labels, i);
        q := p;
      case Unrecognized =>
        ReachedSkipped(p, qcTypes, kinds, views, labels, i);
        q := p;
    }
  }

  /** The loop starts from an empty sheet, no mapped column and every counter at zero. */
  lemma ReachedStart(qcTypes: seq<string>, kinds: seq<RowKind>, views: seq<RowView>, labels: map<string, string>)
    ensures Reached(Progress([], map[], map[], map[], InitialCounters(qcTypes)), qcTypes, kinds, views, labels, 0)
  {
  }

  /** What the loop reads from row `i` is that row's view and classification. */
  lemma RowAt(ctx: Context, rows: seq<seq<string>>, i: nat)
    requires ctx.Valid() && i < |rows|
    ensures var v := View(ctx.format, ctx.qcTypes, rows[i]);
      && Views(ctx, rows)[i] == v
      && Kinds(ctx, Views(ctx, rows))[i] == Classify(ctx, v, i)
      && v.cells == TrimmedCells(rows[i]) && v.readings == CellReadings(rows[i])
  {
  }

  /** A counted row's QC type is one of the configured types. */
  lemma CountedIsConfigured(ctx: Context, v: RowView, i: nat)
    requires ctx.Valid() && Classify(ctx, v, i).Counted?
    ensures Classify(ctx, v, i).qcType in ctx.qcTypes
  {
  }

  /** Once every row has been read, the loop's sheet is the file's worksheet. */
  lemma ReachedEnd(ctx: Context, rows: seq<seq<string>>, p: Progress)
    requires ctx.Valid()
    requires Reached(p, ctx.qcTypes, Kinds(ctx, Views(ctx, rows)), Views(ctx, rows), ctx.labels, |rows|)
    ensures Sheet(p.order, p.control, p.raw) == SheetOf(ctx, rows)
  {
  }

  /** The row loop of a file, row by row in file order. */
  method ProcessRows(ctx: Context, rows: seq<seq<string>>) returns (sheet: Sheet)
    requires ctx.Valid()
    ensures sheet == SheetOf(ctx, rows)
  {
    ghost var views := Views(ctx, rows);
    ghost var kinds := Kinds(ctx, views);
    var p := Progress([], map[], map[], map[], InitialCounters(ctx.qcTypes));
    ReachedStart(ctx.qcTypes, kinds, views, ctx.labels);
    var i := 0;
    while i < |rows|
      invariant 0 <= i <= |rows|
      invariant Reached(p, ctx.qcTypes, kinds, views, ctx.labels, i)
    {
      var v := View(ctx.format, ctx.qcTypes, rows[i]);
      var kind := Classify(ctx, v, i);
      RowAt(ctx, rows, i);
      if kind.Counted? {
        CountedIsConfigured(ctx, v, i);
      }
      p := ApplyRow(p, kind, rows[i], ctx.labels, ctx.qcTypes, kinds, views, i);
      i := i + 1;
    }
    ReachedEnd(ctx, rows, p);
    sheet := Sheet(p.order, p.control, p.raw);
  }
}
