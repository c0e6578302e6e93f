/**
 * Sorting of the worksheet's summary and statistics tables: the per-table,
 * per-column sort direction that a header click toggles, the sort key a
 * cell's text is classified into, and the sign of the row comparator.
 *
 * The DOM (headers, their CSS classes, the rows being re-appended) is left
 * out; a table's headers are represented by their count.
 */
module UiManager {
  import opened Wrappers
  import opened JsString
  import opened JsNumber

  // ---------------------------------------------------------------------------
  // Sort direction state
  // ---------------------------------------------------------------------------

  /** The recorded direction of one column: `'none'`, `'asc'` or `'desc'`. */
  datatype Direction = Off | Asc | Desc

  /** One table's recorded directions, by column index. */
  type TableState = map<int, Direction>

  /** The direction a click gives a column: unset, `'none'` and `'desc'` go to `'asc'`, `'asc'` goes to `'desc'`. */
  function Toggle(d: Option<Direction>): (r: Direction)
    ensures r != Off
  {
    if d.None? || d.value == Off || d.value == Desc then Asc else Desc
  }

  /** Clicking a column twice in a row gives it the other direction the second time. */
  lemma ToggleAlternates(d: Option<Direction>)
    ensures Toggle(Some(Toggle(d))) != Toggle(d)
    ensures Toggle(Some(Toggle(Some(Toggle(d))))) == Toggle(d)
  {
  }

  function Lookup(t: TableState, col: int): Option<Direction> {
    if col in t then Some(t[col]) else None
  }

  /** `t` with every recorded column in `0..i`, other than `col`, reset to `'none'`. */
  function ResetBelow(t: TableState, col: int, i: int): (r: TableState)
    ensures r.Keys == t.Keys
  {
    map k | k in t :: if k != col && 0 <= k < i then Off else t[k]
  }

  /**
   * One table's state after its column `col` of `n` is clicked: `col` gets
   * the toggled direction, every other recorded column among the `n`
   * headers is reset to `'none'`, and nothing else changes.
   */
  function Clicked(t: TableState, col: int, n: nat): (r: TableState)
    ensures r.Keys == t.Keys + {col}
    ensures r[col] == Toggle(Lookup(t, col))
    ensures forall k :: k in t && k != col && 0 <= k < n ==> r[k] == Off
    ensures forall k :: k in t && k != col && !(0 <= k < n) ==> r[k] == t[k]
  {
    ResetBelow(t[col := Toggle(Lookup(t, col))], col, n)
  }

  /** After a click exactly one of the table's columns carries a direction: the clicked one. */
  lemma ClickedHasOneActiveColumn(t: TableState, col: int, n: nat, k: int)
    requires 0 <= col < n && 0 <= k < n && k in Clicked(t, col, n)
    ensures Clicked(t, col, n)[k] != Off <==> k == col
  {
  }

  /** Clicking the same column again reverses its direction. */
  lemma ClickTwiceReverses(t: TableState, col: int, n: nat)
    ensures Clicked(Clicked(t, col, n), col, n)[col] != Clicked(t, col, n)[col]
  {
    ToggleAlternates(Lookup(t, col));
  }

  /** A column clicked after a different column always starts ascending. */
  lemma OtherColumnStartsAscending(t: TableState, c: int, d: int, n: nat)
    requires 0 <= c < n && 0 <= d < n && c != d
    ensures Clicked(Clicked(t, c, n), d, n)[d] == Asc
  {
    var once := Clicked(t, c, n);
    assert Lookup(once, d).None? || Lookup(once, d) == Some(Off);
  }

  /** A repeated click on the same column settles the other columns: they stay as the first click left them. */
  lemma ClickKeepsOthersSettled(t: TableState, col: int, n: nat)
    ensures var once := Clicked(t, col, n);
            forall k :: k in once && k != col ==> Clicked(once, col, n)[k] == once[k]
  {
  }

  /** `this.sortStates` and the operation that updates it. */
  class SortStates {
    var states: map<string, TableState>

    /** `initializeSorting` starts with no recorded directions. */
    constructor()
      ensures states == map[]
    {
      states := map[];
    }

    function TableOf(tableId: string): TableState
      reads this
    {
      if tableId in states then states[tableId] else map[]
    }

    /**
     * `sortTable` for column `columnIndex` of the table `tableId` whose
     * header row has `headerCount` headers; returns whether the rows are
     * then sorted ascending.
     */
    method SortTable(columnIndex: nat, tableId: string, headerCount: nat) returns (ascending: bool)
      requires columnIndex < headerCount
      modifies this
      ensures states == old(states)[tableId := Clicked(old(TableOf(tableId)), columnIndex, headerCount)]
      ensures ascending <==> states[tableId][columnIndex] == Asc
    {
      if tableId !in states {
        states := states[tableId := map[]];
      }
      // `table` is the per-table object `this.sortStates[tableId]` that the steps below update.
      var table := states[tableId];
      if columnIndex !in table {
        table := table[columnIndex := Off];
      }
      var current := table[columnIndex];
      var newDirection := if current == Off || current == Desc then Asc else Desc;
      table := table[columnIndex := newDirection];
      ghost var toggled := old(TableOf(tableId))[columnIndex := newDirection];
      assert newDirection == Toggle(Lookup(old(TableOf(tableId)), columnIndex));
      assert table == ResetBelow(toggled, columnIndex, 0);
      var i := 0;
      while i < headerCount
        invariant 0 <= i <= headerCount
        invariant table == ResetBelow(toggled, columnIndex, i)
      {
        if i != columnIndex && i in table {
          table := table[i := Off];
        }
        i := i + 1;
      }
      states := states[tableId := table];
      ascending := newDirection == Asc;
    }
  }

  // ---------------------------------------------------------------------------
  // Sort keys
  // ---------------------------------------------------------------------------

  datatype Kind = Empty | Special | Numeric | Status | Text

  /** A sort key's `sortOrder`: a number, or (for plain text) a lower-cased string. */
  datatype Order = ByNumber(n: Number) | ByText(s: string)

  /** A sort key's `value`. */
  datatype Shown = ShownText(t: string) | ShownNumber(x: Number)

  datatype SortValue = SortValue(kind: Kind, value: Shown, order: Order)

  /** Number subtraction on NaN, finite values and the infinities. */
  function Sub(a: Number, b: Number): Number {
    match (a, b)
    case (Finite(x), Finite(y)) => Finite(x - y)
    case (Infinite(n), Finite(_)) => Infinite(n)
    case (Finite(_), Infinite(n)) => Infinite(!n)
    case (Infinite(m), Infinite(n)) => if m == n then NaN else Infinite(m)
    case _ => NaN
  }

  /** Unary minus (signed zero is not modelled). */
  function Negate(a: Number): (r: Number)
    ensures r.NaN? <==> a.NaN?
  {
    match a
    case Finite(x) => Finite(-x)
    case Infinite(n) => Infinite(!n)
    case NaN => NaN
  }

  /** Negating twice gives the number back. */
  lemma NegateInvolutive(a: Number)
    ensures Negate(Negate(a)) == a
  {
  }

  /** Swapping the operands of a subtraction negates it. */
  lemma SubAntisymmetric(a: Number, b: Number)
    ensures Sub(a, b) == Negate(Sub(b, a))
  {
  }

  /** The status marks stripped before a Pass/Fail comparison: check, cross, warning sign and en dash. */
  predicate IsMark(c: char) {
    c == '\U{2713}' || c == '\U{2717}' || c == '\U{26A0}' || c == '\U{2013}'
  }

  /** `text.replace(/[✓✗⚠–]/g, '')`. */
  function RemoveMarks(s: string): (r: string)
    ensures |r| <= |s|
    ensures forall i :: 0 <= i < |r| ==> !IsMark(r[i])
    ensures (forall i :: 0 <= i < |s| ==> !IsMark(s[i])) ==> r == s
  {
    if s == [] then []
    else
      var rest := RemoveMarks(s[..|s| - 1]);
      if IsMark(s[|s| - 1]) then rest else rest + [s[|s| - 1]]
  }

  predicate Placeholder(text: string) {
    text == "" || text == "-" || text == "NT"
  }

  predicate BelowLimit(text: string) {
    StartsWith(text, "<") || Includes(text, "LOQ")
  }

  /** `getSortValue`: the cell text, trimmed, classified by the first rule that applies. */
  function SortValueOf(cell: string): (v: SortValue)
    ensures v.order.ByText? <==> v.kind == Text
    ensures v.kind == Text ==> v.order == ByText(ToLower(Trim(cell)))
  {
    var text := Trim(cell);
    if Placeholder(text) then SortValue(Empty, ShownText(text), ByNumber(Finite(9999.0)))
    else if text == "ND" then SortValue(Special, ShownText(text), ByNumber(Finite(-9999.0)))
    else if BelowLimit(text) then
      var run := FirstDigitDotRun(text);
      var numValue := if run.Some? then ParseFloat(run.value) else Finite(0.0);
      SortValue(Special, ShownText(text), ByNumber(Sub(numValue, Finite(0.001))))
    else if EndsWith(text, "%") then
      var numValue := ParseFloat(ReplaceFirst(text, "%", ""));
      SortValue(Numeric, ShownNumber(if numValue.NaN? then Finite(0.0) else numValue), ByNumber(numValue))
    else if !ParseFloat(text).NaN? then
      SortValue(Numeric, ShownNumber(ParseFloat(text)), ByNumber(ParseFloat(text)))
    else
      var clean := Trim(RemoveMarks(text));
      if clean == "Pass" then SortValue(Status, ShownText(clean), ByNumber(Finite(1.0)))
      else if clean == "Fail" then SortValue(Status, ShownText(clean), ByNumber(Finite(2.0)))
      else SortValue(Text, ShownText(text), ByText(ToLower(text)))
  }

  /** Empty cells sort last ascending and `ND` first, whatever else the text might parse as. */
  lemma PlaceholdersRankFixed(cell: string)
    ensures Placeholder(Trim(cell)) ==> SortValueOf(cell).order == ByNumber(Finite(9999.0))
    ensures Trim(cell) == "ND" ==> SortValueOf(cell).order == ByNumber(Finite(-9999.0))
    ensures SortValueOf(cell).kind == Empty <==> Placeholder(Trim(cell))
  {
    hide ToLower;
    hide RemoveMarks;
    hide FirstDigitDotRun;
    hide ParseFloat;
    hide ReplaceFirst;
    hide Trim;
    hide StartsWith;
    hide EndsWith;
    hide Includes;
    if !Placeholder(Trim(cell)) {
      assert SortValueOf(cell).kind != Empty;
    }
  }

  /** A status key is given only to text that no earlier rule matched, and ranks Pass before Fail. */
  lemma StatusComesLast(cell: string)
    requires SortValueOf(cell).kind == Status
    ensures var text := Trim(cell);
            && !Placeholder(text) && text != "ND" && !BelowLimit(text)
            && !EndsWith(text, "%") && ParseFloat(text).NaN?
    ensures SortValueOf(cell).order == ByNumber(Finite(1.0)) <==> Trim(RemoveMarks(Trim(cell))) == "Pass"
    ensures SortValueOf(cell).order == ByNumber(Finite(2.0)) <==> Trim(RemoveMarks(Trim(cell))) == "Fail"
  {
  }

  /** Marks around a status word are ignored: a cell reading "Pass" after stripping them ranks 1, "Fail" ranks 2. */
  lemma StatusFromMarkedText(cell: string)
    requires var text := Trim(cell);
             && !Placeholder(text) && text != "ND" && !BelowLimit(text)
             && !EndsWith(text, "%") && ParseFloat(text).NaN?
    requires Trim(RemoveMarks(Trim(cell))) in {"Pass", "Fail"}
    ensures SortValueOf(cell).kind == Status
    ensures SortValueOf(cell).order.n.Finite? && SortValueOf(cell).order.n.value in {1.0, 2.0}
  {
  }

  /**
   * Text sorts by its lower-cased form exactly when it fails every other
   * rule: no placeholder, not ND, not under a limit, no percentage, not a
   * number, and not Pass or Fail once the marks are stripped.
   */
  lemma TextSortsLowercased(cell: string)
    ensures var text := Trim(cell);
            SortValueOf(cell).kind == Text <==>
              && !Placeholder(text) && text != "ND" && !BelowLimit(text)
              && !EndsWith(text, "%") && ParseFloat(text).NaN?
              && Trim(RemoveMarks(text)) != "Pass" && Trim(RemoveMarks(text)) != "Fail"
    ensures SortValueOf(cell).kind == Text ==> SortValueOf(cell).order == ByText(ToLower(Trim(cell)))
  {
  }

  /**
   * A percentage that no earlier rule claims sorts by `parseFloat` of the
   * text without its first "%", and shows that number, or 0 when it is NaN.
   */
  lemma PercentKey(cell: string)
    requires var text := Trim(cell); !Placeholder(text) && text != "ND" && !BelowLimit(text) && EndsWith(text, "%")
    ensures var n := ParseFloat(ReplaceFirst(Trim(cell), "%", ""));
            SortValueOf(cell) == SortValue(Numeric, ShownNumber(if n.NaN? then Finite(0.0) else n), ByNumber(n))
  {
  }

  /** A rendered natural number followed by "%" sorts by the number. */
  lemma PercentOrder(n: nat)
    ensures SortValueOf(NatToString(n) + "%").order == ByNumber(Finite(n as real))
  {
    var d := NatToString(n);
    assert IntToString(n) == d;
    ParseFloatOfIntToString(n);
    PercentPassesEarlierRules(d);
    PercentReplaced(d);
    PercentKey(d + "%");
  }

  /** Digits and a "%" are trimmed already and pass the placeholder, ND and below-limit rules to the percent rule. */
  lemma PercentPassesEarlierRules(d: string)
    requires d != [] && AllDigits(d)
    ensures var c := d + "%";
            Trim(c) == c && !Placeholder(c) && c != "ND" && !BelowLimit(c) && EndsWith(c, "%")
  {
    var c := d + "%";
    assert c[0] == d[0] && c[|c| - 1] == '%';
    TrimOfTrimmed(c);
    assert c[0] != '<' && c[0] != '-' && c[0] != 'N';
    assert !StartsWith(c, "<");
    forall j: nat | j <= |c|
      ensures !OccursAt(c, "LOQ", j)
    {
      if j + 3 <= |c| {
        assert c[j..j + 3][0] == c[j];
        assert j < |d| && c[j] == d[j];
      }
    }
    assert EndsWith(c, "%") by { assert c[|c| - 1..] == "%"; }
  }

  /** Removing the first "%" from digits and a "%" leaves the digits. */
  lemma PercentReplaced(d: string)
    requires AllDigits(d)
    ensures ReplaceFirst(d + "%", "%", "") == d
  {
    var c := d + "%";
    forall j: nat | j < |d|
      ensures !OccursAt(c, "%", j)
    {
      assert c[j..j + 1][0] == d[j];
    }
    assert OccursAt(c, "%", |d|);
    IndexOfFirst(c, "%", |d|);
    assert c[..|d|] + "" + c[|d| + 1..] == d;
  }

  /** Text marked as under a limit sorts by the first number in it, less 0.001 (0 when it has none). */
  lemma BelowLimitKey(cell: string)
    requires var text := Trim(cell); !Placeholder(text) && text != "ND" && BelowLimit(text)
    ensures var run := FirstDigitDotRun(Trim(cell));
            SortValueOf(cell).order == ByNumber(Sub(if run.Some? then ParseFloat(run.value) else Finite(0.0), Finite(0.001)))
  {
  }

  /** Text that passes no earlier rule and that `parseFloat` reads sorts by that number. */
  lemma NumericKey(cell: string)
    requires var text := Trim(cell);
             && !Placeholder(text) && text != "ND" && !BelowLimit(text)
             && !EndsWith(text, "%") && !ParseFloat(text).NaN?
    ensures SortValueOf(cell) == SortValue(Numeric, ShownNumber(ParseFloat(Trim(cell))), ByNumber(ParseFloat(Trim(cell))))
  {
  }

  /** A rendered natural number has none of the markers that the earlier rules look for. */
  lemma DigitsPassNoEarlierRule(d: string)
    requires d != [] && AllDigits(d)
    ensures Trim(d) == d
    ensures !Placeholder(d) && d != "ND" && !BelowLimit(d) && !EndsWith(d, "%")
  {
    TrimOfTrimmed(d);
    assert d[0] != '<' && d[0] != '-' && d[0] != 'N';
    forall j: nat | j <= |d|
      ensures !OccursAt(d, "LOQ", j)
    {
      if j + 3 <= |d| {
        assert d[j..j + 3][0] == d[j];
      }
    }
    assert d[|d| - 1] != '%';
  }

  /** The number `/[\d.]+/` finds in `<digits` is the digits. */
  lemma LimitRun(d: string)
    requires d != [] && AllDigits(d)
    ensures Trim("<" + d) == "<" + d
    ensures FirstDigitDotRun("<" + d) == Some(d)
  {
    var s := "<" + d;
    TrimOfTrimmed(s);
    assert s[1..] == d;
    LeadingRunOfDigits(d);
  }

  /** A number under a limit (`<5`) sorts just below the number itself. */
  lemma BelowLimitOrder(n: nat)
    ensures SortValueOf("<" + NatToString(n)).order == ByNumber(Finite(n as real - 0.001))
  {
    var d := NatToString(n);
    var c := "<" + d;
    assert IntToString(n) == d;
    ParseFloatOfIntToString(n);
    LimitRun(d);
    assert c[0] == '<' && |c| >= 2;
    assert StartsWith(c, "<") by { assert c[..1] == "<"; }
    assert c != "ND" && c != "NT" by { assert "ND"[0] != c[0] && "NT"[0] != c[0]; }
    BelowLimitKey(c);
    assert Sub(Finite(n as real), Finite(0.001)) == Finite(n as real - 0.001);
  }

  /** A rendered natural number sorts by its value. */
  lemma NumberOrder(n: nat)
    ensures SortValueOf(NatToString(n)).order == ByNumber(Finite(n as real))
  {
    var d := NatToString(n);
    assert IntToString(n) == d;
    ParseFloatOfIntToString(n);
    DigitsPassNoEarlierRule(d);
    NumericKey(d);
  }

  /** A text of digits is its own leading digit-and-dot run. */
  lemma {:induction false} LeadingRunOfDigits(d: string)
    requires AllDigits(d)
    ensures LeadingDigitDotRun(d) == d
  {
    if d != [] {
      LeadingRunOfDigits(d[1..]);
      assert [d[0]] + d[1..] == d;
    }
  }

  // ---------------------------------------------------------------------------
  // Comparator
  // ---------------------------------------------------------------------------

  /** `a - b` with a string operand: the string goes through `Number`. */
  function AsNumber(o: Order): Number {
    match o
    case ByNumber(n) => n
    case ByText(s) => NumberOf(s)
  }

  /**
   * The comparator `performTableSort` hands to the host sort: missing cells
   * tie, two text keys go through the locale comparison `locale`, anything
   * else is the difference of the keys; descending negates the result.
   */
  function Compare(a: Option<string>, b: Option<string>, ascending: bool, locale: (string, string) -> int): (c: Number)
    ensures a.None? || b.None? ==> c == Finite(0.0)
  {
    if a.None? || b.None? then Finite(0.0)
    else
      var va := SortValueOf(a.value);
      var vb := SortValueOf(b.value);
      var comparison :=
        if va.order.ByText? && vb.order.ByText? then Finite(locale(va.order.s, vb.order.s) as real)
        else Sub(AsNumber(va.order), AsNumber(vb.order));
      if ascending then comparison else Negate(comparison)
  }

  /** Descending order is ascending order with every comparison's sign flipped. */
  lemma DescendingNegates(a: Option<string>, b: Option<string>, locale: (string, string) -> int)
    ensures Compare(a, b, false, locale) == Negate(Compare(a, b, true, locale))
  {
  }

  /** Unless both keys are text, swapping the two cells negates the comparison. */
  lemma CompareAntisymmetric(a: string, b: string, ascending: bool, locale: (string, string) -> int)
    requires !(SortValueOf(a).order.ByText? && SortValueOf(b).order.ByText?)
    ensures Compare(Some(a), Some(b), ascending, locale) == Negate(Compare(Some(b), Some(a), ascending, locale))
  {
    SubAntisymmetric(AsNumber(SortValueOf(a).order), AsNumber(SortValueOf(b).order));
  }

  /** Two finite numeric keys compare, ascending, by their difference. */
  lemma CompareNumbers(a: string, b: string, x: real, y: real, locale: (string, string) -> int)
    requires SortValueOf(a).order == ByNumber(Finite(x)) && SortValueOf(b).order == ByNumber(Finite(y))
    ensures Compare(Some(a), Some(b), true, locale) == Finite(x - y)
  {
    hide SortValueOf;
  }

  /** Sorted ascending, `<n` comes before `n`. */
  lemma BelowLimitComparesUnder(n: nat, locale: (string, string) -> int)
    ensures Compare(Some("<" + NatToString(n)), Some(NatToString(n)), true, locale) == Finite(-0.001)
  {
    BelowLimitOrder(n);
    NumberOrder(n);
    CompareNumbers("<" + NatToString(n), NatToString(n), n as real - 0.001, n as real, locale);
  }

  /** Sorted descending, `<n` comes after `n`. */
  lemma BelowLimitComparesOverDescending(n: nat, locale: (string, string) -> int)
    ensures Compare(Some("<" + NatToString(n)), Some(NatToString(n)), false, locale) == Finite(0.001)
  {
    BelowLimitComparesUnder(n, locale);
    DescendingNegates(Some("<" + NatToString(n)), Some(NatToString(n)), locale);
  }

  /** Sorted ascending, a Pass status comes before a Fail status. */
  lemma PassBeforeFail(a: string, b: string, locale: (string, string) -> int)
    requires SortValueOf(a).kind == Status && Trim(RemoveMarks(Trim(a))) == "Pass"
    requires SortValueOf(b).kind == Status && Trim(RemoveMarks(Trim(b))) == "Fail"
    ensures Compare(Some(a), Some(b), true, locale) == Finite(-1.0)
  {
    StatusComesLast(a);
    StatusComesLast(b);
    CompareNumbers(a, b, 1.0, 2.0, locale);
  }
}
