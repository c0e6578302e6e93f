/**
 * The worksheet's output-unit selection: the list of units results are shown
 * in (`selectedOutputUnits`) and the unit the display selector shows
 * (`currentDisplayUnit`). Checking a unit's box adds it; unchecking removes it
 * unless it is the last one. Units also name DOM element ids, through
 * `escapeUnitForId`.
 */
module MultiUnitSupport {
  import opened Wrappers
  import opened JsString

  predicate NoDuplicates(xs: seq<string>) {
    forall i, j :: 0 <= i < j < |xs| ==> xs[i] != xs[j]
  }

  // ---------------------------------------------------------------------------
  // The selection
  // ---------------------------------------------------------------------------

  /** `addOutputUnit`: appends the unit unless it is already selected. */
  function Added(units: seq<string>, u: string): (r: seq<string>)
    ensures u in r
    ensures forall x :: x in r <==> x in units || x == u
    ensures u in units ==> r == units
    ensures u !in units ==> r == units + [u]
  {
    if u in units then units else units + [u]
  }

  /** `indexOf`: the first position holding `u`. */
  function FirstIndex(units: seq<string>, u: string): (r: Option<nat>)
    ensures r.Some? ==> r.value < |units| && units[r.value] == u && u !in units[..r.value]
    ensures r.None? <==> u !in units
  {
    if units == [] then None
    else if units[0] == u then Some(0)
    else match FirstIndex(units[1..], u)
      case None => None
      case Some(i) =>
        assert units[..i + 1] == [units[0]] + units[1..][..i];
        Some(i + 1)
  }

  /**
   * `removeOutputUnit`: refused (None) while at most one unit is selected or
   * when the unit is not selected; otherwise the list without the unit's
   * first occurrence.
   */
  function Removal(units: seq<string>, u: string): (r: Option<seq<string>>)
    ensures r.None? <==> |units| <= 1 || u !in units
    ensures r.Some? ==> |r.value| == |units| - 1 >= 1
    ensures r.Some? ==> multiset(r.value) == multiset(units) - multiset{u}
  {
    if |units| <= 1 then None
    else match FirstIndex(units, u)
      case None => None
      case Some(i) =>
        assert units == units[..i] + [units[i]] + units[i + 1..];
        Some(units[..i] + units[i + 1..])
  }

  /** Adding twice is adding once. */
  lemma AddIdempotent(units: seq<string>, u: string)
    ensures Added(Added(units, u), u) == Added(units, u)
  {
  }

  /** Adding never creates a duplicate. */
  lemma AddKeepsNoDuplicates(units: seq<string>, u: string)
    requires NoDuplicates(units)
    ensures NoDuplicates(Added(units, u))
  {
  }

  /** Removing never creates a duplicate, and the order of the other units is kept. */
  lemma RemovalKeepsOrder(units: seq<string>, u: string)
    requires Removal(units, u).Some?
    ensures var i := FirstIndex(units, u).value;
      Removal(units, u).value == units[..i] + units[i + 1..]
    ensures NoDuplicates(units) ==> NoDuplicates(Removal(units, u).value)
  {
    var i := FirstIndex(units, u).value;
    var r := Removal(units, u).value;
    if NoDuplicates(units) {
      forall a, b | 0 <= a < b < |r| ensures r[a] != r[b] {
        var a' := if a < i then a else a + 1;
        var b' := if b < i then b else b + 1;
        assert r[a] == units[a'] && r[b] == units[b'];
      }
    }
  }

  /** A duplicate-free selection loses the unit altogether, and keeps every other unit. */
  lemma RemovalDropsUnit(units: seq<string>, u: string)
    requires NoDuplicates(units) && Removal(units, u).Some?
    ensures forall x :: x in Removal(units, u).value <==> x in units && x != u
  {
    var r := Removal(units, u).value;
    forall x ensures x in r <==> x in units && x != u {
      assert x in r <==> x in multiset(r);
      assert x in units <==> x in multiset(units);
      if x == u {
        assert multiset(units)[u] == 1 by {
          MultiplicityOne(units, u);
        }
      }
    }
  }

  lemma {:induction false} MultiplicityOne(units: seq<string>, u: string)
    requires NoDuplicates(units) && u in units
    ensures multiset(units)[u] == 1
    decreases |units|
  {
    var last := units[|units| - 1];
    var init := units[..|units| - 1];
    assert units == init + [last];
    if u == last {
      assert u !in init;
      assert multiset(init)[u] == 0;
    } else {
      MultiplicityOne(init, u);
    }
  }

  /** Adding a new unit and then unchecking it gives back the selection it started from. */
  lemma AddThenRemove(units: seq<string>, u: string)
    requires units != [] && u !in units
    ensures Removal(Added(units, u), u) == Some(units)
  {
    var r := units + [u];
    assert FirstIndex(r, u) == Some(|units|) by {
      FirstIndexOfLast(units, u);
    }
    assert r[..|units|] + r[|units| + 1..] == units;
  }

  lemma {:induction false} FirstIndexOfLast(units: seq<string>, u: string)
    requires u !in units
    ensures FirstIndex(units + [u], u) == Some(|units|)
    decreases |units|
  {
    if units != [] {
      FirstIndexOfLast(units[1..], u);
      assert (units + [u])[1..] == units[1..] + [u];
    }
  }

  /**
   * `handleUnitCheckboxChange` on the list: checking adds; unchecking
   * removes, or is refused (None) and the handler returns early.
   */
  function CheckboxChange(units: seq<string>, u: string, checked: bool): Option<seq<string>> {
    if checked then Some(Added(units, u)) else Removal(units, u)
  }

  /** No checkbox change empties a non-empty selection; a checked box is selected afterwards. */
  lemma SelectionNeverEmpties(units: seq<string>, u: string, checked: bool)
    requires units != []
    ensures var r := CheckboxChange(units, u, checked);
      && (r.Some? ==> r.value != [])
      && (checked ==> r.Some? && u in r.value)
      && (r.None? ==> !checked)
  {
  }

  /** `updateDisplayUnitSelector`'s fallback: keep a still-selected display unit, else the first selected one. */
  function FallbackDisplay(units: seq<string>, display: Option<string>): (r: Option<string>)
    ensures units != [] ==> r.Some? && r.value in units
    ensures display.Some? && display.value in units ==> r == display
  {
    if display.Some? && display.value in units then display
    else if units == [] then None
    else Some(units[0])
  }

  /** `allowedUnits[0] || 'ppb'`. */
  function InitialDisplay(allowed: seq<string>): (r: string)
    ensures r != ""
    ensures allowed != [] && allowed[0] != "" ==> r == allowed[0]
  {
    if allowed != [] && allowed[0] != "" then allowed[0] else "ppb"
  }

  // ---------------------------------------------------------------------------
  // The element-id escape
  // ---------------------------------------------------------------------------

  /** The characters `[a-zA-Z0-9\-_]` the escape leaves alone. */
  predicate IdChar(c: char) {
    ('a' <= c <= 'z') || ('A' <= c <= 'Z') || ('0' <= c <= '9') || c == '-' || c == '_'
  }

  predicate IdText(s: string) {
    forall i :: 0 <= i < |s| ==> IdChar(s[i])
  }

  /** The UTF-16 code units of a character: a surrogate pair outside the basic plane. */
  function CodeUnits(c: char): (r: seq<nat>)
    ensures 1 <= |r| <= 2
  {
    if c as int < 0x1_0000 then [c as int]
    else [0xD800 + (c as int - 0x1_0000) / 0x400, 0xDC00 + (c as int - 0x1_0000) % 0x400]
  }

  /** `'x' + unit.toString(16)` for each code unit. */
  function HexUnits(units: seq<nat>): (s: string)
    ensures IdText(s)
  {
    if units == [] then [] else "x" + NatToHex(units[0]) + HexUnits(units[1..])
  }

  /** The regex callback for one character: the character map, else `x` and its hex code. */
  function EscapeChar(c: char): (s: string)
    requires !IdChar(c)
  {
    if c == '/' then "_per_"
    else if c == '%' then "_percent_"
    else if c == ' ' then "_"
    else if c == '.' then "_dot_"
    else HexUnits(CodeUnits(c))
  }

  /**
   * `escapeUnitForId`: every character outside `[a-zA-Z0-9\-_]` replaced
   * (the pattern has no `u` flag, so a character outside the basic plane is
   * matched as two code units, each replaced on its own).
   */
  function EscapeUnitForId(s: string): (r: string)
    ensures IdText(r)
    ensures |r| >= |s|
  {
    if s == [] then []
    else
      var head := if IdChar(s[0]) then [s[0]] else EscapeChar(s[0]);
      assert |head| >= 1 && IdText(head);
      head + EscapeUnitForId(s[1..])
  }

  /** A unit already made of id characters is its own id. */
  lemma {:induction false} EscapeKeepsIdText(s: string)
    requires IdText(s)
    ensures EscapeUnitForId(s) == s
    decreases |s|
  {
    if s != [] {
      EscapeKeepsIdText(s[1..]);
    }
  }

  /** Escaping is idempotent. */
  lemma EscapeIdempotent(s: string)
    ensures EscapeUnitForId(EscapeUnitForId(s)) == EscapeUnitForId(s)
  {
    EscapeKeepsIdText(EscapeUnitForId(s));
  }

  /** The escape is not one-to-one: the units "/" and "_per_" get the same id. */
  lemma EscapeCollides()
    ensures EscapeUnitForId("/") == EscapeUnitForId("_per_") == "_per_"
  {
    EscapeKeepsIdText("_per_");
    EscapeCons('/', "");
  }

  lemma EscapeCons(c: char, s: string)
    ensures EscapeUnitForId([c] + s) == (if IdChar(c) then [c] else EscapeChar(c)) + EscapeUnitForId(s)
  {
    assert ([c] + s)[0] == c && ([c] + s)[1..] == s;
  }

  // ---------------------------------------------------------------------------
  // The module's state
  // ---------------------------------------------------------------------------

  class Selection {
    var units: seq<string>
    /** `currentDisplayUnit`; None is `undefined`. */
    var display: Option<string>

    /** Nothing selected, display unit 'ppb'. */
    constructor()
      ensures units == [] && display == Some("ppb")
    {
      units := [];
      display := Some("ppb");
    }

    /**
     * `initialize`: the selection becomes a copy of `allowed_units`
     * (`['ppb']` when the config has none), the display unit its first entry.
     */
    method Initialize(allowed: Option<seq<string>>)
      modifies this
      ensures units == allowed.GetOr(["ppb"])
      ensures display == Some(InitialDisplay(units))
      ensures allowed.None? ==> units == ["ppb"] && display == Some("ppb")
    {
      var allowedUnits := allowed.GetOr(["ppb"]);
      units := allowedUnits;
      display := Some(InitialDisplay(allowedUnits));
    }

    method AddOutputUnit(u: string)
      modifies this
      ensures units == Added(old(units), u)
      ensures display == old(display)
    {
      if u !in units {
        units := units + [u];
      }
    }

    method RemoveOutputUnit(u: string) returns (removed: bool)
      modifies this
      ensures removed <==> Removal(old(units), u).Some?
      ensures removed ==> units == Removal(old(units), u).value
      ensures !removed ==> units == old(units)
      ensures display == old(display)
    {
      if |units| <= 1 {
        return false;
      }
      var index := FirstIndex(units, u);
      if index.Some? {
        units := units[..index.value] + units[index.value + 1..];
        return true;
      }
      return false;
    }

    /** The display selector's rebuild; the fallback runs only when the selector element exists. */
    method UpdateDisplayUnitSelector(selectorPresent: bool)
      modifies this
      ensures units == old(units)
      ensures display == (if selectorPresent then FallbackDisplay(units, old(display)) else old(display))
    {
      if !selectorPresent {
        return;
      }
      if display.None? || display.value !in units {
        display := if units == [] then None else Some(units[0]);
      }
    }

    /**
     * `handleUnitCheckboxChange`: a refused uncheck returns at once; any
     * other change updates the display selector.
     */
    method HandleUnitCheckboxChange(u: string, checked: bool, selectorPresent: bool)
      modifies this
      ensures var r := CheckboxChange(old(units), u, checked);
        && (r.None? ==> units == old(units) && display == old(display))
        && (r.Some? ==> units == r.value)
        && (r.Some? && selectorPresent ==> display == FallbackDisplay(units, old(display)))
        && (r.Some? && !selectorPresent ==> display == old(display))
    {
      if checked {
        AddOutputUnit(u);
      } else {
        var removed := RemoveOutputUnit(u);
        if !removed {
          return;
        }
      }
      UpdateDisplayUnitSelector(selectorPresent);
    }

    /** The display selector's change handler. */
    method HandleDisplayUnitChange(u: string)
      modifies this
      ensures display == Some(u) && units == old(units)
    {
      display := Some(u);
    }
  }
}
