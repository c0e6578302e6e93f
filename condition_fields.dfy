/**
 * The hidden "condition" fields a worksheet fills for the Confident Cannabis
 * integration: four numeric fields per analyte, named after a sanitized form
 * of the analyte's name. The values come from the summary table's text
 * (parsed leniently), the config's limits, and are forced to be numeric
 * before they are written.
 */
module ConditionFields {
  import opened Wrappers
  import opened JsString
  import opened JsNumber

  // ---------------------------------------------------------------------------
  // Field names
  // ---------------------------------------------------------------------------

  /** The characters `[a-z0-9]` the name sanitizer keeps. */
  predicate Kept(c: char) {
    ('a' <= c <= 'z') || ('0' <= c <= '9')
  }

  predicate NameAlphabet(s: string) {
    forall i :: 0 <= i < |s| ==> Kept(s[i]) || s[i] == '_'
  }

  predicate NoDoubleUnderscore(s: string) {
    forall i :: 0 <= i < |s| - 1 ==> !(s[i] == '_' && s[i + 1] == '_')
  }

  predicate NoEdgeUnderscore(s: string) {
    s == [] || (s[0] != '_' && s[|s| - 1] != '_')
  }

  /** What `sanitizeAnalyteName` promises of a field prefix. */
  predicate CleanName(s: string) {
    NameAlphabet(s) && NoDoubleUnderscore(s) && NoEdgeUnderscore(s)
  }

  /**
   * `.replace(/[^a-z0-9]/g, '_')`: the pattern works on UTF-16 code units,
   * so a character outside the basic plane becomes two underscores.
   */
  function Underscored(s: string): (r: string)
    ensures NameAlphabet(r)
  {
    if s == [] then []
    else
      var head := if Kept(s[0]) then [s[0]] else if s[0] <= '\U{FFFF}' then "_" else "__";
      head + Underscored(s[1..])
  }

  /** `.replace(/_+/g, '_')`: each run of underscores becomes one. */
  function Collapse(s: string): (r: string)
    ensures NoDoubleUnderscore(r)
    ensures |r| <= |s|
    ensures NameAlphabet(s) ==> NameAlphabet(r)
    ensures s != [] ==> r != [] && r[0] == s[0]
    ensures s != [] ==> r[|r| - 1] == s[|s| - 1]
  {
    if s == [] then []
    else if |s| >= 2 && s[0] == '_' && s[1] == '_' then Collapse(s[1..])
    else
      var rest := Collapse(s[1..]);
      var r := [s[0]] + rest;
      assert forall i :: 1 <= i < |r| ==> r[i] == rest[i - 1];
      r
  }

  /** `.replace(/^_|_$/g, '')`: one leading and one trailing underscore removed. */
  function StripEdges(s: string): (r: string)
    ensures NoDoubleUnderscore(s) ==> NoEdgeUnderscore(r) && NoDoubleUnderscore(r)
    ensures NameAlphabet(s) ==> NameAlphabet(r)
  {
    var t := if |s| > 0 && s[0] == '_' then s[1..] else s;
    if |t| > 0 && t[|t| - 1] == '_' then t[..|t| - 1] else t
  }

  /** `sanitizeAnalyteName`: lower-cased, non-alphanumerics as `_`, runs collapsed, edges trimmed. */
  function SanitizeAnalyteName(analyte: string): (r: string)
    ensures CleanName(r)
  {
    StripEdges(Collapse(Underscored(ToLower(analyte))))
  }

  lemma {:induction false} UnderscoredFixes(s: string)
    requires NameAlphabet(s)
    ensures Underscored(s) == s
    decreases |s|
  {
    if s != [] {
      UnderscoredFixes(s[1..]);
      if s[0] == '_' { assert !Kept(s[0]); }
    }
  }

  lemma {:induction false} CollapseFixes(s: string)
    requires NoDoubleUnderscore(s)
    ensures Collapse(s) == s
    decreases |s|
  {
    if s != [] {
      CollapseFixes(s[1..]);
    }
  }

  lemma LowerFixes(s: string)
    requires NameAlphabet(s)
    ensures ToLower(s) == s
  {
    assert forall i :: 0 <= i < |s| ==> LowerChar(s[i]) == s[i];
  }

  /** A clean name is its own sanitized form. */
  lemma CleanNameFixed(s: string)
    requires CleanName(s)
    ensures SanitizeAnalyteName(s) == s
  {
    LowerFixes(s);
    UnderscoredFixes(s);
    CollapseFixes(s);
  }

  /** Sanitizing twice is sanitizing once. */
  lemma SanitizeIdempotent(analyte: string)
    ensures SanitizeAnalyteName(SanitizeAnalyteName(analyte)) == SanitizeAnalyteName(analyte)
  {
    CleanNameFixed(SanitizeAnalyteName(analyte));
  }

  /** The four Confident Cannabis fields of an analyte with field prefix `p`. */
  function FieldNames(p: string): (names: seq<string>)
    ensures |names| == 4
  {
    [p + "_cc_result", p + "_cc_lod", p + "_cc_loq", p + "_cc_action_limit"]
  }

  /** Two strings that end alike are equal exactly when their fronts are. */
  lemma SameSuffix(p: string, q: string, s: string)
    ensures p + s == q + s ==> p == q
  {
    if p + s == q + s {
      assert p == (p + s)[..|p|];
      assert q == (q + s)[..|q|];
    }
  }

  /** The last two characters of a string with a suffix of at least two characters are the suffix's. */
  lemma LastTwo(p: string, s: string)
    requires |s| >= 2
    ensures (p + s)[|p + s| - 2..] == s[|s| - 2..]
  {
  }

  /** The four names of one analyte differ, and analytes with different prefixes share no name. */
  lemma FieldNamesDistinct(p: string, q: string)
    ensures forall i, j :: 0 <= i < j < 4 ==> FieldNames(p)[i] != FieldNames(p)[j]
    ensures p != q ==> forall i, j :: 0 <= i < 4 && 0 <= j < 4 ==> FieldNames(p)[i] != FieldNames(q)[j]
  {
    var suffixes := ["_cc_result", "_cc_lod", "_cc_loq", "_cc_action_limit"];
    assert suffixes[0][8..] == "lt" && suffixes[1][5..] == "od" && suffixes[2][5..] == "oq" && suffixes[3][14..] == "it";
    forall a: string, b: string, i, j | 0 <= i < 4 && 0 <= j < 4 && (i != j || a != b)
      ensures a + suffixes[i] != b + suffixes[j]
    {
      if i == j {
        SameSuffix(a, b, suffixes[i]);
      } else {
        LastTwo(a, suffixes[i]);
        LastTwo(b, suffixes[j]);
      }
    }
    assert FieldNames(p) == [p + suffixes[0], p + suffixes[1], p + suffixes[2], p + suffixes[3]];
    assert FieldNames(q) == [q + suffixes[0], q + suffixes[1], q + suffixes[2], q + suffixes[3]];
  }

  // ---------------------------------------------------------------------------
  // Values
  // ---------------------------------------------------------------------------

  /** A value handed to `ensureNumericValue`: `null`/`undefined`, a number, or text. */
  datatype Value = Missing | Num(n: Number) | Text(s: string)

  const Zero: Number := Finite(0.0)

  /**
   * `parseResultValue` as written: 0 for missing or empty text, 'NT' and 'ND';
   * for text starting with `<`, `parseFloat` of the first `/[\d.]+/` run (0
   * without one); otherwise `parseFloat`, with NaN read as 0.
   */
  function ParseResultValue(resultText: Option<string>): (r: Number)
    ensures resultText.None? || resultText.value == "" ==> r == Zero
    ensures resultText.Some? && Trim(resultText.value) in {"NT", "ND"} ==> r == Zero
    ensures resultText.Some? && !StartsWith(Trim(resultText.value), "<") ==> !r.NaN?
    ensures resultText.Some? && resultText.value != "" && Trim(resultText.value) != "NT" && Trim(resultText.value) != "ND"
            && !StartsWith(Trim(resultText.value), "<")
            ==> r == (if ParseFloat(Trim(resultText.value)).NaN? then Zero else ParseFloat(Trim(resultText.value)))
  {
    if resultText.None? || resultText.value == "" then Zero
    else
      var text := Trim(resultText.value);
      if text == "NT" || text == "ND" then Zero
      else if StartsWith(text, "<") then
        match FirstDigitDotRun(text)
        case Some(run) => ParseFloat(run)
        case None => Zero
      else
        var n := ParseFloat(text);
        if n.NaN? then Zero else n
  }

  /** A `<` result whose only digit/dot run is dots makes `parseResultValue` return NaN. */
  lemma LessThanDotIsNaN()
    ensures ParseResultValue(Some("<.")) == NaN
  {
    var s := "<.";
    TrimOfTrimmed(s);
    assert StartsWith(s, "<");
    assert s[1..] == ".";
    assert FirstDigitDotRun(s[1..]) == Some(".") by {
      FirstRunOfDots(".");
    }
    assert FirstDigitDotRun(s) == Some(".");
    DotsAreNotANumber(".");
  }

  /** `parseResultValue` with the `<` branch's NaN read as 0, like every other branch. */
  function ResultValue(resultText: Option<string>): (r: Number)
    ensures !r.NaN?
    ensures !ParseResultValue(resultText).NaN? ==> r == ParseResultValue(resultText)
    ensures ParseResultValue(resultText).NaN? ==> r == Zero
  {
    var n := ParseResultValue(resultText);
    if n.NaN? then Zero else n
  }

  /** A `<` result reads as `parseFloat` of its first digit/dot run, or 0 when it has none. */
  lemma LessThanReadsRun(text: string)
    requires text == Trim(text) && StartsWith(text, "<")
    ensures ParseResultValue(Some(text))
            == (if FirstDigitDotRun(text).Some? then ParseFloat(FirstDigitDotRun(text).value) else Zero)
  {
    assert text != "" && text[0] == '<';
    assert text != "NT" && text != "ND" by {
      assert "NT"[0] == 'N' && "ND"[0] == 'N';
    }
  }

  /** `parseLimitValue`: None (`null`) for missing, empty or non-numeric text. */
  function ParseLimitValue(limitText: Option<string>): (r: Option<Number>)
    ensures limitText.None? || limitText.value == "" ==> r.None?
    ensures r.Some? ==> !r.value.NaN?
    ensures limitText.Some? && ParseFloat(Trim(limitText.value)).NaN? ==> r.None?
    ensures (limitText.Some? && limitText.value != "" && !ParseFloat(Trim(limitText.value)).NaN?)
              ==> r == Some(ParseFloat(Trim(limitText.value)))
  {
    if limitText.None? || limitText.value == "" then None
    else
      var n := ParseFloat(Trim(limitText.value));
      if n.NaN? then None else Some(n)
  }

  /**
   * `ensureNumericValue`: the number whose `toString()` is written. Missing
   * values and unparseable text give 0; a number is written as it is, so
   * only a NaN number is written as "NaN".
   */
  function EnsureNumericValue(v: Value): (r: Number)
    ensures r.NaN? <==> v == Num(NaN)
    ensures v.Missing? ==> r == Zero
    ensures v.Text? && ParseFloat(v.s).NaN? ==> r == Zero
  {
    match v
    case Missing => Zero
    case Num(n) => n
    case Text(s) =>
      var n := ParseFloat(s);
      if n.NaN? then Zero else n
  }

  /** With `parseResultValue` as written, a `<.` cell is written to its field as NaN. */
  lemma AsWrittenFieldIsNaN()
    ensures EnsureNumericValue(Num(ParseResultValue(Some("<.")))).NaN?
  {
    LessThanDotIsNaN();
  }

  /** The field values of one analyte. */
  datatype AnalyteData = AnalyteData(result: Number, limit: Option<Number>, lod: Value, loq: Value)

  /** JavaScript falsiness of a config value. */
  predicate Falsy(v: Value) {
    v.Missing? || v == Num(Zero) || v == Num(NaN) || v == Text("")
  }

  /** `limits[analyte].lod || 0` (and the same for `loq`); 0 without an entry. */
  function LimitOr0(entry: Option<Value>): (r: Value)
    ensures entry.None? || Falsy(entry.value) ==> r == Num(Zero)
    ensures entry.Some? && !Falsy(entry.value) ==> r == entry.value
  {
    if entry.Some? && !Falsy(entry.value) then entry.value else Num(Zero)
  }

  /**
   * `getAnalyteData` as written, from the cells' text and the analyte's
   * configured limits: the result goes through `parseResultValue` as it is,
   * so only a `<` result can be NaN.
   */
  function GetAnalyteData(resultText: Option<string>, limitText: Option<string>, lod: Option<Value>, loq: Option<Value>): (d: AnalyteData)
    ensures d.limit.Some? ==> !d.limit.value.NaN?
    ensures resultText.Some? && !StartsWith(Trim(resultText.value), "<") ==> !d.result.NaN?
    ensures resultText.None? ==> d.result == Zero
    ensures limitText.None? ==> d.limit.None?
    ensures (lod.None? || Falsy(lod.value)) ==> d.lod == Num(Zero)
    ensures (loq.None? || Falsy(loq.value)) ==> d.loq == Num(Zero)
  {
    AnalyteData(ParseResultValue(resultText), ParseLimitValue(limitText), LimitOr0(lod), LimitOr0(loq))
  }

  /** As written, the summary cell "<." gives the analyte a NaN result, whatever its limits. */
  lemma AsWrittenDataIsNaN(limitText: Option<string>, lod: Option<Value>, loq: Option<Value>)
    ensures GetAnalyteData(Some("<."), limitText, lod, loq).result == NaN
  {
    LessThanDotIsNaN();
  }

  /**
   * `getAnalyteData` with the corrected `parseResultValue`: the result is never
   * NaN, and it agrees with the code as written wherever that one is not NaN.
   */
  function GetAnalyteDataCorrected(resultText: Option<string>, limitText: Option<string>, lod: Option<Value>, loq: Option<Value>): (d: AnalyteData)
    ensures !d.result.NaN? && (d.limit.Some? ==> !d.limit.value.NaN?)
    ensures var w := GetAnalyteData(resultText, limitText, lod, loq);
      d.limit == w.limit && d.lod == w.lod && d.loq == w.loq
      && (!w.result.NaN? ==> d.result == w.result)
      && (w.result.NaN? ==> d.result == Zero)
  {
    AnalyteData(ResultValue(resultText), ParseLimitValue(limitText), LimitOr0(lod), LimitOr0(loq))
  }

  /** The values written to the four fields, in field order. */
  function FieldValues(d: AnalyteData): (vs: seq<Number>)
    ensures |vs| == 4
  {
    [EnsureNumericValue(Num(d.result)), EnsureNumericValue(d.lod), EnsureNumericValue(d.loq),
     EnsureNumericValue(if d.limit.Some? then Num(d.limit.value) else Missing)]
  }

  // ---------------------------------------------------------------------------
  // The document's hidden fields
  // ---------------------------------------------------------------------------

  /** A hidden input: its `name` and the number whose text is its `value`. */
  datatype Field = Field(name: string, value: Number)

  /** The first field with a name (what `querySelector` finds). */
  function FindField(fields: seq<Field>, name: string): (r: Option<nat>)
    ensures r.Some? ==> r.value < |fields| && fields[r.value].name == name
    ensures r.Some? ==> forall k :: 0 <= k < r.value ==> fields[k].name != name
    ensures r.None? <==> forall k :: 0 <= k < |fields| ==> fields[k].name != name
  {
    if fields == [] then None
    else if fields[0].name == name then Some(0)
    else match FindField(fields[1..], name)
      case None => None
      case Some(i) => Some(i + 1)
  }

  /** The value a lookup by name sees. */
  function ValueOf(fields: seq<Field>, name: string): Option<Number> {
    match FindField(fields, name)
    case Some(i) => Some(fields[i].value)
    case None => None
  }

  /** `createConditionField` on the document: reuse the first field of that name, else append one. */
  function Upsert(fields: seq<Field>, name: string, v: Number): (r: seq<Field>)
  {
    match FindField(fields, name)
    case Some(i) => fields[i := Field(name, v)]
    case None => fields + [Field(name, v)]
  }

  predicate UniqueNames(fields: seq<Field>) {
    forall i, j :: 0 <= i < j < |fields| ==> fields[i].name != fields[j].name
  }

  /**
   * Writing a field makes a lookup of its name see the new value, leaves
   * every other name's lookup alone, adds a field only when none had that
   * name, and never creates a second field of a name.
   */
  lemma UpsertSets(fields: seq<Field>, name: string, v: Number)
    ensures ValueOf(Upsert(fields, name, v), name) == Some(v)
    ensures forall n :: n != name ==> ValueOf(Upsert(fields, name, v), n) == ValueOf(fields, n)
    ensures |Upsert(fields, name, v)| == |fields| + (if FindField(fields, name).None? then 1 else 0)
    ensures UniqueNames(fields) ==> UniqueNames(Upsert(fields, name, v))
  {
    var r := Upsert(fields, name, v);
    var at := if FindField(fields, name).Some? then FindField(fields, name).value else |fields|;
    assert at < |r| && r[at] == Field(name, v);
    assert forall k :: 0 <= k < |fields| && k != at ==> r[k] == fields[k];
    FoundAt(r, name, at);
    forall n | n != name ensures ValueOf(r, n) == ValueOf(fields, n) {
      SameNamesSameIndex(fields, r, n);
      match FindField(fields, n)
      case Some(i) =>
        assert r[i] == fields[i];
      case None =>
        assert forall k :: 0 <= k < |r| ==> r[k].name != n by {
          assert forall k :: 0 <= k < |fields| ==> fields[k].name != n;
        }
    }
  }

  /** A name first occurs at `at` when it is there and nowhere before. */
  lemma FoundAt(fields: seq<Field>, name: string, at: nat)
    requires at < |fields| && fields[at].name == name
    requires forall k :: 0 <= k < at ==> fields[k].name != name
    ensures FindField(fields, name) == Some(at)
  {
    var f := FindField(fields, name);
    assert f.Some?;
    assert !(f.value < at) && !(at < f.value);
  }

  /** Lists whose names agree up to the end of the shorter one find a name at the same place. */
  lemma SameNamesSameIndex(a: seq<Field>, b: seq<Field>, n: string)
    requires |a| <= |b| && forall k :: 0 <= k < |a| ==> a[k].name == b[k].name
    ensures FindField(a, n).Some? ==> FindField(b, n) == FindField(a, n)
  {
    if FindField(a, n).Some? {
      FoundAt(b, n, FindField(a, n).value);
    }
  }

  /** `createConditionFieldsForAnalyte`: the four fields written in order. */
  function WriteAnalyte(fields: seq<Field>, prefix: string, d: AnalyteData): (r: seq<Field>)
  {
    var names := FieldNames(prefix);
    var vs := FieldValues(d);
    Upsert(Upsert(Upsert(Upsert(fields, names[0], vs[0]), names[1], vs[1]), names[2], vs[2]), names[3], vs[3])
  }

  /** After an analyte is written, each of its four names looks up the value written to it. */
  lemma WriteAnalyteSets(fields: seq<Field>, prefix: string, d: AnalyteData)
    ensures var names := FieldNames(prefix);
      var r := WriteAnalyte(fields, prefix, d);
      && ValueOf(r, names[0]) == Some(FieldValues(d)[0])
      && ValueOf(r, names[1]) == Some(FieldValues(d)[1])
      && ValueOf(r, names[2]) == Some(FieldValues(d)[2])
      && ValueOf(r, names[3]) == Some(FieldValues(d)[3])
  {
    var names := FieldNames(prefix);
    var vs := FieldValues(d);
    FieldNamesDistinct(prefix, prefix);
    var f1 := Upsert(fields, names[0], vs[0]);
    var f2 := Upsert(f1, names[1], vs[1]);
    var f3 := Upsert(f2, names[2], vs[2]);
    UpsertSets(fields, names[0], vs[0]);
    UpsertSets(f1, names[1], vs[1]);
    UpsertSets(f2, names[2], vs[2]);
    UpsertSets(f3, names[3], vs[3]);
  }

  /** Writing an analyte changes no other name's lookup. */
  lemma WriteAnalyteOthers(fields: seq<Field>, prefix: string, d: AnalyteData, n: string)
    requires n !in FieldNames(prefix)
    ensures ValueOf(WriteAnalyte(fields, prefix, d), n) == ValueOf(fields, n)
  {
    var names := FieldNames(prefix);
    var vs := FieldValues(d);
    var f1 := Upsert(fields, names[0], vs[0]);
    var f2 := Upsert(f1, names[1], vs[1]);
    var f3 := Upsert(f2, names[2], vs[2]);
    UpsertSets(fields, names[0], vs[0]);
    UpsertSets(f1, names[1], vs[1]);
    UpsertSets(f2, names[2], vs[2]);
    UpsertSets(f3, names[3], vs[3]);
  }

  /** Writing an analyte adds at most four fields and keeps names unique. */
  lemma WriteAnalyteGrowth(fields: seq<Field>, prefix: string, d: AnalyteData)
    ensures var r := WriteAnalyte(fields, prefix, d);
      && |fields| <= |r| <= |fields| + 4
      && (UniqueNames(fields) ==> UniqueNames(r))
  {
    var names := FieldNames(prefix);
    var vs := FieldValues(d);
    var f1 := Upsert(fields, names[0], vs[0]);
    var f2 := Upsert(f1, names[1], vs[1]);
    var f3 := Upsert(f2, names[2], vs[2]);
    UpsertSets(fields, names[0], vs[0]);
    UpsertSets(f1, names[1], vs[1]);
    UpsertSets(f2, names[2], vs[2]);
    UpsertSets(f3, names[3], vs[3]);
  }

  /** Writing an analyte a second time adds no field. */
  lemma WriteAnalyteReuses(fields: seq<Field>, prefix: string, d: AnalyteData, d': AnalyteData)
    ensures var once := WriteAnalyte(fields, prefix, d);
      |WriteAnalyte(once, prefix, d')| == |once|
  {
    var names := FieldNames(prefix);
    var once := WriteAnalyte(fields, prefix, d);
    WriteAnalyteSets(fields, prefix, d);
    var vs := FieldValues(d');
    var f1 := Upsert(once, names[0], vs[0]);
    var f2 := Upsert(f1, names[1], vs[1]);
    var f3 := Upsert(f2, names[2], vs[2]);
    FieldNamesDistinct(prefix, prefix);
    UpsertSets(once, names[0], vs[0]);
    UpsertSets(f1, names[1], vs[1]);
    UpsertSets(f2, names[2], vs[2]);
    UpsertSets(f3, names[3], vs[3]);
    assert ValueOf(once, names[0]).Some?;
    assert ValueOf(f1, names[1]).Some? by { assert ValueOf(f1, names[1]) == ValueOf(once, names[1]); }
    assert ValueOf(f2, names[2]).Some? by { assert ValueOf(f2, names[2]) == ValueOf(f1, names[2]) == ValueOf(once, names[2]); }
    assert ValueOf(f3, names[3]).Some? by {
      assert ValueOf(f3, names[3]) == ValueOf(f2, names[3]) == ValueOf(f1, names[3]) == ValueOf(once, names[3]);
    }
  }

  // ---------------------------------------------------------------------------
  // The analyte list
  // ---------------------------------------------------------------------------

  /** `Array.from(set)` after adding each non-empty attribute in row order. */
  function AnalyteList(attrs: seq<Option<string>>): (r: seq<string>)
    decreases |attrs|
  {
    if attrs == [] then []
    else
      var init := AnalyteList(attrs[..|attrs| - 1]);
      var a := attrs[|attrs| - 1];
      if a.Some? && a.value != "" && a.value !in init then init + [a.value] else init
  }

  /** The analyte list holds each non-empty attribute exactly once. */
  lemma {:induction false} AnalyteListDistinct(attrs: seq<Option<string>>)
    ensures forall i, j :: 0 <= i < j < |AnalyteList(attrs)| ==> AnalyteList(attrs)[i] != AnalyteList(attrs)[j]
    ensures forall a :: a in AnalyteList(attrs) <==> a != "" && Some(a) in attrs
    decreases |attrs|
  {
    if attrs != [] {
      var init := attrs[..|attrs| - 1];
      AnalyteListDistinct(init);
      assert attrs == init + [attrs[|attrs| - 1]];
      forall a ensures Some(a) in attrs <==> Some(a) in init || Some(a) == attrs[|attrs| - 1] {
      }
    }
  }

  /** `getAnalyteList`: the loop over the summary rows filling a `Set`. */
  method GetAnalyteList(attrs: seq<Option<string>>) returns (list: seq<string>)
    ensures list == AnalyteList(attrs)
  {
    list := [];
    var j := 0;
    while j < |attrs|
      invariant 0 <= j <= |attrs|
      invariant list == AnalyteList(attrs[..j])
    {
      assert attrs[..j + 1][..j] == attrs[..j];
      var a := attrs[j];
      if a.Some? && a.value != "" && a.value !in list {
        list := list + [a.value];
      }
      j := j + 1;
    }
    assert attrs[..j] == attrs;
  }

  /** The document's hidden condition fields. */
  class Document {
    var fields: seq<Field>

    constructor(fields: seq<Field>)
      ensures this.fields == fields
    {
      this.fields := fields;
    }

    /** `createConditionField`. */
    method CreateConditionField(name: string, value: Value)
      modifies this
      ensures fields == Upsert(old(fields), name, EnsureNumericValue(value))
    {
      var existing := FindField(fields, name);
      var numeric := EnsureNumericValue(value);
      if existing.None? {
        fields := fields + [Field(name, numeric)];
      } else {
        fields := fields[existing.value := Field(name, numeric)];
      }
    }

    /** `createConditionFieldsForAnalyte`. */
    method CreateConditionFieldsForAnalyte(analyte: string, d: AnalyteData)
      modifies this
      ensures fields == WriteAnalyte(old(fields), SanitizeAnalyteName(analyte), d)
    {
      var prefix := SanitizeAnalyteName(analyte);
      CreateConditionField(prefix + "_cc_result", Num(d.result));
      CreateConditionField(prefix + "_cc_lod", d.lod);
      CreateConditionField(prefix + "_cc_loq", d.loq);
      CreateConditionField(prefix + "_cc_action_limit", if d.limit.Some? then Num(d.limit.value) else Missing);
    }
  }
}
