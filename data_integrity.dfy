/**
 * The worksheet's data-integrity guard: results are locked by default; an
 * analyst unlocks them by logging a deviation (who, why, what), and locking
 * again stamps that deviation's relock time. The deviation log only grows,
 * is kept in a hidden form field as JSON, and can be exported as CSV.
 *
 * Clock readings (`Date.now()`, `new Date().toISOString()`) are parameters;
 * the form field's JSON text is modelled by what parsing it yields.
 */
module DataIntegrity {
  import opened Wrappers
  import opened JsString

  /** A clock reading: milliseconds since the epoch and its ISO-8601 rendering. */
  datatype Instant = Instant(ms: int, iso: string)

  /** One logged deviation; `relockTime` is `null` until the data is locked again. */
  datatype Deviation = Deviation(
    id: string,
    timestamp: string,
    analyst: string,
    reason: string,
    description: string,
    unlockTime: Instant,
    relockTime: Option<Instant>)

  /**
   * `currentDeviation`: none, the record at an index of `deviations` (the
   * object pushed there, so editing it edits the list), or a record object
   * no longer in the list because the list was replaced by a reload.
   */
  datatype Current = NoCurrent | InList(index: nat) | Detached(record: Deviation)

  /** What reading the hidden deviations field yields. */
  datatype StoredField =
    | Absent                      // no field, or an empty value
    | Unparseable                 // `JSON.parse` throws
    | ParsedFalsy                 // parses to `null`, `false`, `0` or `""`
    | Parsed(list: seq<Deviation>)

  /** The outcome of the deviation form's validation, in the order the checks run. */
  datatype Submission =
    | MissingAnalyst
    | MissingReason
    | ShortDescription
    | Accepted(analyst: string, reason: string, description: string)

  // ---------------------------------------------------------------------------
  // Validation
  // ---------------------------------------------------------------------------

  /** JavaScript's `length`: UTF-16 code units, two for a character outside the basic plane. */
  function Utf16Length(s: string): (n: nat)
    ensures |s| <= n <= 2 * |s|
  {
    if s == [] then 0 else Utf16Length(s[1..]) + (if s[0] <= '\U{FFFF}' then 1 else 2)
  }

  /** The code-unit length is the character count exactly when no character lies outside the basic plane. */
  lemma {:induction false} Utf16LengthBasic(s: string)
    ensures Utf16Length(s) == |s| <==> forall i :: 0 <= i < |s| ==> s[i] <= '\U{FFFF}'
    decreases |s|
  {
    if s != [] {
      Utf16LengthBasic(s[1..]);
      assert forall i :: 1 <= i < |s| ==> s[i] == s[1..][i - 1];
    }
  }

  /** An optional input's trimmed value, `""` when the element is missing. */
  function TrimmedOr(field: Option<string>): string {
    if field.Some? then Trim(field.value) else ""
  }

  /** Minimum description length, in UTF-16 code units. */
  const MinDescription: nat := 10

  /**
   * `handleDeviationSubmission`'s checks: a trimmed analyst name, a reason
   * (not trimmed) and a trimmed description of at least ten code units.
   */
  function Validate(analystField: Option<string>, reasonField: Option<string>, descriptionField: Option<string>): (r: Submission)
    ensures r.Accepted? ==> r.analyst != [] && r.reason != [] && Utf16Length(r.description) >= MinDescription
  {
    var analyst := TrimmedOr(analystField);
    var description := TrimmedOr(descriptionField);
    if analyst == [] then MissingAnalyst
    else if reasonField.None? || reasonField.value == [] then MissingReason
    else if Utf16Length(description) < MinDescription then ShortDescription
    else Accepted(analyst, reasonField.value, description)
  }

  /** Each rejection names the first check that fails; acceptance means every check passes. */
  lemma ValidationOrder(analystField: Option<string>, reasonField: Option<string>, descriptionField: Option<string>)
    ensures var r := Validate(analystField, reasonField, descriptionField);
      && (r.MissingAnalyst? <==> TrimmedOr(analystField) == [])
      && (r.MissingReason? <==> TrimmedOr(analystField) != [] && (reasonField.None? || reasonField.value == []))
      && (r.ShortDescription? <==>
            TrimmedOr(analystField) != [] && reasonField.Some? && reasonField.value != []
            && Utf16Length(TrimmedOr(descriptionField)) < MinDescription)
      && (r.Accepted? ==> r == Accepted(TrimmedOr(analystField), reasonField.value, TrimmedOr(descriptionField)))
  {
  }

  /** A description of fewer than five characters never passes, whatever its whitespace. */
  lemma ShortTextRejected(analystField: Option<string>, reasonField: Option<string>, description: string)
    requires |description| < 5
    ensures !Validate(analystField, reasonField, Some(description)).Accepted?
  {
    var d := Trim(description);
    assert |d| <= |TrimStart(description)| <= |description|;
  }

  /** The record an accepted submission creates: id `DEV-<Date.now()>`, still open. */
  function NewRecord(v: Submission, nowMs: int, stamp: string, unlock: Instant): (d: Deviation)
    requires v.Accepted?
    ensures d.relockTime.None? && d.unlockTime == unlock
    ensures d.analyst == v.analyst && d.reason == v.reason && d.description == v.description
  {
    Deviation("DEV-" + IntToString(nowMs), stamp, v.analyst, v.reason, v.description, unlock, None)
  }

  // ---------------------------------------------------------------------------
  // The deviation log only grows
  // ---------------------------------------------------------------------------

  /** `after` is `before` itself, or `before` still open and then closed with some relock time. */
  predicate Settles(before: Deviation, after: Deviation) {
    after == before || (before.relockTime.None? && after == before.(relockTime := after.relockTime))
  }

  /** Nothing was removed or reordered, and the only edit was to close open records. */
  predicate Extends(before: seq<Deviation>, after: seq<Deviation>) {
    |before| <= |after| && forall i :: 0 <= i < |before| ==> Settles(before[i], after[i])
  }

  /** `currentDeviation.relockTime = …` on the record at index `i`. */
  function Relock(devs: seq<Deviation>, i: nat, at: Instant): (r: seq<Deviation>)
    requires i < |devs|
  {
    devs[i := devs[i].(relockTime := Some(at))]
  }

  /** Closing an open record keeps the log's history, and closes exactly that record. */
  lemma RelockExtends(devs: seq<Deviation>, i: nat, at: Instant)
    requires i < |devs| && devs[i].relockTime.None?
    ensures Extends(devs, Relock(devs, i, at))
    ensures |Relock(devs, i, at)| == |devs|
    ensures Relock(devs, i, at)[i].relockTime == Some(at)
    ensures forall k :: 0 <= k < |devs| && k != i ==> Relock(devs, i, at)[k] == devs[k]
  {
  }

  /** Appending a record keeps the log's history. */
  lemma AppendExtends(devs: seq<Deviation>, d: Deviation)
    ensures Extends(devs, devs + [d])
  {
    assert forall i :: 0 <= i < |devs| ==> (devs + [d])[i] == devs[i];
  }

  /** History is kept across any sequence of steps. */
  lemma ExtendsTransitive(a: seq<Deviation>, b: seq<Deviation>, c: seq<Deviation>)
    requires Extends(a, b) && Extends(b, c)
    ensures Extends(a, c)
  {
    forall i | 0 <= i < |a| ensures Settles(a[i], c[i]) {
      assert Settles(a[i], b[i]) && Settles(b[i], c[i]);
    }
  }

  /** A record that has been closed stays as it is. */
  lemma ClosedRecordsStay(before: seq<Deviation>, after: seq<Deviation>, i: nat)
    requires Extends(before, after) && i < |before| && before[i].relockTime.Some?
    ensures after[i] == before[i]
  {
    assert Settles(before[i], after[i]);
  }

  /** `loadExistingDeviations`: a missing or empty field keeps the list; a bad one empties it. */
  function Loaded(devs: seq<Deviation>, field: StoredField): (r: seq<Deviation>)
    ensures field.Absent? ==> r == devs
    ensures field.Unparseable? || field.ParsedFalsy? ==> r == []
    ensures field.Parsed? ==> r == field.list
  {
    match field
    case Absent => devs
    case Unparseable => []
    case ParsedFalsy => []
    case Parsed(list) => list
  }

  // ---------------------------------------------------------------------------
  // Durations
  // ---------------------------------------------------------------------------

  /** `Math.round(ms / 60000)`: the nearest whole minute, halves rounded up. */
  function RoundMinutes(ms: int): (m: int)
    ensures m * 60000 - 30000 <= ms < m * 60000 + 30000
  {
    (ms + 30000) / 60000
  }

  /** Any whole number of minutes within half a minute (halves up) is the rounded one. */
  lemma RoundMinutesUnique(ms: int, m: int)
    requires m * 60000 - 30000 <= ms < m * 60000 + 30000
    ensures RoundMinutes(ms) == m
  {
    var r := RoundMinutes(ms);
    assert (r - m) * 60000 < 60000 && (m - r) * 60000 < 60000;
  }

  /** The review modal's duration text. */
  function ReviewDuration(d: Deviation): (s: string)
    ensures d.relockTime.None? <==> s == "Ongoing"
  {
    if d.relockTime.Some? then
      IntToString(RoundMinutes(d.relockTime.value.ms - d.unlockTime.ms)) + " minutes"
    else "Ongoing"
  }

  /** The export's duration column: the rounded minutes, or empty while the record is open. */
  function ExportDuration(d: Deviation): (s: string)
    ensures d.relockTime.None? <==> s == ""
  {
    if d.relockTime.Some? then IntToString(RoundMinutes(d.relockTime.value.ms - d.unlockTime.ms)) else ""
  }

  // ---------------------------------------------------------------------------
  // CSV export
  // ---------------------------------------------------------------------------

  /** `escapeCSV`: every `"` doubled, every other character kept. */
  function EscapeCsv(s: string): (r: string)
    ensures |r| >= |s|
    ensures forall c :: c in r <==> c in s
    ensures '"' !in s ==> r == s
  {
    if s == [] then []
    else (if s[0] == '"' then "\"\"" else [s[0]]) + EscapeCsv(s[1..])
  }

  /**
   * Reads the body of a quoted CSV field (the text after its opening quote):
   * `""` stands for `"`, and a lone `"` closes the field. Yields the field's
   * value and the text after the closing quote.
   */
  function ReadQuoted(t: string): Option<(string, string)>
    decreases |t|
  {
    if t == [] then None
    else if t[0] == '"' then
      if |t| >= 2 && t[1] == '"' then
        match ReadQuoted(t[2..])
        case None => None
        case Some(p) => Some(("\"" + p.0, p.1))
      else Some(([], t[1..]))
    else
      match ReadQuoted(t[1..])
      case None => None
      case Some(p) => Some(([t[0]] + p.0, p.1))
  }

  /** A quoted, escaped field reads back as the original text, followed by what came after it. */
  lemma {:induction false} QuotedRoundTrip(s: string, rest: string)
    requires rest == [] || rest[0] != '"'
    ensures ReadQuoted(EscapeCsv(s) + ("\"" + rest)) == Some((s, rest))
    decreases |s|
  {
    var closing := "\"" + rest;
    if s == [] {
      assert EscapeCsv(s) + closing == closing;
    } else {
      QuotedRoundTrip(s[1..], rest);
      EscapeCons(s, closing);
      ReadQuotedCons(s[0], EscapeCsv(s[1..]) + closing, s[1..], rest);
      assert [s[0]] + s[1..] == s;
    }
  }

  /** Reading one escaped character in front of a field body that reads as `(v, after)`. */
  lemma ReadQuotedCons(c: char, tail: string, v: string, after: string)
    requires ReadQuoted(tail) == Some((v, after))
    ensures ReadQuoted((if c == '"' then "\"\"" else [c]) + tail) == Some(([c] + v, after))
  {
    if c == '"' {
      assert ("\"\"" + tail)[2..] == tail;
    } else {
      assert ([c] + tail)[1..] == tail;
    }
  }

  /** Escaping peels off the first character, whatever follows the escaped text. */
  lemma EscapeCons(s: string, suffix: string)
    requires s != []
    ensures EscapeCsv(s) + suffix == (if s[0] == '"' then "\"\"" else [s[0]]) + (EscapeCsv(s[1..]) + suffix)
  {
  }

  /** The export's column titles. */
  const HeaderFields: seq<string> := [
    "Sample ID", "Assay Display Name", "Deviation ID", "Timestamp", "Analyst", "Reason",
    "Description", "Unlock Time", "Relock Time", "Duration (minutes)"]

  /** The export's first line. */
  const Header: string := Join(HeaderFields, ',') + "\n"

  /** `sampleInfo.sample_id || "Not specified"`. */
  function SampleLabel(sampleId: Option<string>): (s: string)
    ensures s != []
  {
    if sampleId.Some? && sampleId.value != [] then sampleId.value else "Not specified"
  }

  /** `assay_display_name || assay_name || "Not specified"`. */
  function AssayLabel(displayName: Option<string>, name: Option<string>): (s: string)
    ensures s != []
  {
    if displayName.Some? && displayName.value != [] then displayName.value
    else if name.Some? && name.value != [] then name.value
    else "Not specified"
  }

  /** The columns before the description. */
  function LeadFields(d: Deviation, sample: string, assay: string): seq<string> {
    [EscapeCsv(sample), EscapeCsv(assay), d.id, d.timestamp, EscapeCsv(d.analyst), EscapeCsv(d.reason)]
  }

  /** The columns after the description. */
  function TrailFields(d: Deviation): seq<string> {
    [d.unlockTime.iso, if d.relockTime.Some? then d.relockTime.value.iso else "", ExportDuration(d)]
  }

  /** One exported line: the ten columns joined by commas, then a newline. */
  function Row(d: Deviation, sample: string, assay: string): string {
    Join(LeadFields(d, sample, assay) + ["\"" + EscapeCsv(d.description) + "\""] + TrailFields(d), ',') + "\n"
  }

  /** The exported lines of a list of deviations, in list order. */
  function Rows(devs: seq<Deviation>, sample: string, assay: string): string
    decreases |devs|
  {
    if devs == [] then "" else Rows(devs[..|devs| - 1], sample, assay) + Row(devs[|devs| - 1], sample, assay)
  }

  /** `exportDeviations`' file, or nothing at all when no deviation was logged. */
  function ExportCsv(devs: seq<Deviation>, sample: string, assay: string): (r: Option<string>)
    ensures r.None? <==> devs == []
    ensures r.Some? ==> |r.value| >= |Header| && r.value[..|Header|] == Header
  {
    if devs == [] then None else Some(Header + Rows(devs, sample, assay))
  }

  /** Joining two non-empty lists of parts is joining each and putting the separator between. */
  lemma {:induction false} JoinConcat(a: seq<string>, b: seq<string>, sep: char)
    requires a != [] && b != []
    ensures Join(a + b, sep) == Join(a, sep) + [sep] + Join(b, sep)
    decreases |a|
  {
    if |a| == 1 {
      assert (a + b)[1..] == b;
    } else {
      JoinConcat(a[1..], b, sep);
      assert (a + b)[1..] == a[1..] + b;
    }
  }

  /** Where, in a row, the description's quoted text begins (just past its opening quote). */
  function DescriptionOffset(d: Deviation, sample: string, assay: string): nat {
    |Join(LeadFields(d, sample, assay), ',')| + 2
  }

  /** The description column of each exported line reads back as the logged description. */
  lemma DescriptionReadsBack(d: Deviation, sample: string, assay: string)
    ensures DescriptionOffset(d, sample, assay) <= |Row(d, sample, assay)|
    ensures ReadQuoted(Row(d, sample, assay)[DescriptionOffset(d, sample, assay)..])
            == Some((d.description, "," + Join(TrailFields(d), ',') + "\n"))
  {
    var lead := Join(LeadFields(d, sample, assay), ',');
    var trail := Join(TrailFields(d), ',');
    var quoted := "\"" + EscapeCsv(d.description) + "\"";
    var tail := EscapeCsv(d.description) + ("\"" + ("," + trail + "\n"));
    assert LeadFields(d, sample, assay) + [quoted] + TrailFields(d) == LeadFields(d, sample, assay) + ([quoted] + TrailFields(d));
    JoinConcat(LeadFields(d, sample, assay), [quoted] + TrailFields(d), ',');
    JoinConcat([quoted], TrailFields(d), ',');
    assert Join([quoted], ',') == quoted;
    var row := Row(d, sample, assay);
    assert row == lead + [','] + (quoted + [','] + trail) + "\n";
    QuotedColumnSplit(lead, EscapeCsv(d.description), trail);
    assert row[|lead| + 2..] == tail;
    QuotedRoundTrip(d.description, "," + trail + "\n");
  }

  /** A line whose middle column is quoted, cut just past that column's opening quote. */
  lemma QuotedColumnSplit(lead: string, body: string, trail: string)
    ensures var line := lead + [','] + ("\"" + body + "\"" + [','] + trail) + "\n";
      |line| >= |lead| + 2 && line[|lead| + 2..] == body + ("\"" + ("," + trail + "\n"))
  {
    var line := lead + [','] + ("\"" + body + "\"" + [','] + trail) + "\n";
    var tail := body + ("\"" + ("," + trail + "\n"));
    assert |line| == |lead| + 2 + |tail|;
    forall k | 0 <= k < |tail| ensures line[|lead| + 2 + k] == tail[k] {
      if k < |body| {
      } else if k == |body| {
      } else if k == |body| + 1 {
      } else if k < |body| + 2 + |trail| {
      } else {
      }
    }
  }

  /** The number of occurrences of `c` in `s`. */
  function Count(s: string, c: char): nat {
    if s == [] then 0 else (if s[0] == c then 1 else 0) + Count(s[1..], c)
  }

  lemma {:induction false} CountConcat(a: string, b: string, c: char)
    ensures Count(a + b, c) == Count(a, c) + Count(b, c)
    decreases |a|
  {
    if a != [] {
      CountConcat(a[1..], b, c);
      var ab := a + b;
      assert ab[0] == a[0] && ab[1..] == a[1..] + b;
      assert Count(ab, c) == (if a[0] == c then 1 else 0) + Count(a[1..] + b, c);
    } else {
      assert a + b == b;
    }
  }

  lemma {:induction false} CountAbsent(s: string, c: char)
    requires c !in s
    ensures Count(s, c) == 0
    decreases |s|
  {
    if s != [] {
      CountAbsent(s[1..], c);
    }
  }

  lemma {:induction false} JoinKeepsOut(parts: seq<string>, sep: char, c: char)
    requires c != sep && forall k :: 0 <= k < |parts| ==> c !in parts[k]
    ensures c !in Join(parts, sep)
    decreases |parts|
  {
    if |parts| > 1 {
      JoinKeepsOut(parts[1..], sep, c);
    }
  }

  lemma NoNewlineInInt(i: int)
    ensures '\n' !in IntToString(i)
  {
    var n := NatToString(if i < 0 then -i else i);
    assert forall k :: 0 <= k < |n| ==> IsDigit(n[k]);
  }

  /** No text of the record, and neither label, holds a line break. */
  predicate SingleLine(d: Deviation, sample: string, assay: string) {
    && '\n' !in sample && '\n' !in assay && '\n' !in d.id && '\n' !in d.timestamp
    && '\n' !in d.analyst && '\n' !in d.reason && '\n' !in d.description
    && '\n' !in d.unlockTime.iso && (d.relockTime.Some? ==> '\n' !in d.relockTime.value.iso)
  }

  lemma RowIsOneLine(d: Deviation, sample: string, assay: string)
    requires SingleLine(d, sample, assay)
    ensures Count(Row(d, sample, assay), '\n') == 1
  {
    if d.relockTime.Some? {
      NoNewlineInInt(RoundMinutes(d.relockTime.value.ms - d.unlockTime.ms));
    }
    var parts := LeadFields(d, sample, assay) + ["\"" + EscapeCsv(d.description) + "\""] + TrailFields(d);
    JoinKeepsOut(parts, ',', '\n');
    CountAbsent(Join(parts, ','), '\n');
    CountConcat(Join(parts, ','), "\n", '\n');
  }

  lemma {:induction false} RowsLines(devs: seq<Deviation>, sample: string, assay: string)
    requires forall k :: 0 <= k < |devs| ==> SingleLine(devs[k], sample, assay)
    ensures Count(Rows(devs, sample, assay), '\n') == |devs|
    decreases |devs|
  {
    if devs != [] {
      var init := devs[..|devs| - 1];
      RowsLines(init, sample, assay);
      RowIsOneLine(devs[|devs| - 1], sample, assay);
      CountConcat(Rows(init, sample, assay), Row(devs[|devs| - 1], sample, assay), '\n');
    }
  }

  lemma HeaderIsOneLine()
    ensures Count(Header, '\n') == 1
  {
    forall k | 0 <= k < |HeaderFields| ensures '\n' !in HeaderFields[k] {
    }
    JoinKeepsOut(HeaderFields, ',', '\n');
    CountAbsent(Join(HeaderFields, ','), '\n');
    CountConcat(Join(HeaderFields, ','), "\n", '\n');
  }

  /**
   * When no text holds a line break, the export is exactly one header line
   * plus one line per deviation.
   */
  lemma ExportLines(devs: seq<Deviation>, sample: string, assay: string)
    requires devs != []
    requires forall k :: 0 <= k < |devs| ==> SingleLine(devs[k], sample, assay)
    ensures Count(ExportCsv(devs, sample, assay).value, '\n') == |devs| + 1
  {
    RowsLines(devs, sample, assay);
    CountConcat(Header, Rows(devs, sample, assay), '\n');
    HeaderIsOneLine();
  }

  // ---------------------------------------------------------------------------
  // The manager's state
  /** A log extends itself. */
  lemma ExtendsSelf(devs: seq<Deviation>)
    ensures Extends(devs, devs)
  {
    assert forall i :: 0 <= i < |devs| ==> Settles(devs[i], devs[i]);
  }

  // ---------------------------------------------------------------------------

  class Guard {
    /** `config.features.dataIntegrity`. */
    const enabled: bool
    var isLocked: bool
    var deviations: seq<Deviation>
    var current: Current
    /** The hidden field's value as last written by `updateDeviationStorage`. */
    var stored: Option<seq<Deviation>>

    /** The current deviation, while it is in the list, is the last record and is still open. */
    ghost predicate Valid()
      reads this
    {
      current.InList? ==>
        |deviations| > 0 && current.index == |deviations| - 1 && deviations[current.index].relockTime.None?
    }

    /** Locked, no deviations, no current deviation. */
    constructor(enabled: bool)
      ensures this.enabled == enabled
      ensures isLocked && deviations == [] && current == NoCurrent && stored == None
      ensures Valid()
    {
      this.enabled := enabled;
      isLocked := true;
      deviations := [];
      current := NoCurrent;
      stored := None;
    }

    /** `loadExistingDeviations`; a reload leaves a listed current deviation detached from the new list. */
    method Load(field: StoredField)
      requires Valid()
      modifies this
      ensures Valid()
      ensures deviations == Loaded(old(deviations), field)
      ensures field.Absent? ==> current == old(current)
      ensures !field.Absent? && old(current).InList? ==> current == Detached(old(deviations)[old(current).index])
      ensures !field.Absent? && !old(current).InList? ==> current == old(current)
      ensures isLocked == old(isLocked) && stored == old(stored)
    {
      if !field.Absent? {
        if current.InList? {
          current := Detached(deviations[current.index]);
        }
        deviations := Loaded(deviations, field);
      }
    }

    /** `initialize`: nothing at all when the feature is off; otherwise the stored log is loaded. */
    method Initialize(field: StoredField)
      requires Valid()
      modifies this
      ensures Valid()
      ensures !enabled ==> isLocked == old(isLocked) && deviations == old(deviations)
                           && current == old(current) && stored == old(stored)
      ensures enabled ==> deviations == Loaded(old(deviations), field)
      ensures isLocked == old(isLocked) && stored == old(stored)
    {
      if enabled {
        Load(field);
      }
    }

    /** The protection checkbox: locks or unlocks directly, logging nothing. */
    method SetProtection(checked: bool)
      requires Valid()
      modifies this
      ensures Valid()
      ensures isLocked == checked
      ensures deviations == old(deviations) && current == old(current) && stored == old(stored)
    {
      isLocked := checked;
    }

    /**
     * `handleDeviationSubmission`: a rejected form changes nothing; an
     * accepted one appends an open record, makes it current, saves the log
     * and unlocks.
     */
    method Submit(analystField: Option<string>, reasonField: Option<string>, descriptionField: Option<string>,
                  nowMs: int, stamp: string, unlock: Instant)
      returns (v: Submission)
      requires Valid()
      modifies this
      ensures Valid()
      ensures v == Validate(analystField, reasonField, descriptionField)
      ensures !v.Accepted? ==>
        isLocked == old(isLocked) && deviations == old(deviations) && current == old(current) && stored == old(stored)
      ensures v.Accepted? ==>
        && deviations == old(deviations) + [NewRecord(v, nowMs, stamp, unlock)]
        && current == InList(|old(deviations)|)
        && !isLocked
        && stored == Some(deviations)
      ensures Extends(old(deviations), deviations)
    {
      hide Validate;
      v := Validate(analystField, reasonField, descriptionField);
      if v.Accepted? {
        var d := NewRecord(v, nowMs, stamp, unlock);
        var grown := deviations + [d];
        AppendExtends(deviations, d);
        assert grown[|grown| - 1].relockTime.None?;
        deviations := grown;
        current := InList(|grown| - 1);
        stored := Some(grown);
        isLocked := false;
      } else {
        ExtendsSelf(deviations);
      }
    }

    /**
     * `lockData`: always ends locked. Only when unlocked with a current
     * deviation is that record closed at `at`, forgotten as current, and the
     * log saved.
     */
    method Lock(at: Instant)
      requires Valid()
      modifies this
      ensures Valid()
      ensures isLocked
      ensures Extends(old(deviations), deviations)
      ensures old(!isLocked && !current.NoCurrent?) ==>
        && current == NoCurrent
        && stored == Some(deviations)
        && deviations == (if old(current).InList? then Relock(old(deviations), old(current).index, at) else old(deviations))
      ensures old(isLocked || current.NoCurrent?) ==>
        deviations == old(deviations) && current == old(current) && stored == old(stored)
    {
      if !current.NoCurrent? && !isLocked {
        if current.InList? {
          RelockExtends(deviations, current.index, at);
          deviations := Relock(deviations, current.index, at);
        }
        current := NoCurrent;
        stored := Some(deviations);
      }
      isLocked := true;
    }

    /** `exportDeviations`: the header, then one line per deviation in log order. */
    method Export(sampleId: Option<string>, displayName: Option<string>, assayName: Option<string>)
      returns (csv: Option<string>)
      ensures csv == ExportCsv(deviations, SampleLabel(sampleId), AssayLabel(displayName, assayName))
    {
      if |deviations| == 0 {
        return None;
      }
      var sample := SampleLabel(sampleId);
      var assay := AssayLabel(displayName, assayName);
      var rows := "";
      var j := 0;
      while j < |deviations|
        invariant 0 <= j <= |deviations|
        invariant rows == Rows(deviations[..j], sample, assay)
      {
        assert deviations[..j + 1][..j] == deviations[..j];
        rows := rows + Row(deviations[j], sample, assay);
        j := j + 1;
      }
      assert deviations[..j] == deviations;
      return Some(Header + rows);
    }
  }

  /** Submitting and then locking leaves exactly one more record, closed at the lock time. */
  lemma SubmitThenLockCloses(devs: seq<Deviation>, v: Submission, nowMs: int, stamp: string, unlock: Instant, at: Instant)
    requires v.Accepted?
    ensures var appended := devs + [NewRecord(v, nowMs, stamp, unlock)];
      var closed := Relock(appended, |devs|, at);
      && |closed| == |devs| + 1
      && closed[..|devs|] == devs
      && closed[|devs|] == NewRecord(v, nowMs, stamp, unlock).(relockTime := Some(at))
      && Extends(devs, closed)
  {
    var appended := devs + [NewRecord(v, nowMs, stamp, unlock)];
    AppendExtends(devs, NewRecord(v, nowMs, stamp, unlock));
    RelockExtends(appended, |devs|, at);
    ExtendsTransitive(devs, appended, Relock(appended, |devs|, at));
    assert Relock(appended, |devs|, at)[..|devs|] == devs;
  }
}
