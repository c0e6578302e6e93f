/**
 * Merging a file's regular readings into one sample's stored instrument
 * results (`ws_instrument_results`, analyte -> test id -> value). For every
 * worksheet analyte whose name does not contain "total", each of the
 * sample's tests with a reading `<analyte>_<testId>_raw` gets that value,
 * and the reading is deleted from the batch readings; every entry already
 * stored is kept unless a new reading replaces it.
 */
module Reconcile {
  import opened JsString
  import opened BatchSheet

  /** `ws_instrument_results` once decoded: analyte code -> test id -> value. */
  type Results = map<string, map<int, real>>

  /** Analytes whose name contains "total" are computed, never read from a file. */
  predicate IsTotal(analyte: string) {
    Includes(analyte, "total")
  }

  // ---------------------------------------------------------------------------
  // One analyte
  // ---------------------------------------------------------------------------

  /**
   * The inner `forEach` over the sample's tests, for one analyte: a test
   * whose reading is present takes it, and the reading is deleted.
   */
  function MergeTests(row: map<int, real>, raw: map<string, real>, analyte: string, tests: seq<int>): (map<int, real>, map<string, real>)
    decreases |tests|
  {
    if tests == [] then (row, raw)
    else
      var key := TestKey(analyte, tests[0]);
      if key in raw then MergeTests(row[tests[0] := raw[key]], raw - {key}, analyte, tests[1..])
      else MergeTests(row, raw, analyte, tests[1..])
  }

  /** The reading keys of one analyte for a list of tests. */
  function TestKeys(analyte: string, tests: seq<int>): set<string> {
    set t | t in tests :: TestKey(analyte, t)
  }

  /** The tests of the list that have a reading for the analyte. */
  function ReadTests(raw: map<string, real>, analyte: string, tests: seq<int>): set<int> {
    set t | t in tests && TestKey(analyte, t) in raw
  }

  /** A stored row with the analyte's new readings laid over it. */
  function Overlaid(row: map<int, real>, raw: map<string, real>, analyte: string, tests: seq<int>): map<int, real> {
    map t | t in row.Keys + ReadTests(raw, analyte, tests) ::
      if t in tests && TestKey(analyte, t) in raw then raw[TestKey(analyte, t)] else row[t]
  }

  /** Taking one test's reading, as seen from the tests after it. */
  lemma OverlaidStep(row: map<int, real>, raw: map<string, real>, analyte: string, tests: seq<int>)
    requires tests != [] && TestKey(analyte, tests[0]) in raw
    ensures var key := TestKey(analyte, tests[0]);
      Overlaid(row[tests[0] := raw[key]], raw - {key}, analyte, tests[1..]) == Overlaid(row, raw, analyte, tests)
  {
    var key := TestKey(analyte, tests[0]);
    var lhs := Overlaid(row[tests[0] := raw[key]], raw - {key}, analyte, tests[1..]);
    var rhs := Overlaid(row, raw, analyte, tests);
    forall t ensures (t in lhs <==> t in rhs) && (t in lhs ==> lhs[t] == rhs[t]) {
      OverlaidStepAt(row, raw, analyte, tests, t);
    }
  }

  /** OverlaidStep at one test id. */
  lemma OverlaidStepAt(row: map<int, real>, raw: map<string, real>, analyte: string, tests: seq<int>, t: int)
    requires tests != [] && TestKey(analyte, tests[0]) in raw
    ensures var key := TestKey(analyte, tests[0]);
      var lhs := Overlaid(row[tests[0] := raw[key]], raw - {key}, analyte, tests[1..]);
      var rhs := Overlaid(row, raw, analyte, tests);
      (t in lhs <==> t in rhs) && (t in lhs ==> lhs[t] == rhs[t])
  {
    if t != tests[0] {
      if TestKey(analyte, t) == TestKey(analyte, tests[0]) {
        TestKeyInjective(analyte, t, analyte, tests[0]);
      }
      if t in tests {
        assert t in tests[1..];
      }
    }
  }

  /** Skipping a test without a reading, as seen from the tests after it. */
  lemma OverlaidSkip(row: map<int, real>, raw: map<string, real>, analyte: string, tests: seq<int>)
    requires tests != [] && TestKey(analyte, tests[0]) !in raw
    ensures Overlaid(row, raw, analyte, tests[1..]) == Overlaid(row, raw, analyte, tests)
  {
    var lhs := Overlaid(row, raw, analyte, tests[1..]);
    var rhs := Overlaid(row, raw, analyte, tests);
    forall t ensures t in lhs <==> t in rhs {
      if t != tests[0] && t in tests {
        assert t in tests[1..];
      }
    }
    forall t | t in lhs ensures lhs[t] == rhs[t] {
      if t != tests[0] && t in tests {
        assert t in tests[1..];
      }
    }
  }

  /**
   * The test loop in closed form: the row gains every test that has a
   * reading, with that reading, and keeps every other entry; exactly the
   * analyte's keys for those tests leave the batch readings.
   */
  lemma {:induction false} MergeTestsClosed(row: map<int, real>, raw: map<string, real>, analyte: string, tests: seq<int>)
    ensures MergeTests(row, raw, analyte, tests) == (Overlaid(row, raw, analyte, tests), raw - TestKeys(analyte, tests))
    decreases |tests|
  {
    if tests == [] {
      assert ReadTests(raw, analyte, tests) == {};
      assert Overlaid(row, raw, analyte, tests) == row;
      assert TestKeys(analyte, tests) == {};
      assert raw - TestKeys(analyte, tests) == raw;
    } else {
      var key := TestKey(analyte, tests[0]);
      assert TestKeys(analyte, tests) == {key} + TestKeys(analyte, tests[1..]);
      if key in raw {
        MergeTestsClosed(row[tests[0] := raw[key]], raw - {key}, analyte, tests[1..]);
        OverlaidStep(row, raw, analyte, tests);
        assert raw - {key} - TestKeys(analyte, tests[1..]) == raw - TestKeys(analyte, tests);
      } else {
        MergeTestsClosed(row, raw, analyte, tests[1..]);
        OverlaidSkip(row, raw, analyte, tests);
        assert raw - TestKeys(analyte, tests[1..]) == raw - TestKeys(analyte, tests);
      }
    }
  }

  // ---------------------------------------------------------------------------
  // All analytes
  // ---------------------------------------------------------------------------

  /** The row an analyte starts from: its stored results, or `{}` when it has none. */
  function Base(update: Results, analyte: string): map<int, real> {
    if analyte in update then update[analyte] else map[]
  }

  /**
   * The outer `forEach` over the worksheet analytes: a "total" analyte is
   * skipped; any other gets its row (created empty when missing) merged with
   * the sample's tests.
   */
  function MergeAnalytes(update: Results, raw: map<string, real>, analytes: seq<string>, tests: seq<int>): (Results, map<string, real>)
    decreases |analytes|
  {
    if analytes == [] then (update, raw)
    else if IsTotal(analytes[0]) then MergeAnalytes(update, raw, analytes[1..], tests)
    else
      var merged := MergeTests(Base(update, analytes[0]), raw, analytes[0], tests);
      MergeAnalytes(update[analytes[0] := merged.0], merged.1, analytes[1..], tests)
  }

  /** The analytes the merge writes: the listed ones without "total". */
  predicate Merged(analytes: seq<string>, a: string) {
    a in analytes && !IsTotal(a)
  }

  /** Every reading key the merge consumes from the batch readings. */
  function Consumed(analytes: seq<string>, tests: seq<int>): set<string> {
    set a, t | a in analytes && !IsTotal(a) && t in tests :: TestKey(a, t)
  }

  /** A batch of readings with another analyte's keys removed still holds this analyte's readings. */
  lemma OtherAnalyteKeys(raw: map<string, real>, a: string, b: string, tests: seq<int>, t: int)
    requires a != b
    ensures TestKey(a, t) in raw - TestKeys(b, tests) <==> TestKey(a, t) in raw
  {
    if TestKey(a, t) in TestKeys(b, tests) {
      var u :| u in tests && TestKey(b, u) == TestKey(a, t);
      TestKeyInjective(b, u, a, t);
    }
  }

  /** Removing another analyte's keys leaves this analyte's overlay as it was. */
  lemma OverlaidIgnoresOthers(row: map<int, real>, raw: map<string, real>, a: string, b: string, tests: seq<int>)
    requires a != b
    ensures Overlaid(row, raw - TestKeys(b, tests), a, tests) == Overlaid(row, raw, a, tests)
  {
    forall t {
      OtherAnalyteKeys(raw, a, b, tests, t);
    }
    assert ReadTests(raw - TestKeys(b, tests), a, tests) == ReadTests(raw, a, tests);
  }

  /** Once an analyte's keys for the tests are gone, merging it again adds nothing. */
  lemma OverlaidConsumed(row: map<int, real>, raw: map<string, real>, a: string, tests: seq<int>)
    requires forall t :: t in tests ==> TestKey(a, t) !in raw
    ensures Overlaid(row, raw, a, tests) == row
  {
    assert ReadTests(raw, a, tests) == {};
  }

  /**
   * What the merge leaves stored for one analyte: a written analyte holds its
   * stored row (or `{}`) overlaid with its readings for the sample's tests;
   * any other analyte keeps its stored row.
   */
  function ResultAt(update: Results, raw: map<string, real>, analytes: seq<string>, tests: seq<int>, a: string): map<int, real> {
    if Merged(analytes, a) then Overlaid(Base(update, a), raw, a, tests) else Base(update, a)
  }

  /** Merging the first analyte, as seen from the analytes after it, at one analyte. */
  lemma ResultAtStep(update: Results, raw: map<string, real>, analytes: seq<string>, tests: seq<int>, a: string)
    requires analytes != [] && !IsTotal(analytes[0])
    ensures var a0 := analytes[0];
      var update' := update[a0 := Overlaid(Base(update, a0), raw, a0, tests)];
      ResultAt(update', raw - TestKeys(a0, tests), analytes[1..], tests, a) == ResultAt(update, raw, analytes, tests, a)
  {
    var a0 := analytes[0];
    var update' := update[a0 := Overlaid(Base(update, a0), raw, a0, tests)];
    var raw' := raw - TestKeys(a0, tests);
    assert a in analytes <==> a == a0 || a in analytes[1..];
    if a == a0 {
      if Merged(analytes[1..], a) {
        forall t | t in tests ensures TestKey(a, t) !in raw' {
        }
        OverlaidConsumed(Base(update', a), raw', a, tests);
      }
    } else if Merged(analytes[1..], a) {
      OverlaidIgnoresOthers(Base(update, a), raw, a, a0, tests);
    }
  }

  /**
   * The merge at one analyte, in closed form: the analyte is stored after the
   * merge exactly when it was stored before or the merge writes it, and then
   * it holds `ResultAt`.
   */
  lemma {:induction false} MergeAnalytesAt(update: Results, raw: map<string, real>, analytes: seq<string>, tests: seq<int>, a: string)
    ensures var r := MergeAnalytes(update, raw, analytes, tests).0;
      && (a in r <==> a in update || Merged(analytes, a))
      && (a in r ==> r[a] == ResultAt(update, raw, analytes, tests, a))
    decreases |analytes|
  {
    if analytes != [] {
      var a0 := analytes[0];
      assert a in analytes <==> a == a0 || a in analytes[1..];
      if IsTotal(a0) {
        MergeAnalytesAt(update, raw, analytes[1..], tests, a);
      } else {
        MergeTestsClosed(Base(update, a0), raw, a0, tests);
        var update' := update[a0 := Overlaid(Base(update, a0), raw, a0, tests)];
        MergeAnalytesAt(update', raw - TestKeys(a0, tests), analytes[1..], tests, a);
        ResultAtStep(update, raw, analytes, tests, a);
      }
    }
  }

  /** Exactly the consumed keys leave the batch readings. */
  lemma {:induction false} MergeAnalytesConsumes(update: Results, raw: map<string, real>, analytes: seq<string>, tests: seq<int>)
    ensures MergeAnalytes(update, raw, analytes, tests).1 == raw - Consumed(analytes, tests)
    decreases |analytes|
  {
    if analytes == [] {
      assert Consumed(analytes, tests) == {};
    } else {
      var a0 := analytes[0];
      var rest := analytes[1..];
      assert forall a :: a in analytes <==> a == a0 || a in rest;
      if IsTotal(a0) {
        MergeAnalytesConsumes(update, raw, rest, tests);
        assert Consumed(analytes, tests) == Consumed(rest, tests);
      } else {
        MergeTestsClosed(Base(update, a0), raw, a0, tests);
        var update' := update[a0 := Overlaid(Base(update, a0), raw, a0, tests)];
        MergeAnalytesConsumes(update', raw - TestKeys(a0, tests), rest, tests);
        assert Consumed(analytes, tests) == TestKeys(a0, tests) + Consumed(rest, tests);
        assert raw - TestKeys(a0, tests) - Consumed(rest, tests) == raw - Consumed(analytes, tests);
      }
    }
  }

  // ---------------------------------------------------------------------------
  // Properties of the merge
  // ---------------------------------------------------------------------------

  /**
   * The merge never loses a stored entry: every (analyte, test) pair stored
   * before is still stored, and its value changes only when the file had a
   * reading for it.
   */
  lemma MergeKeepsEntries(update: Results, raw: map<string, real>, analytes: seq<string>, tests: seq<int>, a: string, t: int)
    requires a in update && t in update[a]
    ensures var r := MergeAnalytes(update, raw, analytes, tests).0;
      && a in r && t in r[a]
      && (r[a][t] != update[a][t] ==> Merged(analytes, a) && t in tests && TestKey(a, t) in raw)
  {
    MergeAnalytesAt(update, raw, analytes, tests, a);
  }

  /** Every reading of a written analyte for one of the sample's tests ends up stored, with its value. */
  lemma MergeStoresReadings(update: Results, raw: map<string, real>, analytes: seq<string>, tests: seq<int>, a: string, t: int)
    requires Merged(analytes, a) && t in tests && TestKey(a, t) in raw
    ensures var r := MergeAnalytes(update, raw, analytes, tests).0;
      a in r && t in r[a] && r[a][t] == raw[TestKey(a, t)]
  {
    MergeAnalytesAt(update, raw, analytes, tests, a);
  }

  /** A stored test value comes either from before the merge or from the file's reading for it. */
  lemma MergeValuesFromReadings(update: Results, raw: map<string, real>, analytes: seq<string>, tests: seq<int>, a: string, t: int)
    requires var r := MergeAnalytes(update, raw, analytes, tests).0; a in r && t in r[a]
    ensures var r := MergeAnalytes(update, raw, analytes, tests).0;
      || (a in update && t in update[a] && r[a][t] == update[a][t])
      || (Merged(analytes, a) && t in tests && TestKey(a, t) in raw && r[a][t] == raw[TestKey(a, t)])
  {
    MergeAnalytesAt(update, raw, analytes, tests, a);
  }

  /** Merging a second time with what is left of the readings changes nothing. */
  lemma MergeIdempotent(update: Results, raw: map<string, real>, analytes: seq<string>, tests: seq<int>)
    ensures var r := MergeAnalytes(update, raw, analytes, tests);
      MergeAnalytes(r.0, r.1, analytes, tests) == r
  {
    var r := MergeAnalytes(update, raw, analytes, tests);
    var again := MergeAnalytes(r.0, r.1, analytes, tests);
    MergeAnalytesConsumes(update, raw, analytes, tests);
    MergeAnalytesConsumes(r.0, r.1, analytes, tests);
    assert again.1 == r.1;
    forall a
      ensures a in again.0 <==> a in r.0
      ensures a in r.0 ==> again.0[a] == r.0[a]
    {
      MergeAnalytesAt(update, raw, analytes, tests, a);
      MergeAnalytesAt(r.0, r.1, analytes, tests, a);
      if Merged(analytes, a) {
        forall t | t in tests ensures TestKey(a, t) !in r.1 {
        }
        OverlaidConsumed(Base(r.0, a), r.1, a, tests);
      }
    }
    assert again.0 == r.0;
  }

  // ---------------------------------------------------------------------------
  // The loops
  // ---------------------------------------------------------------------------

  /** The test loop for one analyte. */
  method MergeTestsLoop(row: map<int, real>, raw: map<string, real>, analyte: string, tests: seq<int>)
    returns (row': map<int, real>, raw': map<string, real>)
    ensures (row', raw') == MergeTests(row, raw, analyte, tests)
  {
    row', raw' := row, raw;
    var j := 0;
    while j < |tests|
      invariant 0 <= j <= |tests|
      invariant MergeTests(row', raw', analyte, tests[j..]) == MergeTests(row, raw, analyte, tests)
    {
      assert tests[j..][1..] == tests[j + 1..];
      var key := TestKey(analyte, tests[j]);
      if key in raw' {
        row' := row'[tests[j] := raw'[key]];
        raw' := raw' - {key};
      }
      j := j + 1;
    }
  }

  /**
   * The merge for one sample: for every worksheet analyte without "total",
   * its stored row (created empty when missing) takes the sample's tests'
   * readings, which are deleted from the batch readings.
   */
  method MergeSample(update: Results, raw: map<string, real>, analytes: seq<string>, tests: seq<int>)
    returns (update': Results, raw': map<string, real>)
    ensures (update', raw') == MergeAnalytes(update, raw, analytes, tests)
  {
    update', raw' := update, raw;
    var i := 0;
    while i < |analytes|
      invariant 0 <= i <= |analytes|
      invariant MergeAnalytes(update', raw', analytes[i..], tests) == MergeAnalytes(update, raw, analytes, tests)
    {
      assert analytes[i..][1..] == analytes[i + 1..];
      var a := analytes[i];
      if !Includes(a, "total") {
        var row := if a in update' then update'[a] else map[];
        var merged, rest := MergeTestsLoop(row, raw', a, tests);
        update' := update'[a := merged];
        raw' := rest;
      }
      i := i + 1;
    }
  }
}
