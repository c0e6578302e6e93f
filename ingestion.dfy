/**
 * One run of the instrument-file import over a list of uploaded files. For
 * each file: its batch id comes from the file name; the assay's
 * configuration comes through a cache that lasts the whole run; the batch's
 * test listing is folded page by page into the test index; each batch
 * sample's QC flag is settled through a second run-long cache; the rows
 * build the batch worksheet; each regular sample's readings are merged into
 * its first test's stored instrument results; and the batch worksheet is
 * patched with what is left.
 *
 * The services are inputs: `Services` holds what each lookup answers, and a
 * key that is missing stands for a lookup that fails. The stored per-test
 * instrument results and the requests made are fields of `Session`, so what
 * one file leaves behind for the next is visible.
 */
module Ingestion {
  import opened Wrappers
  import opened JsString
  import opened FileParse
  import TestIndex
  import opened BatchSheet
  import opened Reconcile

  /** An uploaded file: its name and its text. */
  datatype UploadedFile = UploadedFile(name: string, text: string)

  /** What a batch lookup answers: the batch's assay id and the id of the assay's parameter record. */
  datatype Batch = Batch(assayId: int, paramsId: int)

  /**
   * An assay's parameter record: `data_columns_to_analytes`, `qc_types`
   * (`[]` when the record has none) and `worksheet_analytes`; None is a
   * property the record lacks.
   */
  datatype AssayConfig = AssayConfig(labels: Option<map<string, string>>, qcTypes: seq<string>, analytes: Option<seq<string>>)

  /** What a parameter fetch yields as `kvstore.data.data`: nothing at all, or a record. */
  datatype ParamRecord = NoData | Record(config: AssayConfig)

  /**
   * The answers of the services a run consults: batch lookups by batch id,
   * parameter records by id, each batch's listing pages (page `k + 1` at
   * index `k`), and each sample's `qc_flag === true`; a missing key is a
   * failed request. The tests whose worksheet update fails and the batches
   * whose worksheet patch fails are named outright.
   */
  datatype Services = Services(
    batches: map<string, Batch>,
    params: map<int, ParamRecord>,
    listings: map<string, seq<TestIndex.Page>>,
    samples: map<nat, bool>,
    failedUpdates: set<int>,
    failedPatches: set<string>)

  /**
   * How a file ends: the batch or the parameters could not be fetched, the
   * parameters held no data, a listing page could not be fetched, the
   * header row met a record without a column map, the batch patch was
   * refused, or the batch was patched.
   */
  datatype Outcome =
    | BatchNotFound
    | ConfigUnavailable
    | ConfigMissing
    | ListingFailed
    | NoColumnMap
    | PatchFailed(payload: Sheet)
    | Patched(payload: Sheet)

  /** The column map a header row consults; a record without one never reaches the header row. */
  function LabelsOf(config: AssayConfig): map<string, string> {
    if config.labels.Some? then config.labels.value else map[]
  }

  /** The batch id of a file: the lower-cased name with its first ".csv" removed. */
  function BatchId(name: string): string {
    ReplaceFirst(ToLower(name), ".csv", "")
  }

  /** A name ending in ".csv", with no other ".csv" in it, names the batch it starts with, lower-cased. */
  lemma BatchIdOfCsvName(base: string)
    requires !Includes(ToLower(base), ".csv")
    ensures BatchId(base + ".csv") == ToLower(base)
  {
    var lower := ToLower(base);
    var s := ToLower(base + ".csv");
    assert s == lower + ".csv";
    forall j: nat | j < |base| ensures !OccursAt(s, ".csv", j) {
      NoCsvBefore(lower, j);
    }
    assert OccursAt(s, ".csv", |base|);
    IndexOfFirst(s, ".csv", |base|);
    assert s[..|base|] + "" + s[|base| + 4..] == lower;
  }

  /** Before the appended ".csv", a name without ".csv" has no occurrence of it. */
  lemma NoCsvBefore(lower: string, j: nat)
    requires !Includes(lower, ".csv") && j < |lower|
    ensures !OccursAt(lower + ".csv", ".csv", j)
  {
    var s := lower + ".csv";
    if j + 4 <= |lower| {
      if OccursAt(s, ".csv", j) {
        assert lower[j..j + 4] == s[j..j + 4];
        IncludesAt(lower, ".csv", j);
      }
    } else {
      assert s[|lower|] == '.';
      assert s[j..j + 4][|lower| - j] == s[|lower|];
      assert ".csv"[|lower| - j] != '.';
    }
  }

  /** Only the first ".csv" goes: "a.csv.csv" is batch "a.csv". */
  lemma BatchIdReplacesFirstOnly()
    ensures BatchId("a.csv.csv") == "a.csv"
  {
    var s := ToLower("a.csv.csv");
    assert s == "a.csv.csv";
    assert s[0..4][0] == 'a';
    assert OccursAt(s, ".csv", 1);
    IndexOfFirst(s, ".csv", 1);
    assert s[..1] + "" + s[5..] == "a.csv";
  }

  // ---------------------------------------------------------------------------
  // The test listing
  // ---------------------------------------------------------------------------

  /** The tests of the first `n` listing pages, in order. */
  function PageTests(pages: seq<TestIndex.Page>, n: nat): seq<TestIndex.TestRef>
    requires n <= |pages|
  {
    if n == 0 then [] else PageTests(pages, n - 1) + pages[n - 1].tests
  }

  /** How many pages the listing has: `total_pages`, and the first page even when that is below 1. */
  function PageCount(totalPages: int): (r: nat)
    ensures r >= 1
  {
    if totalPages <= 1 then 1 else totalPages
  }

  /** Folding a listing in two parts is folding it whole. */
  lemma {:induction false} AddTestsAppend(idx: TestIndex.Index, a: seq<TestIndex.TestRef>, b: seq<TestIndex.TestRef>)
    requires TestIndex.Valid(idx)
    ensures TestIndex.AddTests(idx, a + b) == TestIndex.AddTests(TestIndex.AddTests(idx, a), b)
    decreases |b|
  {
    if b == [] {
      assert a + b == a;
    } else {
      assert (a + b)[..|a + b| - 1] == a + b[..|b| - 1];
      AddTestsAppend(idx, a, b[..|b| - 1]);
    }
  }

  /** One page's `forEach`: every test of the page is added to the index, in order. */
  method AddPage(idx: TestIndex.Index, tests: seq<TestIndex.TestRef>) returns (r: TestIndex.Index)
    requires TestIndex.Valid(idx)
    ensures r == TestIndex.AddTests(idx, tests)
  {
    r := idx;
    var j := 0;
    while j < |tests|
      invariant 0 <= j <= |tests|
      invariant r == TestIndex.AddTests(idx, tests[..j])
    {
      assert tests[..j + 1][..j] == tests[..j];
      r := TestIndex.AddTest(r, tests[j]);
      j := j + 1;
    }
    assert tests[..|tests|] == tests;
  }

  /** The index after folding the first `n` listing pages, page by page. */
  function PagesIndex(pages: seq<TestIndex.Page>, n: nat): (r: TestIndex.Index)
    requires n <= |pages|
    ensures TestIndex.Valid(r)
  {
    if n == 0 then TestIndex.EmptyValid(); TestIndex.Empty
    else TestIndex.AddTests(PagesIndex(pages, n - 1), pages[n - 1].tests)
  }

  /** Folding page by page is folding the pages' tests as one listing. */
  lemma {:induction false} PagesIndexIsBuild(pages: seq<TestIndex.Page>, n: nat)
    requires n <= |pages|
    ensures PagesIndex(pages, n) == TestIndex.Build(PageTests(pages, n))
  {
    TestIndex.EmptyValid();
    if n > 0 {
      PagesIndexIsBuild(pages, n - 1);
      AddTestsAppend(TestIndex.Empty, PageTests(pages, n - 1), pages[n - 1].tests);
    }
  }

  /** The whole listing's index, when every page can be fetched. */
  function ListingIndex(pages: seq<TestIndex.Page>): (r: Option<TestIndex.Index>)
    ensures r.Some? ==> TestIndex.Valid(r.value)
  {
    if pages != [] && PageCount(pages[0].totalPages) <= |pages| then
      Some(PagesIndex(pages, PageCount(pages[0].totalPages)))
    else None
  }

  /** How many listing pages are requested: every page, or up to the first that cannot be fetched. */
  function Requests(pages: seq<TestIndex.Page>): nat {
    if pages == [] then 1
    else if PageCount(pages[0].totalPages) <= |pages| then PageCount(pages[0].totalPages)
    else |pages| + 1
  }

  /**
   * A listing that can be fetched whole takes page 1 and then exactly
   * `total_pages - 1` more requests; one that cannot stops at the first page
   * missing.
   */
  lemma ListingRequests(pages: seq<TestIndex.Page>)
    ensures ListingIndex(pages).Some? ==> Requests(pages) == 1 + |TestIndex.FollowUpPages(pages[0].totalPages)|
    ensures ListingIndex(pages).Some? && pages[0].totalPages >= 1 ==> Requests(pages) - 1 == pages[0].totalPages - 1
    ensures ListingIndex(pages).None? ==> Requests(pages) == |pages| + 1
  {
  }

  /**
   * Fetches page 1 and then pages 2 to `total_pages` of a batch's listing,
   * folding each into the index; the first page that cannot be fetched ends
   * the file. Returns the index and the page numbers requested.
   */
  method ListTests(pages: seq<TestIndex.Page>) returns (r: Option<TestIndex.Index>, requested: seq<nat>)
    ensures r == ListingIndex(pages)
    ensures |requested| == Requests(pages)
    ensures forall k :: 0 <= k < |requested| ==> requested[k] == k + 1
  {
    requested := [1];
    if pages == [] {
      return None, requested;
    }
    TestIndex.EmptyValid();
    var idx := AddPage(TestIndex.Empty, pages[0].tests);
    var total := pages[0].totalPages;
    var i := 1;
    while i < total
      invariant 1 <= i <= |pages|
      invariant i == 1 || i <= total
      invariant idx == PagesIndex(pages, i)
      invariant |requested| == i && forall k :: 0 <= k < i ==> requested[k] == k + 1
    {
      requested := requested + [i + 1];
      if i >= |pages| {
        return None, requested;
      }
      idx := AddPage(idx, pages[i].tests);
      i := i + 1;
    }
    return Some(idx), requested;
  }

  // ---------------------------------------------------------------------------
  // QC flags
  // ---------------------------------------------------------------------------

  /** A list with no repeated element. */
  predicate Distinct(xs: seq<nat>) {
    forall i, j :: 0 <= i < j < |xs| ==> xs[i] != xs[j]
  }

  /** A sample's QC status as fetched: `qc_flag === true`, and not QC when the fetch fails. */
  predicate Flag(services: Services, s: nat) {
    s in services.samples && services.samples[s]
  }

  /**
   * The QC-flag cache after settling the samples of a list in order: a
   * sample already in the cache keeps its entry; any other is fetched and
   * its flag cached.
   */
  function Settle(cache: map<nat, bool>, samples: seq<nat>, services: Services): map<nat, bool> {
    if samples == [] then cache
    else
      var before := Settle(cache, samples[..|samples| - 1], services);
      var s := samples[|samples| - 1];
      if s in before then before else before[s := Flag(services, s)]
  }

  /** The samples fetched while settling a list, in order. */
  function Fetched(cache: map<nat, bool>, samples: seq<nat>, services: Services): seq<nat> {
    if samples == [] then []
    else
      var s := samples[|samples| - 1];
      Fetched(cache, samples[..|samples| - 1], services) + (if s in Settle(cache, samples[..|samples| - 1], services) then [] else [s])
  }

  /** `qcSampleIds`: the samples of a list whose settled flag is set. */
  function QcOf(cache: map<nat, bool>, samples: seq<nat>, services: Services): set<nat> {
    if samples == [] then {}
    else
      var s := samples[|samples| - 1];
      QcOf(cache, samples[..|samples| - 1], services) + (if Settle(cache, samples, services)[s] then {s} else {})
  }

  /**
   * Settling in closed form: the cache ends with the old entries and the
   * listed samples; a cached flag is kept, and an uncached sample gets its
   * fetched flag.
   */
  lemma {:induction false} SettledFlag(cache: map<nat, bool>, samples: seq<nat>, services: Services, x: nat)
    ensures x in Settle(cache, samples, services) <==> x in cache || x in samples
    ensures x in Settle(cache, samples, services) ==>
      Settle(cache, samples, services)[x] == if x in cache then cache[x] else Flag(services, x)
    decreases |samples|
  {
    if samples != [] {
      SettledFlag(cache, samples[..|samples| - 1], services, x);
      assert x in samples <==> x in samples[..|samples| - 1] || x == samples[|samples| - 1];
    }
  }

  /** Exactly the uncached samples are fetched, each once, even when the list repeats a sample. */
  lemma {:induction false} FetchedOnce(cache: map<nat, bool>, samples: seq<nat>, services: Services)
    ensures Distinct(Fetched(cache, samples, services))
    ensures forall x :: x in Fetched(cache, samples, services) <==> x in samples && x !in cache
    decreases |samples|
  {
    if samples != [] {
      var init := samples[..|samples| - 1];
      var s := samples[|samples| - 1];
      FetchedOnce(cache, init, services);
      SettledFlag(cache, init, services, s);
      forall x ensures x in Fetched(cache, samples, services) <==> x in samples && x !in cache {
        SettledFlag(cache, init, services, x);
        assert x in samples <==> x in init || x == s;
      }
    }
  }

  /** `qcSampleIds` holds exactly the listed samples whose settled flag is set. */
  lemma {:induction false} QcOfSettled(cache: map<nat, bool>, samples: seq<nat>, services: Services, x: nat)
    ensures x in QcOf(cache, samples, services) <==> x in samples && x in Settle(cache, samples, services) && Settle(cache, samples, services)[x]
    decreases |samples|
  {
    if samples != [] {
      var init := samples[..|samples| - 1];
      QcOfSettled(cache, init, services, x);
      SettledFlag(cache, init, services, x);
      SettledFlag(cache, samples, services, x);
      assert x in samples <==> x in init || x == samples[|samples| - 1];
    }
  }

  /** Settling is done once per sample: settling the same list again fetches nothing and changes nothing. */
  lemma SettleAgain(cache: map<nat, bool>, samples: seq<nat>, services: Services)
    ensures Settle(Settle(cache, samples, services), samples, services) == Settle(cache, samples, services)
    ensures Fetched(Settle(cache, samples, services), samples, services) == []
  {
    var settled := Settle(cache, samples, services);
    var again := Settle(settled, samples, services);
    forall x ensures (x in again <==> x in settled) && (x in again ==> again[x] == settled[x]) {
      SettledFlag(settled, samples, services, x);
      SettledFlag(cache, samples, services, x);
    }
    forall x | x in samples ensures x in settled {
      SettledFlag(cache, samples, services, x);
    }
    FetchedCached(settled, samples, services);
  }

  /** A list whose samples are all cached fetches nothing. */
  lemma {:induction false} FetchedCached(cache: map<nat, bool>, samples: seq<nat>, services: Services)
    requires forall x :: x in samples ==> x in cache
    ensures Fetched(cache, samples, services) == []
    decreases |samples|
  {
    if samples != [] {
      FetchedCached(cache, samples[..|samples| - 1], services);
      SettledFlag(cache, samples[..|samples| - 1], services, samples[|samples| - 1]);
    }
  }

  // ---------------------------------------------------------------------------
  // Merging each sample's readings into its first test
  // ---------------------------------------------------------------------------

  /** The stored per-test instrument results, the batch readings not yet consumed, and the tests updated. */
  datatype Store = Store(worksheets: map<int, Results>, raw: map<string, real>, updates: seq<int>)

  /**
   * One sample of the update loop. A QC sample is skipped; so is a sample
   * whose first test is not in the file order, one whose first test's
   * worksheet cannot be fetched, and every sample when the record has no
   * `worksheet_analytes`. Otherwise the readings of all the sample's tests
   * are taken out of the batch readings and laid over the first test's
   * results, which are stored unless the update is refused.
   */
  function MergeStep(st: Store, bySample: map<nat, seq<int>>, s: nat, order: seq<OrderEntry>, qc: set<nat>,
                     analytes: Option<seq<string>>, failed: set<int>): Store {
    if s in qc || s !in bySample || bySample[s] == [] then st
    else
      var t := bySample[s][0];
      if TestEntry(t) !in order || t !in st.worksheets || analytes.None? then st
      else
        var merged := MergeAnalytes(st.worksheets[t], st.raw, analytes.value, bySample[s]);
        if t in failed then st.(raw := merged.1)
        else Store(st.worksheets[t := merged.0], merged.1, st.updates + [t])
  }

  /** The update loop over the samples, in enumeration order. */
  function MergeAll(st: Store, bySample: map<nat, seq<int>>, samples: seq<nat>, order: seq<OrderEntry>, qc: set<nat>,
                    analytes: Option<seq<string>>, failed: set<int>): Store {
    if samples == [] then st
    else MergeStep(MergeAll(st, bySample, samples[..|samples| - 1], order, qc, analytes, failed), bySample, samples[|samples| - 1], order, qc, analytes, failed)
  }

  /** An updated test is the first test of a non-QC sample, it is in the file order, and its update is accepted. */
  predicate UpdatableTest(bySample: map<nat, seq<int>>, samples: seq<nat>, order: seq<OrderEntry>, qc: set<nat>, failed: set<int>, t: int) {
    && t !in failed
    && exists s :: s in samples && s !in qc && s in bySample && bySample[s] != [] && bySample[s][0] == t && TestEntry(t) in order
  }

  /**
   * QC samples are never written back, and a test is written back only as
   * the first test of a listed sample whose id is in the file order, and
   * only when its update is accepted.
   */
  lemma {:induction false} MergeAllUpdates(st: Store, bySample: map<nat, seq<int>>, samples: seq<nat>, order: seq<OrderEntry>, qc: set<nat>,
                                           analytes: Option<seq<string>>, failed: set<int>)
    ensures var r := MergeAll(st, bySample, samples, order, qc, analytes, failed);
      && |st.updates| <= |r.updates| && r.updates[..|st.updates|] == st.updates
      && forall k :: |st.updates| <= k < |r.updates| ==> UpdatableTest(bySample, samples, order, qc, failed, r.updates[k])
    decreases |samples|
  {
    if samples != [] {
      var init := samples[..|samples| - 1];
      var s := samples[|samples| - 1];
      MergeAllUpdates(st, bySample, init, order, qc, analytes, failed);
      var mid := MergeAll(st, bySample, init, order, qc, analytes, failed);
      var r := MergeStep(mid, bySample, s, order, qc, analytes, failed);
      forall k | |st.updates| <= k < |r.updates|
        ensures UpdatableTest(bySample, samples, order, qc, failed, r.updates[k])
      {
        if k < |mid.updates| {
          assert r.updates[k] == mid.updates[k];
          var w :| w in init && w !in qc && w in bySample && bySample[w] != [] && bySample[w][0] == r.updates[k] && TestEntry(r.updates[k]) in order;
          assert w in samples;
        } else {
          assert s in samples;
        }
      }
    }
  }

  /**
   * The update loop never loses a stored result: every stored test keeps
   * every (analyte, test) entry it had, whether its update is accepted,
   * refused or never attempted.
   */
  lemma {:induction false} MergeAllKeepsEntries(st: Store, bySample: map<nat, seq<int>>, samples: seq<nat>, order: seq<OrderEntry>, qc: set<nat>,
                                                 analytes: Option<seq<string>>, failed: set<int>, test: int, a: string, t: int)
    requires test in st.worksheets && a in st.worksheets[test] && t in st.worksheets[test][a]
    ensures var r := MergeAll(st, bySample, samples, order, qc, analytes, failed);
      test in r.worksheets && a in r.worksheets[test] && t in r.worksheets[test][a]
    decreases |samples|
  {
    if samples != [] {
      var init := samples[..|samples| - 1];
      var s := samples[|samples| - 1];
      MergeAllKeepsEntries(st, bySample, init, order, qc, analytes, failed, test, a, t);
      var mid := MergeAll(st, bySample, init, order, qc, analytes, failed);
      if s !in qc && s in bySample && bySample[s] != [] && bySample[s][0] == test
        && TestEntry(test) in order && analytes.Some? && test !in failed {
        MergeKeepsEntries(mid.worksheets[test], mid.raw, analytes.value, bySample[s], a, t);
      }
    }
  }

  /** The readings left for the batch patch are some of the file's, with their values. */
  lemma {:induction false} MergeAllLeavesReadings(st: Store, bySample: map<nat, seq<int>>, samples: seq<nat>, order: seq<OrderEntry>, qc: set<nat>,
                                                   analytes: Option<seq<string>>, failed: set<int>)
    ensures var r := MergeAll(st, bySample, samples, order, qc, analytes, failed);
      forall k :: k in r.raw ==> k in st.raw && r.raw[k] == st.raw[k]
    decreases |samples|
  {
    if samples != [] {
      var init := samples[..|samples| - 1];
      var s := samples[|samples| - 1];
      MergeAllLeavesReadings(st, bySample, init, order, qc, analytes, failed);
      var mid := MergeAll(st, bySample, init, order, qc, analytes, failed);
      if s !in qc && s in bySample && bySample[s] != [] {
        var t := bySample[s][0];
        if TestEntry(t) in order && t in mid.worksheets && analytes.Some? {
          MergeAnalytesConsumes(mid.worksheets[t], mid.raw, analytes.value, bySample[s]);
        }
      }
    }
  }

  /**
   * A refused update loses the sample's readings: they were taken out of
   * the batch readings before the update was sent, so they reach neither
   * the stored results nor the batch patch.
   */
  lemma FailedUpdateLosesReadings(st: Store, bySample: map<nat, seq<int>>, s: nat, order: seq<OrderEntry>, qc: set<nat>,
                                  analytes: seq<string>, failed: set<int>, a: string, t: int)
    requires s !in qc && s in bySample && bySample[s] != []
    requires TestEntry(bySample[s][0]) in order && bySample[s][0] in st.worksheets && bySample[s][0] in failed
    requires Merged(analytes, a) && t in bySample[s] && TestKey(a, t) in st.raw
    ensures var r := MergeStep(st, bySample, s, order, qc, Some(analytes), failed);
      r.worksheets == st.worksheets && TestKey(a, t) !in r.raw
  {
    MergeAnalytesConsumes(st.worksheets[bySample[s][0]], st.raw, analytes, bySample[s]);
    assert TestKey(a, t) in Consumed(analytes, bySample[s]);
  }

  /**
   * The update step as evidently intended: the readings are given up only
   * when the update that carries them is accepted; a refused update leaves
   * them for the batch patch.
   */
  function MergeStepKept(st: Store, bySample: map<nat, seq<int>>, s: nat, order: seq<OrderEntry>, qc: set<nat>,
                         analytes: Option<seq<string>>, failed: set<int>): Store {
    if s !in qc && s in bySample && bySample[s] != [] && bySample[s][0] in failed then st
    else MergeStep(st, bySample, s, order, qc, analytes, failed)
  }

  /** With the intended step, every reading of the batch either stays for the patch or is stored with its value. */
  lemma KeptStepLosesNoReading(st: Store, bySample: map<nat, seq<int>>, s: nat, order: seq<OrderEntry>, qc: set<nat>,
                               analytes: Option<seq<string>>, failed: set<int>, a: string, t: int)
    requires TestKey(a, t) in st.raw
    ensures var r := MergeStepKept(st, bySample, s, order, qc, analytes, failed);
      || (TestKey(a, t) in r.raw && r.raw[TestKey(a, t)] == st.raw[TestKey(a, t)])
      || (&& s in bySample && bySample[s] != []
          && var first := bySample[s][0];
          first in r.worksheets && a in r.worksheets[first] && t in r.worksheets[first][a]
          && r.worksheets[first][a][t] == st.raw[TestKey(a, t)])
  {
    var r := MergeStepKept(st, bySample, s, order, qc, analytes, failed);
    if r != st {
      var tests := bySample[s];
      var first := tests[0];
      var key := TestKey(a, t);
      MergeAnalytesConsumes(st.worksheets[first], st.raw, analytes.value, tests);
      if key in Consumed(analytes.value, tests) {
        var a', t' :| a' in analytes.value && !IsTotal(a') && t' in tests && TestKey(a', t') == key;
        TestKeyInjective(a', t', a, t);
        MergeStoresReadings(st.worksheets[first], st.raw, analytes.value, tests, a, t);
      }
    }
  }

  // ---------------------------------------------------------------------------
  // One file, and a run
  // ---------------------------------------------------------------------------

  /**
   * What a run keeps across files: the assay-configuration cache by assay
   * id, the QC-flag cache by sample id, the parameter requests made (assay
   * id, succeeded), the sample requests made, the stored per-test results,
   * the tests written back, and the batch patches sent.
   */
  datatype State = State(
    configs: map<int, ParamRecord>,
    flags: map<nat, bool>,
    configFetches: seq<(int, bool)>,
    sampleFetches: seq<nat>,
    worksheets: map<int, Results>,
    updates: seq<int>,
    patches: seq<(string, Sheet)>)

  /**
   * The parameter record for a batch's assay: from the cache, or fetched
   * and cached when the fetch succeeds, even when it holds no data.
   */
  function ConfigStep(st: State, batch: Batch, services: Services): (Option<ParamRecord>, State) {
    if batch.assayId in st.configs then (Some(st.configs[batch.assayId]), st)
    else if batch.paramsId in services.params then
      var config := services.params[batch.paramsId];
      (Some(config), st.(configs := st.configs[batch.assayId := config], configFetches := st.configFetches + [(batch.assayId, true)]))
    else (None, st.(configFetches := st.configFetches + [(batch.assayId, false)]))
  }

  /** The listing's pages for a batch; none when even the first page cannot be fetched. */
  function ListingOf(services: Services, id: string): seq<TestIndex.Page> {
    if id in services.listings then services.listings[id] else []
  }

  /**
   * The file's steps from the QC flags on, once the configuration and the
   * listing are in hand. With no column map the header row ends the file,
   * after the flags are settled; otherwise the update loop runs and the
   * batch is patched, unless the patch is refused.
   */
  function ProcessListed(st: State, id: string, text: string, config: AssayConfig, idx: TestIndex.Index, services: Services): (State, Outcome)
    requires TestIndex.Valid(idx)
  {
    var flags := Settle(st.flags, idx.samples, services);
    var qc := QcOf(st.flags, idx.samples, services);
    var fetched := st.sampleFetches + Fetched(st.flags, idx.samples, services);
    var rows := ParseRows(text, ',');
    if config.labels.None? && CommaFormat.headerRow < |rows| then
      (st.(flags := flags, sampleFetches := fetched), NoColumnMap)
    else
      var ctx := Context(CommaFormat, LabelsOf(config), config.qcTypes, idx, qc);
      var sheet := SheetOf(ctx, rows);
      var store := MergeAll(Store(st.worksheets, sheet.raw, st.updates), idx.bySample, idx.samples, sheet.order, qc, config.analytes, services.failedUpdates);
      var payload := Sheet(sheet.order, sheet.control, store.raw);
      if id in services.failedPatches then
        (State(st.configs, flags, st.configFetches, fetched, store.worksheets, store.updates, st.patches), PatchFailed(payload))
      else
        (State(st.configs, flags, st.configFetches, fetched, store.worksheets, store.updates, st.patches + [(id, payload)]), Patched(payload))
  }

  /** One uploaded file, from the state the earlier files left. */
  function ProcessSpec(st: State, file: UploadedFile, services: Services): (State, Outcome) {
    var id := BatchId(file.name);
    if id !in services.batches then (st, BatchNotFound)
    else
      var (config, st1) := ConfigStep(st, services.batches[id], services);
      if config.None? then (st1, ConfigUnavailable)
      else if config.value.NoData? then (st1, ConfigMissing)
      else
        match ListingIndex(ListingOf(services, id))
        case None => (st1, ListingFailed)
        case Some(idx) => ProcessListed(st1, id, file.text, config.value.config, idx, services)
  }

  /** A run over files, in order. */
  function RunSpec(st: State, files: seq<UploadedFile>, services: Services): (r: (State, seq<Outcome>))
    ensures |r.1| == |files|
  {
    if files == [] then (st, [])
    else
      var before := RunSpec(st, files[..|files| - 1], services);
      var after := ProcessSpec(before.0, files[|files| - 1], services);
      (after.0, before.1 + [after.1])
  }

  /**
   * What a run maintains: every sample requested is cached and was requested
   * once; every successful parameter request is cached, and an assay is
   * never requested again after one succeeded.
   */
  predicate StateValid(st: State) {
    && Distinct(st.sampleFetches)
    && (forall s :: s in st.sampleFetches ==> s in st.flags)
    && (forall k :: 0 <= k < |st.configFetches| && st.configFetches[k].1 ==> st.configFetches[k].0 in st.configs)
    && (forall i, j :: 0 <= i < j < |st.configFetches| && st.configFetches[i].0 == st.configFetches[j].0 ==> !st.configFetches[i].1)
  }

  /** Appending the fetched samples keeps every sample requested once. */
  lemma SettleKeepsValid(st: State, samples: seq<nat>, services: Services)
    requires StateValid(st)
    ensures var fetched := st.sampleFetches + Fetched(st.flags, samples, services);
      Distinct(fetched) && forall s :: s in fetched ==> s in Settle(st.flags, samples, services)
  {
    FetchedOnce(st.flags, samples, services);
    var fetched := st.sampleFetches + Fetched(st.flags, samples, services);
    forall i, j | 0 <= i < j < |fetched| ensures fetched[i] != fetched[j] {
      if i < |st.sampleFetches| && j >= |st.sampleFetches| {
        assert fetched[j] in Fetched(st.flags, samples, services);
        assert fetched[i] in st.sampleFetches;
      }
    }
    forall s | s in fetched ensures s in Settle(st.flags, samples, services) {
      SettledFlag(st.flags, samples, services, s);
    }
  }

  /** Past the listing, a file settles the QC flags and leaves the parameter cache and its requests alone. */
  lemma ProcessListedSettles(st: State, id: string, text: string, config: AssayConfig, idx: TestIndex.Index, services: Services)
    requires TestIndex.Valid(idx)
    ensures var r := ProcessListed(st, id, text, config, idx, services).0;
      && r.configs == st.configs && r.configFetches == st.configFetches
      && r.flags == Settle(st.flags, idx.samples, services)
      && r.sampleFetches == st.sampleFetches + Fetched(st.flags, idx.samples, services)
  {
    hide SheetOf;
    hide MergeAll;
    hide ParseRows;
  }

  /** One file keeps the run's caches consistent with the requests made. */
  lemma ProcessKeepsValid(st: State, file: UploadedFile, services: Services)
    requires StateValid(st)
    ensures StateValid(ProcessSpec(st, file, services).0)
  {
    hide ProcessListed;
    hide Settle;
    hide Fetched;
    var id := BatchId(file.name);
    if id in services.batches {
      var (config, st1) := ConfigStep(st, services.batches[id], services);
      assert StateValid(st1);
      if config.Some? && config.value.Record? {
        var listing := ListingIndex(ListingOf(services, id));
        if listing.Some? {
          var idx := listing.value;
          SettleKeepsValid(st1, idx.samples, services);
          ProcessListedSettles(st1, id, file.text, config.value.config, idx, services);
          var r := ProcessListed(st1, id, file.text, config.value.config, idx, services).0;
          assert ProcessSpec(st, file, services).0 == r;
          assert StateValid(r);
        }
      }
    }
  }

  /** A whole run keeps the caches consistent: across all files, no sample is requested twice. */
  lemma {:induction false} RunKeepsValid(st: State, files: seq<UploadedFile>, services: Services)
    requires StateValid(st)
    ensures StateValid(RunSpec(st, files, services).0)
    decreases |files|
  {
    if files != [] {
      RunKeepsValid(st, files[..|files| - 1], services);
      ProcessKeepsValid(RunSpec(st, files[..|files| - 1], services).0, files[|files| - 1], services);
    }
  }

  /** Past the listing, a file keeps every stored (analyte, test) entry. */
  lemma ProcessListedKeepsEntries(st: State, id: string, text: string, config: AssayConfig, idx: TestIndex.Index, services: Services,
                                  test: int, a: string, t: int)
    requires TestIndex.Valid(idx)
    requires test in st.worksheets && a in st.worksheets[test] && t in st.worksheets[test][a]
    ensures var r := ProcessListed(st, id, text, config, idx, services).0;
      test in r.worksheets && a in r.worksheets[test] && t in r.worksheets[test][a]
  {
    hide SheetOf;
    hide MergeAll;
    hide ParseRows;
    hide Settle;
    hide Fetched;
    var rows := ParseRows(text, ',');
    if !(config.labels.None? && CommaFormat.headerRow < |rows|) {
      var qc := QcOf(st.flags, idx.samples, services);
      var ctx := Context(CommaFormat, LabelsOf(config), config.qcTypes, idx, qc);
      var sheet := SheetOf(ctx, rows);
      MergeAllKeepsEntries(Store(st.worksheets, sheet.raw, st.updates), idx.bySample, idx.samples, sheet.order, qc,
                           config.analytes, services.failedUpdates, test, a, t);
    }
  }

  /** A file keeps every stored (analyte, test) entry of every test's results. */
  lemma ProcessKeepsEntries(st: State, file: UploadedFile, services: Services, test: int, a: string, t: int)
    requires test in st.worksheets && a in st.worksheets[test] && t in st.worksheets[test][a]
    ensures var r := ProcessSpec(st, file, services).0;
      test in r.worksheets && a in r.worksheets[test] && t in r.worksheets[test][a]
  {
    var id := BatchId(file.name);
    if id in services.batches {
      var (config, st1) := ConfigStep(st, services.batches[id], services);
      if config.Some? && config.value.Record? {
        var listing := ListingIndex(ListingOf(services, id));
        if listing.Some? {
          ProcessListedKeepsEntries(st1, id, file.text, config.value.config, listing.value, services, test, a, t);
        }
      }
    }
  }

  /** The file gets as far as the batch patch: every fetch before it succeeds and the header row finds a column map. */
  predicate ReachesPatch(st: State, file: UploadedFile, services: Services) {
    var id := BatchId(file.name);
    && id in services.batches
    && var config := ConfigStep(st, services.batches[id], services).0;
    && config.Some? && config.value.Record?
    && ListingIndex(ListingOf(services, id)).Some?
    && !(config.value.config.labels.None? && CommaFormat.headerRow < |ParseRows(file.text, ',')|)
  }

  /**
   * A file is patched exactly when it reaches the patch and the patch is
   * accepted; a failure anywhere in the update loop does not stop the
   * patch. Only an accepted patch is recorded, for the file's batch id; a
   * file that stops before the update loop writes no test's results.
   */
  lemma ProcessPatches(st: State, file: UploadedFile, services: Services)
    ensures var (st', outcome) := ProcessSpec(st, file, services);
      var id := BatchId(file.name);
      && (outcome.Patched? <==> ReachesPatch(st, file, services) && id !in services.failedPatches)
      && (outcome.PatchFailed? <==> ReachesPatch(st, file, services) && id in services.failedPatches)
      && (outcome.Patched? ==> st'.patches == st.patches + [(id, outcome.payload)])
      && (!outcome.Patched? ==> st'.patches == st.patches)
      && (!ReachesPatch(st, file, services) ==> st'.worksheets == st.worksheets && st'.updates == st.updates)
      && (outcome.BatchNotFound? || outcome.ConfigUnavailable? || outcome.ConfigMissing? || outcome.ListingFailed? ==> st'.flags == st.flags)
  {
    var id := BatchId(file.name);
    if id in services.batches {
      var (config, st1) := ConfigStep(st, services.batches[id], services);
      if config.Some? && config.value.Record? && ListingIndex(ListingOf(services, id)).Some? {
        ProcessListedPatches(st1, id, file.text, config.value.config, ListingIndex(ListingOf(services, id)).value, services);
      }
    }
  }

  /** ProcessPatches once the listing is in hand: only the header check stops the file before the patch. */
  lemma ProcessListedPatches(st: State, id: string, text: string, config: AssayConfig, idx: TestIndex.Index, services: Services)
    requires TestIndex.Valid(idx)
    ensures var (st', outcome) := ProcessListed(st, id, text, config, idx, services);
      var stops := config.labels.None? && CommaFormat.headerRow < |ParseRows(text, ',')|;
      && (outcome.Patched? <==> !stops && id !in services.failedPatches)
      && (outcome.PatchFailed? <==> !stops && id in services.failedPatches)
      && (outcome.Patched? ==> st'.patches == st.patches + [(id, outcome.payload)])
      && (!outcome.Patched? ==> st'.patches == st.patches)
      && (stops ==> st'.worksheets == st.worksheets && st'.updates == st.updates && outcome == NoColumnMap)
  {
    hide SheetOf;
    hide MergeAll;
    hide ParseRows;
    hide Settle;
  }

  /**
   * A parameter record that held no data is cached as it is, so every later
   * file of the same assay stops at the configuration too.
   */
  lemma CachedNoDataSticks(st: State, file: UploadedFile, services: Services)
    requires BatchId(file.name) in services.batches
    requires var assay := services.batches[BatchId(file.name)].assayId; assay in st.configs && st.configs[assay] == NoData
    ensures ProcessSpec(st, file, services) == (st, ConfigMissing)
  {
  }

  // ---------------------------------------------------------------------------
  // The run, imperatively
  // ---------------------------------------------------------------------------

  /** The state of a run in progress: the run-long caches, the requests made and what was written. */
  class Session {
    /** `kvstoreAssayMapping`. */
    var configs: map<int, ParamRecord>
    /** `sampleQcFlagCache`. */
    var flags: map<nat, bool>
    var configFetches: seq<(int, bool)>
    var sampleFetches: seq<nat>
    /** Each test's stored `ws_instrument_results`; a missing test's worksheet cannot be fetched. */
    var worksheets: map<int, Results>
    var updates: seq<int>
    var patches: seq<(string, Sheet)>

    function Snapshot(): State
      reads this
    {
      State(configs, flags, configFetches, sampleFetches, worksheets, updates, patches)
    }

    /** A run starts with empty caches and no requests. */
    constructor (worksheets: map<int, Results>)
      ensures Snapshot() == State(map[], map[], [], [], worksheets, [], [])
      ensures StateValid(Snapshot())
    {
      configs := map[];
      flags := map[];
      configFetches := [];
      sampleFetches := [];
      this.worksheets := worksheets;
      updates := [];
      patches := [];
    }

    /** The parameter record of a batch's assay, through the run-long cache. */
    method LookupConfig(batch: Batch, services: Services) returns (config: Option<ParamRecord>)
      modifies this
      ensures (config, Snapshot()) == ConfigStep(old(Snapshot()), batch, services)
    {
      if batch.assayId in configs {
        config := Some(configs[batch.assayId]);
      } else if batch.paramsId in services.params {
        config := Some(services.params[batch.paramsId]);
        configs := configs[batch.assayId := config.value];
        configFetches := configFetches + [(batch.assayId, true)];
      } else {
        config := None;
        configFetches := configFetches + [(batch.assayId, false)];
      }
    }

    /**
     * Settles every sample's QC flag: a cached answer is used as it is; an
     * uncached sample is requested, and its answer (not QC when the request
     * fails) is cached. Returns `qcSampleIds`.
     */
    method FlagSamples(samples: seq<nat>, services: Services) returns (qc: set<nat>)
      modifies this
      ensures flags == Settle(old(flags), samples, services)
      ensures sampleFetches == old(sampleFetches) + Fetched(old(flags), samples, services)
      ensures qc == QcOf(old(flags), samples, services)
      ensures configs == old(configs) && configFetches == old(configFetches)
      ensures worksheets == old(worksheets) && updates == old(updates) && patches == old(patches)
    {
      qc := {};
      var j := 0;
      while j < |samples|
        invariant 0 <= j <= |samples|
        invariant flags == Settle(old(flags), samples[..j], services)
        invariant sampleFetches == old(sampleFetches) + Fetched(old(flags), samples[..j], services)
        invariant qc == QcOf(old(flags), samples[..j], services)
        invariant configs == old(configs) && configFetches == old(configFetches)
        invariant worksheets == old(worksheets) && updates == old(updates) && patches == old(patches)
      {
        assert samples[..j + 1][..j] == samples[..j];
        var s := samples[j];
        if s !in flags {
          sampleFetches := sampleFetches + [s];
          flags := flags[s := s in services.samples && services.samples[s]];
        }
        if flags[s] {
          qc := qc + {s};
        }
        j := j + 1;
      }
      assert samples[..|samples|] == samples;
    }

    /**
     * The update loop: each non-QC sample whose first test is in the file
     * order has the readings of all its tests taken out of the batch
     * readings and merged into that test's stored results, which are kept
     * only when the update is accepted; a worksheet that cannot be fetched,
     * or a record without `worksheet_analytes`, skips the sample only.
     * Returns the readings left for the batch patch.
     */
    method MergeSamples(raw: map<string, real>, bySample: map<nat, seq<int>>, samples: seq<nat>, order: seq<OrderEntry>, qc: set<nat>,
                        analytes: Option<seq<string>>, failed: set<int>)
      returns (left: map<string, real>)
      modifies this
      ensures Store(worksheets, left, updates) == MergeAll(Store(old(worksheets), raw, old(updates)), bySample, samples, order, qc, analytes, failed)
      ensures configs == old(configs) && flags == old(flags) && configFetches == old(configFetches)
      ensures sampleFetches == old(sampleFetches) && patches == old(patches)
    {
      left := raw;
      var j := 0;
      while j < |samples|
        invariant 0 <= j <= |samples|
        invariant Store(worksheets, left, updates) == MergeAll(Store(old(worksheets), raw, old(updates)), bySample, samples[..j], order, qc, analytes, failed)
        invariant configs == old(configs) && flags == old(flags) && configFetches == old(configFetches)
        invariant sampleFetches == old(sampleFetches) && patches == old(patches)
      {
        assert samples[..j + 1][..j] == samples[..j];
        var s := samples[j];
        if s !in qc && s in bySample && bySample[s] != [] {
          var t := bySample[s][0];
          if TestEntry(t) in order && t in worksheets && analytes.Some? {
            var merged, rest := MergeSample(worksheets[t], left, analytes.value, bySample[s]);
            left := rest;
            if t !in failed {
              worksheets := worksheets[t := merged];
              updates := updates + [t];
            }
          }
        }
        j := j + 1;
      }
      assert samples[..|samples|] == samples;
    }

    /** One uploaded file, in the order the import takes its steps. */
    method ProcessFile(file: UploadedFile, services: Services) returns (outcome: Outcome)
      modifies this
      ensures (Snapshot(), outcome) == ProcessSpec(old(Snapshot()), file, services)
    {
      var id := BatchId(file.name);
      if id !in services.batches {
        return BatchNotFound;
      }
      var config := LookupConfig(services.batches[id], services);
      if config.None? {
        return ConfigUnavailable;
      }
      if config.value.NoData? {
        return ConfigMissing;
      }
      var assay := config.value.config;
      ghost var st1 := Snapshot();
      var pages := if id in services.listings then services.listings[id] else [];
      var listing, requested := ListTests(pages);
      if listing.None? {
        return ListingFailed;
      }
      var idx := listing.value;
      var qc := FlagSamples(idx.samples, services);
      var rows := ParseRows(file.text, ',');
      if assay.labels.None? && CommaFormat.headerRow < |rows| {
        outcome := NoColumnMap;
        assert (Snapshot(), outcome) == ProcessListed(st1, id, file.text, assay, idx, services);
        return;
      }
      var ctx := Context(CommaFormat, LabelsOf(assay), assay.qcTypes, idx, qc);
      var sheet := ProcessRows(ctx, rows);
      var left := MergeSamples(sheet.raw, idx.bySample, idx.samples, sheet.order, qc, assay.analytes, services.failedUpdates);
      var payload := Sheet(sheet.order, sheet.control, left);
      if id in services.failedPatches {
        outcome := PatchFailed(payload);
      } else {
        patches := patches + [(id, payload)];
        outcome := Patched(payload);
      }
      assert (Snapshot(), outcome) == ProcessListed(st1, id, file.text, assay, idx, services);
    }

    /** Every uploaded file in turn; a file that fails does not stop the ones after it. */
    method Run(files: seq<UploadedFile>, services: Services) returns (outcomes: seq<Outcome>)
      modifies this
      ensures (Snapshot(), outcomes) == RunSpec(old(Snapshot()), files, services)
    {
      outcomes := [];
      var i := 0;
      while i < |files|
        invariant 0 <= i <= |files|
        invariant (Snapshot(), outcomes) == RunSpec(old(Snapshot()), files[..i], services)
      {
        assert files[..i + 1][..i] == files[..i];
        var outcome := ProcessFile(files[i], services);
        outcomes := outcomes + [outcome];
        i := i + 1;
      }
      assert files[..|files|] == files;
    }
  }
}
