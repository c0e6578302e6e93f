/**
 * The batch's test listing folded into `testArray` (every listed test id, in
 * listing order) and `sampleTestMap` (sample id to the ids of its tests, in
 * listing order). Sample ids are integer-like object keys. JavaScript
 * enumerates array-index keys (integers below 2^32 - 1) in ascending numeric
 * order, ahead of every other key, so sample ids are restricted to those; the
 * index keeps that order in `samples`.
 */
module TestIndex {
  import opened Wrappers

  /** A sample id that is an array-index key, below 2^32 - 1. */
  type SampleId = n: nat | n < 0xFFFF_FFFF

  /** One entry of a test-listing page: the test's id and its sample's id. */
  datatype TestRef = TestRef(id: int, sampleId: SampleId)

  /** One page of the listing and the listing's `total_pages`. */
  datatype Page = Page(tests: seq<TestRef>, totalPages: int)

  /** `testArray`, the keys of `sampleTestMap` in enumeration order, and `sampleTestMap`. */
  datatype Index = Index(tests: seq<int>, samples: seq<nat>, bySample: map<nat, seq<int>>)

  const Empty: Index := Index([], [], map[])

  predicate StrictlyAscending(xs: seq<nat>) {
    forall i, j :: 0 <= i < j < |xs| ==> xs[i] < xs[j]
  }

  /** The enumeration order lists exactly the keys of `bySample`, ascending. */
  predicate Valid(idx: Index) {
    && StrictlyAscending(idx.samples)
    && (forall s :: s in idx.samples ==> s in idx.bySample)
    && (forall s :: s in idx.bySample ==> s in idx.samples)
  }

  lemma EmptyValid()
    ensures Valid(Empty)
  {
  }

  /** Places a new key in an ascending key order. */
  function InsertSorted(xs: seq<nat>, x: nat): (r: seq<nat>)
    requires StrictlyAscending(xs) && x !in xs
    ensures StrictlyAscending(r)
    ensures forall y :: y in r <==> y in xs || y == x
  {
    if xs == [] || x < xs[0] then [x] + xs
    else
      var rest := InsertSorted(xs[1..], x);
      var r := [xs[0]] + rest;
      forall i, j | 0 <= i < j < |r| ensures r[i] < r[j] {
        assert r[j] == rest[j - 1] && rest[j - 1] in rest;
        if i > 0 { assert r[i] == rest[i - 1]; }
      }
      r
  }

  /** One `forEach` step: `testArray.push(id)` and the push onto (or creation of) the sample's list. */
  function AddTest(idx: Index, t: TestRef): (r: Index)
    requires Valid(idx)
    ensures Valid(r)
  {
    if t.sampleId in idx.bySample then
      Index(idx.tests + [t.id], idx.samples, idx.bySample[t.sampleId := idx.bySample[t.sampleId] + [t.id]])
    else
      Index(idx.tests + [t.id], InsertSorted(idx.samples, t.sampleId), idx.bySample[t.sampleId := [t.id]])
  }

  /** The listing's tests folded into an index, one test at a time from the left. */
  function AddTests(idx: Index, ts: seq<TestRef>): (r: Index)
    requires Valid(idx)
    ensures Valid(r)
    decreases |ts|
  {
    if ts == [] then idx
    else AddTest(AddTests(idx, ts[..|ts| - 1]), ts[|ts| - 1])
  }

  /** The ids of a listing, in order. */
  function Ids(ts: seq<TestRef>): (r: seq<int>)
    ensures |r| == |ts|
  {
    if ts == [] then [] else Ids(ts[..|ts| - 1]) + [ts[|ts| - 1].id]
  }

  /** The ids of the listed tests that belong to sample `s`, in order. */
  function TestsOf(ts: seq<TestRef>, s: nat): seq<int> {
    if ts == [] then []
    else TestsOf(ts[..|ts| - 1], s) + (if ts[|ts| - 1].sampleId == s then [ts[|ts| - 1].id] else [])
  }

  /** The whole listing folded into a fresh index. */
  function Build(ts: seq<TestRef>): (r: Index)
    ensures Valid(r)
  {
    EmptyValid();
    AddTests(Empty, ts)
  }

  /** `testArray` is every listed id, in listing order. */
  lemma {:induction false} BuildTests(ts: seq<TestRef>)
    ensures Build(ts).tests == Ids(ts)
    decreases |ts|
  {
    if ts != [] {
      BuildTests(ts[..|ts| - 1]);
    }
  }

  /** One of the listed tests belongs to sample `s`. */
  predicate Listed(ts: seq<TestRef>, s: nat) {
    exists k :: 0 <= k < |ts| && ts[k].sampleId == s
  }

  /** A sample is listed in a listing when it is listed before the last test or owns the last test. */
  lemma ListedLast(ts: seq<TestRef>, s: nat)
    requires ts != []
    ensures Listed(ts, s) <==> Listed(ts[..|ts| - 1], s) || ts[|ts| - 1].sampleId == s
  {
    var init := ts[..|ts| - 1];
    if Listed(init, s) {
      var k :| 0 <= k < |init| && init[k].sampleId == s;
      assert ts[k].sampleId == s;
    }
    if Listed(ts, s) {
      var k :| 0 <= k < |ts| && ts[k].sampleId == s;
      if k < |init| { assert init[k].sampleId == s; }
    }
  }

  /** A sample is a key of `sampleTestMap` exactly when one of its tests is listed. */
  lemma {:induction false} BuildKeys(ts: seq<TestRef>)
    ensures forall s :: s in Build(ts).bySample <==> Listed(ts, s)
    decreases |ts|
  {
    if ts != [] {
      var init := ts[..|ts| - 1];
      BuildKeys(init);
      assert Build(ts) == AddTest(Build(init), ts[|ts| - 1]);
      forall s
        ensures s in Build(ts).bySample <==> Listed(ts, s)
      {
        ListedLast(ts, s);
      }
    }
  }

  /** Each sample's list holds its listed tests' ids, in listing order. */
  lemma {:induction false} BuildLists(ts: seq<TestRef>)
    ensures forall s :: s in Build(ts).bySample ==> Build(ts).bySample[s] == TestsOf(ts, s)
    decreases |ts|
  {
    if ts != [] {
      var init := ts[..|ts| - 1];
      BuildLists(init);
      BuildKeys(init);
      forall s | s in Build(ts).bySample
        ensures Build(ts).bySample[s] == TestsOf(ts, s)
      {
        if s !in Build(init).bySample {
          TestsOfAbsent(init, s);
        }
      }
    }
  }

  /** A sample with no listed test has no tests. */
  lemma {:induction false} TestsOfAbsent(ts: seq<TestRef>, s: nat)
    requires forall k :: 0 <= k < |ts| ==> ts[k].sampleId != s
    ensures TestsOf(ts, s) == []
    decreases |ts|
  {
    if ts != [] {
      TestsOfAbsent(ts[..|ts| - 1], s);
    }
  }

  // ---------------------------------------------------------------------------
  // Pages and owners
  // ---------------------------------------------------------------------------

  /**
   * The page numbers requested after the first page: `for (i = 1; i < totalPages; i++)`
   * asks for page `i + 1`.
   */
  function FollowUpPages(totalPages: int): (r: seq<nat>)
    ensures totalPages >= 1 ==> |r| == totalPages - 1
    ensures totalPages <= 1 ==> r == []
    ensures forall k :: 0 <= k < |r| ==> r[k] == k + 2
  {
    if totalPages <= 1 then [] else seq(totalPages - 1, k requires 0 <= k < totalPages - 1 => k + 2)
  }

  /** The first sample, in enumeration order, whose list holds `t` (the owner loop's `break`). */
  function OwnerIn(samples: seq<nat>, bySample: map<nat, seq<int>>, t: int): (r: Option<nat>)
    requires forall s :: s in samples ==> s in bySample
    ensures r.Some? ==> r.value in samples && t in bySample[r.value]
    ensures r.None? <==> forall s :: s in samples ==> t !in bySample[s]
  {
    if samples == [] then None
    else if t in bySample[samples[0]] then Some(samples[0])
    else OwnerIn(samples[1..], bySample, t)
  }

  function Owner(idx: Index, t: int): (r: Option<nat>)
    requires Valid(idx)
  {
    OwnerIn(idx.samples, idx.bySample, t)
  }

  /** The owner of a test is the lowest-numbered sample listing it. */
  lemma {:induction false} OwnerIsLowest(samples: seq<nat>, bySample: map<nat, seq<int>>, t: int)
    requires forall s :: s in samples ==> s in bySample
    requires StrictlyAscending(samples)
    requires OwnerIn(samples, bySample, t).Some?
    ensures forall s :: s in samples && s < OwnerIn(samples, bySample, t).value ==> t !in bySample[s]
    decreases |samples|
  {
    if t !in bySample[samples[0]] {
      OwnerIsLowest(samples[1..], bySample, t);
      forall s | s in samples && s < OwnerIn(samples, bySample, t).value
        ensures t !in bySample[s]
      {
        if s != samples[0] {
          assert s in samples[1..];
        }
      }
    }
  }

  /** A listed test appears in its own sample's list. */
  lemma {:induction false} TestsOfHolds(ts: seq<TestRef>, k: nat)
    requires k < |ts|
    ensures ts[k].id in TestsOf(ts, ts[k].sampleId)
    decreases |ts|
  {
    if k < |ts| - 1 {
      TestsOfHolds(ts[..|ts| - 1], k);
    }
  }

  /** An id of the listing is an id of a listed test. */
  lemma {:induction false} InIds(ts: seq<TestRef>, t: int)
    requires t in Ids(ts)
    ensures exists k :: 0 <= k < |ts| && ts[k].id == t
    decreases |ts|
  {
    if t != ts[|ts| - 1].id {
      InIds(ts[..|ts| - 1], t);
      var k :| 0 <= k < |ts| - 1 && ts[..|ts| - 1][k].id == t;
      assert ts[k].id == t;
    }
  }

  /**
   * Every id in `testArray` has an owner, so the owner loop always sets
   * `sampleId`; the owner is the lowest-numbered sample listing the test.
   */
  lemma OwnerOfListedTest(ts: seq<TestRef>, t: int)
    requires t in Build(ts).tests
    ensures Owner(Build(ts), t).Some?
    ensures t in Build(ts).bySample[Owner(Build(ts), t).value]
    ensures forall s :: s in Build(ts).bySample && s < Owner(Build(ts), t).value ==> t !in Build(ts).bySample[s]
  {
    var idx := Build(ts);
    BuildTests(ts);
    BuildKeys(ts);
    BuildLists(ts);
    InIds(ts, t);
    var k :| 0 <= k < |ts| && ts[k].id == t;
    TestsOfHolds(ts, k);
    assert ts[k].sampleId in idx.samples;
    OwnerIsLowest(idx.samples, idx.bySample, t);
  }
}
