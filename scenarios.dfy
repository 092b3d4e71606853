/**
 * The three inputs of the repository's test driver (task_2.py lines 104-144),
 * run through the model with max_volume 300 and max_items 2, plus the
 * fallback for a job larger than the printer and the rejected inputs.
 */
module Scenarios {
  import opened Wrappers
  import opened PrintJobs
  import opened JobOrder
  import opened Batching
  import opened PrintQueue

  const Limits := PrinterConstraints(300.0, 2)

  /**
   * The schedule of well-formed records whose jobs, once sorted, are t (any
   * strictly sorted list with the same jobs) and are batched as B.
   */
  lemma OptimizeIs(R: seq<JobRecord>, c: PrinterConstraints, t: seq<PrintJob>, B: seq<seq<PrintJob>>)
    requires FirstJobError(R) == None && ValidConstraints(c)
    requires StrictlySorted(t) && multiset(t) == multiset(Stamp(R))
    requires Batches(t, c) == B
    ensures Optimize(R, c) == Ok(Schedule(PrintOrder(B), TotalTime(B)))
  {
    var jobs := Stamp(R);
    assert Ingest(R, c) == Ok((jobs, c));
    SortedUnique(t, SortJobs(jobs));
  }

  /** The schedule of a batch followed by more batches. */
  lemma ScheduleCons(b: seq<PrintJob>, B: seq<seq<PrintJob>>)
    ensures PrintOrder([b] + B) == Ids(b) + PrintOrder(B)
    ensures TotalTime([b] + B) == MaxTime(b) + TotalTime(B)
  {
    assert ([b] + B)[1..] == B;
  }

  lemma TwoBatches(b1: seq<PrintJob>, b2: seq<PrintJob>)
    ensures PrintOrder([b1, b2]) == Ids(b1) + Ids(b2)
    ensures TotalTime([b1, b2]) == MaxTime(b1) + MaxTime(b2)
  {
    ScheduleCons(b1, [b2]);
    ScheduleCons(b2, []);
    assert [b1, b2] == [b1] + [b2] && [b2] == [b2] + [];
  }

  /** A single job forms one batch of its own, whether it fits or not. */
  lemma OneJobBatch(x: PrintJob, c: PrinterConstraints)
    ensures Batches([x], c) == [[x]]
    ensures PrintOrder([[x]]) == [x.id]
    ensures TotalTime([[x]]) == (if x.printTime > 0 then x.printTime else 0)
  {
    ScheduleCons([x], []);
    assert [x][..0] == [];
    assert ScanFrom([x], c, 1, 1, x.volume) == [];
    assert ScanFrom([x], c, 1, 0, 0.0) == [];
    assert NextBatch([x], c) == [x];
    assert AfterBatch([x], c) == [];
    assert Batches([x], c) == [[x]] + Batches([], c);
  }

  /** When the scan accepts some jobs, they form the first batch. */
  lemma BatchesVia(s: seq<PrintJob>, c: PrinterConstraints, U: seq<int>)
    requires |s| > 0 && Scan(s, c) == U && U != []
    ensures Batches(s, c) == [Taken(s, U, 0, |s|)] + Batches(Kept(s, U, 0, |s|), c)
  {
  }

  /**
   * Three jobs under a two-job limit whose first two fit together: they form
   * one batch and the third prints alone.
   */
  lemma PairThenOne(a: PrintJob, b: PrintJob, x: PrintJob, c: PrinterConstraints)
    requires c.maxItems == 2 && 0.0 <= b.volume && a.volume + b.volume <= c.maxVolume
    ensures Batches([a, b, x], c) == [[a, b], [x]]
  {
    var s, U := [a, b, x], [0, 1];
    assert Scan(s, c) == U by {
      assert ScanFrom(s, c, 2, 2, a.volume + b.volume) == [];
      assert ScanFrom(s, c, 1, 1, a.volume) == [1] + ScanFrom(s, c, 2, 2, a.volume + b.volume);
      assert ScanFrom(s, c, 0, 0, 0.0) == [0] + ScanFrom(s, c, 1, 1, a.volume);
    }
    BatchesVia(s, c, U);
    SplitFirstTwo(a, b, x);
    OneJobBatch(x, c);
  }

  lemma SplitFirstTwo(a: PrintJob, b: PrintJob, x: PrintJob)
    ensures Taken([a, b, x], [0, 1], 0, 3) == [a, b] && Kept([a, b, x], [0, 1], 0, 3) == [x]
  {
    var s, U := [a, b, x], [0, 1];
    assert 2 !in U;
    assert Taken(s, U, 2, 3) == [] && Kept(s, U, 2, 3) == [x];
  }

  /**
   * Three jobs under a two-job limit, no two of which fit together: each
   * prints alone, in order.
   */
  lemma ThreeSingles(a: PrintJob, b: PrintJob, x: PrintJob, c: PrinterConstraints)
    requires c.maxItems == 2
    requires a.volume <= c.maxVolume && b.volume <= c.maxVolume
    requires a.volume + b.volume > c.maxVolume && a.volume + x.volume > c.maxVolume
    requires b.volume + x.volume > c.maxVolume
    ensures Batches([a, b, x], c) == [[a], [b], [x]]
  {
    var s, U := [a, b, x], [0];
    assert Scan(s, c) == U by {
      assert ScanFrom(s, c, 3, 1, a.volume) == [];
      assert ScanFrom(s, c, 2, 1, a.volume) == [];
      assert ScanFrom(s, c, 1, 1, a.volume) == [];
      assert ScanFrom(s, c, 0, 0, 0.0) == [0] + ScanFrom(s, c, 1, 1, a.volume);
    }
    BatchesVia(s, c, U);
    SplitFirstOfThree(a, b, x);
    TwoSingles(b, x, c);
  }

  lemma SplitFirstOfThree(a: PrintJob, b: PrintJob, x: PrintJob)
    ensures Taken([a, b, x], [0], 0, 3) == [a] && Kept([a, b, x], [0], 0, 3) == [b, x]
  {
    var s, U := [a, b, x], [0];
    assert 1 !in U && 2 !in U;
    assert Taken(s, U, 2, 3) == [] && Kept(s, U, 2, 3) == [x];
    assert Taken(s, U, 1, 3) == [] && Kept(s, U, 1, 3) == [b, x];
  }

  /** Two jobs under a two-job limit that do not fit together: each prints alone. */
  lemma TwoSingles(b: PrintJob, x: PrintJob, c: PrinterConstraints)
    requires c.maxItems == 2 && b.volume <= c.maxVolume && b.volume + x.volume > c.maxVolume
    ensures Batches([b, x], c) == [[b], [x]]
  {
    var s, U := [b, x], [0];
    assert Scan(s, c) == U by {
      assert ScanFrom(s, c, 2, 1, b.volume) == [];
      assert ScanFrom(s, c, 1, 1, b.volume) == [];
      assert ScanFrom(s, c, 0, 0, 0.0) == [0] + ScanFrom(s, c, 1, 1, b.volume);
    }
    BatchesVia(s, c, U);
    SplitFirstOfTwo(b, x);
    OneJobBatch(x, c);
  }

  lemma SplitFirstOfTwo(b: PrintJob, x: PrintJob)
    ensures Taken([b, x], [0], 0, 2) == [b] && Kept([b, x], [0], 0, 2) == [x]
  {
    var s, U := [b, x], [0];
    assert 1 !in U;
    assert Taken(s, U, 1, 2) == [] && Kept(s, U, 1, 2) == [x];
  }

  /**
   * Three jobs under a two-job limit where the second does not fit beside
   * the first but the third does: the scan skips the second and fills the
   * batch with the third, and the second prints afterwards.
   */
  lemma SkipThenPair(a: PrintJob, b: PrintJob, x: PrintJob, c: PrinterConstraints)
    requires c.maxItems == 2 && 0.0 <= x.volume
    requires a.volume + b.volume > c.maxVolume && a.volume + x.volume <= c.maxVolume
    ensures Batches([a, b, x], c) == [[a, x], [b]]
  {
    var s := [a, b, x];
    SkipThenPairScan(a, b, x, c);
    BatchesVia(s, c, [0, 2]);
    SplitFirstAndThird(a, b, x);
    OneJobBatch(b, c);
    assert Batches(s, c) == [[a, x]] + [[b]];
  }

  /** The scan of SkipThenPair accepts a, passes over b and accepts x. */
  lemma SkipThenPairScan(a: PrintJob, b: PrintJob, x: PrintJob, c: PrinterConstraints)
    requires c.maxItems == 2 && 0.0 <= x.volume
    requires a.volume + b.volume > c.maxVolume && a.volume + x.volume <= c.maxVolume
    ensures Scan([a, b, x], c) == [0, 2]
  {
    var s := [a, b, x];
    assert ScanFrom(s, c, 3, 2, a.volume + x.volume) == [];
    assert ScanFrom(s, c, 2, 1, a.volume) == [2] + ScanFrom(s, c, 3, 2, a.volume + x.volume);
    assert ScanFrom(s, c, 1, 1, a.volume) == ScanFrom(s, c, 2, 1, a.volume);
    assert ScanFrom(s, c, 0, 0, 0.0) == [0] + ScanFrom(s, c, 1, 1, a.volume);
  }

  lemma SplitFirstAndThird(a: PrintJob, b: PrintJob, x: PrintJob)
    ensures Taken([a, b, x], [0, 2], 0, 3) == [a, x] && Kept([a, b, x], [0, 2], 0, 3) == [b]
  {
    var s, U := [a, b, x], [0, 2];
    assert 1 !in U;
    assert Taken(s, U, 2, 3) == [x] && Kept(s, U, 2, 3) == [];
    assert Taken(s, U, 1, 3) == [x] && Kept(s, U, 1, 3) == [b];
  }

  lemma ThreeBatches(b1: seq<PrintJob>, b2: seq<PrintJob>, b3: seq<PrintJob>)
    ensures PrintOrder([b1, b2, b3]) == Ids(b1) + Ids(b2) + Ids(b3)
    ensures TotalTime([b1, b2, b3]) == MaxTime(b1) + MaxTime(b2) + MaxTime(b3)
  {
    var B := [b1, b2, b3];
    assert B[0] == b1 && B[1..] == [b2, b3];
    TwoBatches(b2, b3);
    assert PrintOrder(B) == Ids(b1) + Ids(b2) + Ids(b3) by {
      var i1, i2, i3 := Ids(b1), Ids(b2), Ids(b3);
      assert PrintOrder(B) == i1 + PrintOrder(B[1..]);
      assert i1 + (i2 + i3) == i1 + i2 + i3;
    }
    assert TotalTime(B) == MaxTime(b1) + MaxTime(b2) + MaxTime(b3) by {
      assert TotalTime(B) == MaxTime(b1) + TotalTime(B[1..]);
    }
  }

  // ---------------------------------------------------------------------
  // Test 1: equal priorities

  const SameRecords := [JobRecord("M1", 100.0, 1, 120), JobRecord("M2", 150.0, 1, 90),
                        JobRecord("M3", 120.0, 1, 150)]
  const S1 := PrintJob("M1", 100.0, 1, 120, 0)
  const S2 := PrintJob("M2", 150.0, 1, 90, 1)
  const S3 := PrintJob("M3", 120.0, 1, 150, 2)

  lemma SameIngest()
    ensures FirstJobError(SameRecords) == None && Stamp(SameRecords) == [S1, S2, S3]
    ensures StrictlySorted([S1, S2, S3])
  {
  }

  lemma SameBatches()
    ensures Batches([S1, S2, S3], Limits) == [[S1, S2], [S3]]
  {
    PairThenOne(S1, S2, S3, Limits);
  }

  lemma SameSchedule()
    ensures PrintOrder([[S1, S2], [S3]]) == ["M1", "M2", "M3"]
    ensures TotalTime([[S1, S2], [S3]]) == 270
  {
    TwoBatches([S1, S2], [S3]);
    MaxTimeIsMaximum([S1, S2]);
    MaxTimeIsMaximum([S3]);
  }

  /** Equal priorities: batches {M1, M2} and {M3}, time 120 + 150. */
  lemma SamePriorityScenario()
    ensures Optimize(SameRecords, Limits) == Ok(Schedule(["M1", "M2", "M3"], 270))
  {
    SameIngest();
    SameBatches();
    SameSchedule();
    OptimizeIs(SameRecords, Limits, [S1, S2, S3], [[S1, S2], [S3]]);
  }

  // ---------------------------------------------------------------------
  // Test 2: different priorities

  const MixedRecords := [JobRecord("M1", 100.0, 2, 120), JobRecord("M2", 150.0, 1, 90),
                         JobRecord("M3", 120.0, 3, 150)]
  const P1 := PrintJob("M1", 100.0, 2, 120, 0)
  const P2 := PrintJob("M2", 150.0, 1, 90, 1)
  const P3 := PrintJob("M3", 120.0, 3, 150, 2)

  lemma MixedIngest()
    ensures FirstJobError(MixedRecords) == None && Stamp(MixedRecords) == [P1, P2, P3]
    ensures StrictlySorted([P2, P1, P3])
  {
  }

  lemma SwapFront(a: PrintJob, b: PrintJob, x: PrintJob)
    ensures multiset([b, a, x]) == multiset([a, b, x])
  {
    assert [b, a, x] == [b] + [a] + [x] && [a, b, x] == [a] + [b] + [x];
  }

  lemma MixedBatches()
    ensures Batches([P2, P1, P3], Limits) == [[P2, P1], [P3]]
  {
    PairThenOne(P2, P1, P3, Limits);
  }

  lemma MixedSchedule()
    ensures PrintOrder([[P2, P1], [P3]]) == ["M2", "M1", "M3"]
    ensures TotalTime([[P2, P1], [P3]]) == 270
  {
    TwoBatches([P2, P1], [P3]);
    MaxTimeIsMaximum([P2, P1]);
    MaxTimeIsMaximum([P3]);
  }

  /** Different priorities: M2 (priority 1) leads, batched with M1; M3 alone. */
  lemma MixedPriorityScenario()
    ensures Optimize(MixedRecords, Limits) == Ok(Schedule(["M2", "M1", "M3"], 270))
  {
    MixedIngest();
    SwapFront(P1, P2, P3);
    MixedBatches();
    MixedSchedule();
    OptimizeIs(MixedRecords, Limits, [P2, P1, P3], [[P2, P1], [P3]]);
  }

  // ---------------------------------------------------------------------
  // Test 3: volumes over the limit

  const BulkyRecords := [JobRecord("M1", 250.0, 1, 180), JobRecord("M2", 200.0, 1, 150),
                         JobRecord("M3", 180.0, 2, 120)]
  const V1 := PrintJob("M1", 250.0, 1, 180, 0)
  const V2 := PrintJob("M2", 200.0, 1, 150, 1)
  const V3 := PrintJob("M3", 180.0, 2, 120, 2)

  lemma BulkyIngest()
    ensures FirstJobError(BulkyRecords) == None && Stamp(BulkyRecords) == [V1, V2, V3]
    ensures StrictlySorted([V1, V2, V3])
  {
  }

  lemma BulkyBatches()
    ensures Batches([V1, V2, V3], Limits) == [[V1], [V2], [V3]]
  {
    ThreeSingles(V1, V2, V3, Limits);
  }

  lemma BulkySchedule()
    ensures PrintOrder([[V1], [V2], [V3]]) == ["M1", "M2", "M3"]
    ensures TotalTime([[V1], [V2], [V3]]) == 450
  {
    ThreeBatches([V1], [V2], [V3]);
    MaxTimeIsMaximum([V1]);
    MaxTimeIsMaximum([V2]);
    MaxTimeIsMaximum([V3]);
  }

  /** No two jobs fit together: three single-job batches, time 180 + 150 + 120. */
  lemma VolumeOverflowScenario()
    ensures Optimize(BulkyRecords, Limits) == Ok(Schedule(["M1", "M2", "M3"], 450))
  {
    BulkyIngest();
    BulkyBatches();
    BulkySchedule();
    OptimizeIs(BulkyRecords, Limits, [V1, V2, V3], [[V1], [V2], [V3]]);
  }

  // ---------------------------------------------------------------------
  // Beyond the test driver

  const Oversized := [JobRecord("X", 100.0, 1, 10)]
  const Small := PrinterConstraints(50.0, 5)

  /** A job larger than the printer is not dropped: the fallback prints it alone. */
  lemma FallbackScenario()
    ensures Optimize(Oversized, Small) == Ok(Schedule(["X"], 10))
  {
    var x := PrintJob("X", 100.0, 1, 10, 0);
    assert FirstJobError(Oversized) == None && Stamp(Oversized) == [x];
    OneJobBatch(x, Small);
    OptimizeIs(Oversized, Small, [x], [[x]]);
  }

  const Skipping := [JobRecord("A", 200.0, 1, 30), JobRecord("B", 200.0, 1, 20),
                     JobRecord("C", 50.0, 2, 10)]
  const K1 := PrintJob("A", 200.0, 1, 30, 0)
  const K2 := PrintJob("B", 200.0, 1, 20, 1)
  const K3 := PrintJob("C", 50.0, 2, 10, 2)

  lemma SkippingIngest()
    ensures FirstJobError(Skipping) == None && Stamp(Skipping) == [K1, K2, K3]
    ensures StrictlySorted([K1, K2, K3])
  {
  }

  lemma SkippingBatches()
    ensures Batches([K1, K2, K3], Limits) == [[K1, K3], [K2]]
  {
    SkipThenPair(K1, K2, K3, Limits);
  }

  lemma SkippingSchedule()
    ensures PrintOrder([[K1, K3], [K2]]) == ["A", "C", "B"]
    ensures TotalTime([[K1, K3], [K2]]) == 50
  {
    TwoBatches([K1, K3], [K2]);
    MaxTimeIsMaximum([K1, K3]);
    MaxTimeIsMaximum([K2]);
  }

  /**
   * The print order is sorted only within each batch: C (priority 2) fills
   * the first batch beside A and prints before B (priority 1), which did
   * not fit.
   */
  lemma LowerPriorityFillsBatch()
    ensures Optimize(Skipping, Limits) == Ok(Schedule(["A", "C", "B"], 50))
  {
    SkippingIngest();
    SkippingBatches();
    SkippingSchedule();
    OptimizeIs(Skipping, Limits, [K1, K2, K3], [[K1, K3], [K2]]);
  }

  /** A priority outside 1..3 is rejected, naming the job and the priority. */
  lemma BadPriorityScenario()
    ensures Optimize([JobRecord("M1", 100.0, 4, 120)], Limits) == Err(BadPriority("M1", 4))
  {
  }

  /** A non-positive volume is rejected as bad job data. */
  lemma BadVolumeScenario()
    ensures Optimize([JobRecord("M1", 0.0, 1, 120)], Limits) == Err(BadJobData("M1"))
  {
  }

  /** A printer that holds no item is rejected, even with no jobs. */
  lemma NoCapacityScenario()
    ensures Optimize([], PrinterConstraints(300.0, 0)) == Err(BadConstraints)
  {
  }
}
