/**
 * The greedy batching of optimize_printing (task_2.py lines 61-96), stated as
 * functions over the list of remaining jobs: which indices one scan accepts,
 * the fallback to the first job alone, the batch and the jobs left after its
 * removal, and the whole sequence of batches.
 */
module Batching {
  import opened PrintJobs
  import opened JobOrder

  /** The jobs s[k], lo <= k < hi, whose index is listed in U, in index order. */
  function Taken(s: seq<PrintJob>, U: seq<int>, lo: int, hi: int): seq<PrintJob>
    requires 0 <= lo <= hi <= |s|
    decreases hi - lo
  {
    if lo == hi then [] else (if lo in U then [s[lo]] else []) + Taken(s, U, lo + 1, hi)
  }

  /** The jobs s[k], lo <= k < hi, whose index is not listed in U, in index order. */
  function Kept(s: seq<PrintJob>, U: seq<int>, lo: int, hi: int): seq<PrintJob>
    requires 0 <= lo <= hi <= |s|
    decreases hi - lo
  {
    if lo == hi then [] else (if lo in U then [] else [s[lo]]) + Kept(s, U, lo + 1, hi)
  }

  predicate Increasing(U: seq<int>) {
    forall j, l :: 0 <= j < l < |U| ==> U[j] < U[l]
  }

  predicate Within(U: seq<int>, lo: int, hi: int) {
    forall j :: 0 <= j < |U| ==> lo <= U[j] < hi
  }

  /**
   * The indices one greedy scan accepts from position i on, entering with
   * cnt jobs and volume vol already in the batch: it stops once the batch
   * holds maxItems jobs, accepts a job whose volume still fits and skips
   * (but scans on past) one that does not.
   */
  function ScanFrom(s: seq<PrintJob>, c: PrinterConstraints, i: int, cnt: int, vol: real): (r: seq<int>)
    requires 0 <= i <= |s|
    ensures Increasing(r) && Within(r, i, |s|)
    decreases |s| - i
  {
    if i == |s| || cnt >= c.maxItems then []
    else if vol + s[i].volume <= c.maxVolume && cnt + 1 <= c.maxItems then
      [i] + ScanFrom(s, c, i + 1, cnt + 1, vol + s[i].volume)
    else
      ScanFrom(s, c, i + 1, cnt, vol)
  }

  /** The scan of a fresh batch over the whole remaining list. */
  function Scan(s: seq<PrintJob>, c: PrinterConstraints): seq<int>
  {
    ScanFrom(s, c, 0, 0, 0.0)
  }

  /**
   * The indices of the next batch: those the scan accepts, or the first
   * remaining job alone when it accepts none. Never empty.
   */
  function BatchIndices(s: seq<PrintJob>, c: PrinterConstraints): (r: seq<int>)
    requires |s| > 0
    ensures |r| > 0 && Increasing(r) && Within(r, 0, |s|)
  {
    var picked := Scan(s, c);
    if picked == [] then [0] else picked
  }

  /** The next batch, in candidate order. */
  function NextBatch(s: seq<PrintJob>, c: PrinterConstraints): seq<PrintJob>
    requires |s| > 0
  {
    Taken(s, BatchIndices(s, c), 0, |s|)
  }

  /** The remaining jobs once the next batch is removed, in their old order. */
  function AfterBatch(s: seq<PrintJob>, c: PrinterConstraints): (r: seq<PrintJob>)
    requires |s| > 0
    ensures |r| < |s|
  {
    var U := BatchIndices(s, c);
    KeptShorter(s, U, 0, |s|, U[0]);
    Kept(s, U, 0, |s|)
  }

  /** The batches formed until no job remains, in formation order. */
  function Batches(s: seq<PrintJob>, c: PrinterConstraints): seq<seq<PrintJob>>
    decreases |s|
  {
    if |s| == 0 then [] else [NextBatch(s, c)] + Batches(AfterBatch(s, c), c)
  }

  /** The global print order: each batch's identifiers, batch after batch. */
  function PrintOrder(B: seq<seq<PrintJob>>): seq<string>
  {
    if |B| == 0 then [] else Ids(B[0]) + PrintOrder(B[1..])
  }

  /** The total time: the sum of the batches' durations. */
  function TotalTime(B: seq<seq<PrintJob>>): int
  {
    if |B| == 0 then 0 else MaxTime(B[0]) + TotalTime(B[1..])
  }

  /**
   * One iteration of the outer loop: the next batch's identifiers and
   * duration, then the rest of the schedule, give the whole schedule.
   */
  lemma BatchesStep(done: seq<string>, spent: int, s: seq<PrintJob>, c: PrinterConstraints)
    requires |s| > 0
    ensures (done + Ids(NextBatch(s, c))) + PrintOrder(Batches(AfterBatch(s, c), c))
         == done + PrintOrder(Batches(s, c))
    ensures (spent + MaxTime(NextBatch(s, c))) + TotalTime(Batches(AfterBatch(s, c), c))
         == spent + TotalTime(Batches(s, c))
  {
    var rest := Batches(AfterBatch(s, c), c);
    assert ([NextBatch(s, c)] + rest)[1..] == rest;
  }

  // ---------------------------------------------------------------------
  // Taken and Kept: splitting a range by index membership

  /** Removing listed indices shortens the range by at least one when one is listed. */
  lemma {:induction false} KeptShorter(s: seq<PrintJob>, U: seq<int>, lo: int, hi: int, k: int)
    requires 0 <= lo <= hi <= |s|
    requires lo <= k < hi ==> k in U
    ensures |Kept(s, U, lo, hi)| <= hi - lo
    ensures lo <= k < hi ==> |Kept(s, U, lo, hi)| < hi - lo
    decreases hi - lo
  {
    if lo < hi {
      KeptShorter(s, U, lo + 1, hi, k);
    }
  }

  /** Only membership within the range matters. */
  lemma {:induction false} TakenAgree(s: seq<PrintJob>, A: seq<int>, B: seq<int>, lo: int, hi: int)
    requires 0 <= lo <= hi <= |s|
    requires forall k :: lo <= k < hi ==> (k in A <==> k in B)
    ensures Taken(s, A, lo, hi) == Taken(s, B, lo, hi)
    decreases hi - lo
  {
    if lo < hi {
      TakenAgree(s, A, B, lo + 1, hi);
    }
  }

  /** A range with no listed index: nothing is taken and all of it is kept. */
  lemma {:induction false} NoneListed(s: seq<PrintJob>, U: seq<int>, lo: int, hi: int)
    requires 0 <= lo <= hi <= |s|
    requires forall j :: 0 <= j < |U| ==> U[j] < lo || hi <= U[j]
    ensures Taken(s, U, lo, hi) == []
    ensures Kept(s, U, lo, hi) == s[lo..hi]
    decreases hi - lo
  {
    if lo < hi {
      NoneListed(s, U, lo + 1, hi);
      assert s[lo..hi] == [s[lo]] + s[lo + 1..hi];
    }
  }

  /** Extending the range by one index at its top end. */
  lemma {:induction false} TakenExtend(s: seq<PrintJob>, U: seq<int>, lo: int, hi: int)
    requires 0 <= lo <= hi < |s|
    ensures Taken(s, U, lo, hi + 1) == Taken(s, U, lo, hi) + (if hi in U then [s[hi]] else [])
    decreases hi - lo
  {
    if lo < hi {
      TakenExtend(s, U, lo + 1, hi);
    }
  }

  /** The scan accepts index idx when its job fits: it joins the accepted indices. */
  lemma ScanAccepts(s: seq<PrintJob>, c: PrinterConstraints, U: seq<int>, idx: int, cnt: int, vol: real)
    requires 0 <= idx < |s| && cnt < c.maxItems
    requires vol + s[idx].volume <= c.maxVolume && cnt + 1 <= c.maxItems
    ensures U + ScanFrom(s, c, idx, cnt, vol)
         == (U + [idx]) + ScanFrom(s, c, idx + 1, cnt + 1, vol + s[idx].volume)
  {
    assert ScanFrom(s, c, idx, cnt, vol) == [idx] + ScanFrom(s, c, idx + 1, cnt + 1, vol + s[idx].volume);
  }

  /** The scan passes over index idx when its job does not fit. */
  lemma ScanSkips(s: seq<PrintJob>, c: PrinterConstraints, idx: int, cnt: int, vol: real)
    requires 0 <= idx < |s| && cnt < c.maxItems
    requires !(vol + s[idx].volume <= c.maxVolume && cnt + 1 <= c.maxItems)
    ensures ScanFrom(s, c, idx, cnt, vol) == ScanFrom(s, c, idx + 1, cnt, vol)
  {
  }

  /** The scan's batch is empty exactly when the scan accepts no index. */
  lemma ScanTakesSome(s: seq<PrintJob>, c: PrinterConstraints)
    ensures Taken(s, Scan(s, c), 0, |s|) == [] <==> Scan(s, c) == []
  {
    var U := Scan(s, c);
    assert Within(U, 0, |s|);
    if U == [] {
      NoneListed(s, U, 0, |s|);
    } else {
      TakenNonEmpty(s, U, 0, |s|, U[0]);
    }
  }

  /** One step of the scan: index idx, above every listed one, is accepted or skipped. */
  lemma TakenScanStep(s: seq<PrintJob>, U: seq<int>, idx: int)
    requires 0 <= idx < |s|
    requires forall j :: 0 <= j < |U| ==> U[j] < idx
    ensures Taken(s, U + [idx], 0, idx + 1) == Taken(s, U, 0, idx) + [s[idx]]
    ensures Taken(s, U, 0, idx + 1) == Taken(s, U, 0, idx)
  {
    var V := U + [idx];
    assert idx in V && idx !in U;
    assert forall k :: 0 <= k < idx ==> (k in V <==> k in U);
    TakenExtend(s, U, 0, idx);
    TakenExtend(s, V, 0, idx);
    TakenAgree(s, V, U, 0, idx);
  }

  /** Cutting a range at m when no index listed in U lies in [m, hi). */
  lemma {:induction false} TakenPrefix(s: seq<PrintJob>, U: seq<int>, lo: int, m: int, hi: int)
    requires 0 <= lo <= m <= hi <= |s|
    requires forall j :: 0 <= j < |U| ==> U[j] < m || hi <= U[j]
    ensures Taken(s, U, lo, hi) == Taken(s, U, lo, m)
    decreases m - lo
  {
    if lo < m {
      TakenPrefix(s, U, lo + 1, m, hi);
    } else {
      NoneListed(s, U, m, hi);
    }
  }

  /** Kept over [lo, |s|) when no index listed in U lies in [lo, m). */
  lemma {:induction false} KeptSkipRun(s: seq<PrintJob>, U: seq<int>, lo: int, m: int)
    requires 0 <= lo <= m <= |s|
    requires forall j :: 0 <= j < |U| ==> U[j] < lo || m <= U[j]
    ensures Kept(s, U, lo, |s|) == s[lo..m] + Kept(s, U, m, |s|)
    decreases m - lo
  {
    if lo < m {
      assert lo !in U;
      KeptSkipRun(s, U, lo + 1, m);
      assert Kept(s, U, lo, |s|) == [s[lo]] + Kept(s, U, lo + 1, |s|);
      assert s[lo..m] == [s[lo]] + s[lo + 1..m];
    }
  }

  /** Taken and Kept split the range: together they hold each job of it once. */
  lemma {:induction false} Partition(s: seq<PrintJob>, U: seq<int>, lo: int, hi: int)
    requires 0 <= lo <= hi <= |s|
    ensures multiset(Taken(s, U, lo, hi)) + multiset(Kept(s, U, lo, hi)) == multiset(s[lo..hi])
    decreases hi - lo
  {
    if lo < hi {
      Partition(s, U, lo + 1, hi);
      SliceCons(s, lo, hi);
      ConsEither(s[lo], Taken(s, U, lo + 1, hi), Kept(s, U, lo + 1, hi), s[lo + 1..hi]);
    }
  }

  lemma SliceCons(s: seq<PrintJob>, lo: int, hi: int)
    requires 0 <= lo < hi <= |s|
    ensures s[lo..hi] == [s[lo]] + s[lo + 1..hi]
  {
  }

  lemma ConsEither(x: PrintJob, t: seq<PrintJob>, k: seq<PrintJob>, rest: seq<PrintJob>)
    requires multiset(t) + multiset(k) == multiset(rest)
    ensures multiset([x] + t) + multiset(k) == multiset([x] + rest)
    ensures multiset(t) + multiset([x] + k) == multiset([x] + rest)
  {
  }

  /** So the identifiers of the two parts are those of the range. */
  lemma {:induction false} PartitionIds(s: seq<PrintJob>, U: seq<int>, lo: int, hi: int)
    requires 0 <= lo <= hi <= |s|
    ensures multiset(Ids(Taken(s, U, lo, hi))) + multiset(Ids(Kept(s, U, lo, hi)))
         == multiset(Ids(s[lo..hi]))
    decreases hi - lo
  {
    if lo < hi {
      PartitionIds(s, U, lo + 1, hi);
      var t, k := Taken(s, U, lo + 1, hi), Kept(s, U, lo + 1, hi);
      SliceCons(s, lo, hi);
      IdsEither(s[lo], t, k, s[lo + 1..hi]);
      if lo in U {
        assert Taken(s, U, lo, hi) == [s[lo]] + t;
        assert Kept(s, U, lo, hi) == k;
      } else {
        assert Taken(s, U, lo, hi) == t;
        assert Kept(s, U, lo, hi) == [s[lo]] + k;
      }
    }
  }

  lemma IdsEither(x: PrintJob, t: seq<PrintJob>, k: seq<PrintJob>, rest: seq<PrintJob>)
    requires multiset(Ids(t)) + multiset(Ids(k)) == multiset(Ids(rest))
    ensures multiset(Ids([x] + t)) + multiset(Ids(k)) == multiset(Ids([x] + rest))
    ensures multiset(Ids(t)) + multiset(Ids([x] + k)) == multiset(Ids([x] + rest))
  {
    IdsCons(x, t);
    IdsCons(x, k);
    IdsCons(x, rest);
  }

  /** And so are their print times. */
  lemma {:induction false} PartitionTime(s: seq<PrintJob>, U: seq<int>, lo: int, hi: int)
    requires 0 <= lo <= hi <= |s|
    ensures SumTime(Taken(s, U, lo, hi)) + SumTime(Kept(s, U, lo, hi)) == SumTime(s[lo..hi])
    decreases hi - lo
  {
    if lo < hi {
      PartitionTime(s, U, lo + 1, hi);
      var t, k := Taken(s, U, lo + 1, hi), Kept(s, U, lo + 1, hi);
      assert s[lo..hi] == [s[lo]] + s[lo + 1..hi];
      SumTimeCons(s[lo], s[lo + 1..hi]);
      if lo in U {
        assert Taken(s, U, lo, hi) == [s[lo]] + t;
        assert Kept(s, U, lo, hi) == k;
        SumTimeCons(s[lo], t);
      } else {
        assert Taken(s, U, lo, hi) == t;
        assert Kept(s, U, lo, hi) == [s[lo]] + k;
        SumTimeCons(s[lo], k);
      }
    }
  }

  /** A listed index inside the range puts a job in Taken. */
  lemma {:induction false} TakenNonEmpty(s: seq<PrintJob>, U: seq<int>, lo: int, hi: int, k: int)
    requires 0 <= lo <= k < hi <= |s| && k in U
    ensures |Taken(s, U, lo, hi)| > 0
    decreases hi - lo
  {
    if lo < k {
      TakenNonEmpty(s, U, lo + 1, hi, k);
    }
  }

  /** Every job taken or kept comes from the range. */
  lemma FromRange(s: seq<PrintJob>, U: seq<int>, lo: int, hi: int)
    requires 0 <= lo <= hi <= |s|
    ensures forall x :: x in Taken(s, U, lo, hi) ==> x in s[lo..hi]
    ensures forall x :: x in Kept(s, U, lo, hi) ==> x in s[lo..hi]
  {
    Partition(s, U, lo, hi);
    forall x | x in Taken(s, U, lo, hi) ensures x in s[lo..hi] {
      assert x in multiset(Taken(s, U, lo, hi));
      assert x in multiset(s[lo..hi]);
    }
    forall x | x in Kept(s, U, lo, hi) ensures x in s[lo..hi] {
      assert x in multiset(Kept(s, U, lo, hi));
      assert x in multiset(s[lo..hi]);
    }
  }

  /** Taking or keeping part of a sorted list leaves it sorted. */
  lemma {:induction false} SortedParts(s: seq<PrintJob>, U: seq<int>, lo: int, hi: int)
    requires 0 <= lo <= hi <= |s| && Sorted(s)
    ensures Sorted(Taken(s, U, lo, hi)) && Sorted(Kept(s, U, lo, hi))
    decreases hi - lo
  {
    if lo < hi {
      SortedParts(s, U, lo + 1, hi);
      FromRange(s, U, lo + 1, hi);
      var t, k := Taken(s, U, lo + 1, hi), Kept(s, U, lo + 1, hi);
      forall j | 0 <= j < |t| ensures KeyLe(s[lo], t[j]) {
        assert t[j] in s[lo + 1..hi];
      }
      forall j | 0 <= j < |k| ensures KeyLe(s[lo], k[j]) {
        assert k[j] in s[lo + 1..hi];
      }
      SortedCons(s[lo], t);
      SortedCons(s[lo], k);
    }
  }

  // ---------------------------------------------------------------------
  // The greedy scan

  /**
   * The greedy rule, both directions: a job at index k is accepted exactly
   * when, given the jobs accepted before it, the batch still has room for one
   * more item and for its volume. A job that does not fit is skipped and
   * later jobs are still judged on their own.
   */
  lemma {:induction false} GreedyChoice(s: seq<PrintJob>, c: PrinterConstraints, i: int, cnt: int, vol: real, k: int)
    requires 0 <= i <= k < |s|
    ensures var r := ScanFrom(s, c, i, cnt, vol);
            var before := Taken(s, r, i, k);
            k in r <==> cnt + |before| < c.maxItems && vol + SumVol(before) + s[k].volume <= c.maxVolume
    decreases k - i
  {
    var r := ScanFrom(s, c, i, cnt, vol);
    if cnt >= c.maxItems {
      NoneListed(s, r, i, k);
    } else if i < k {
      var v := s[i].volume;
      if vol + v <= c.maxVolume && cnt + 1 <= c.maxItems {
        GreedyChoice(s, c, i + 1, cnt + 1, vol + v, k);
        ScanTakes(s, c, i, cnt, vol, k);
        SumVolCons(s[i], Taken(s, ScanFrom(s, c, i + 1, cnt + 1, vol + v), i + 1, k));
      } else {
        GreedyChoice(s, c, i + 1, cnt, vol, k);
        ScanPasses(s, c, i, cnt, vol, k);
      }
    }
  }

  /**
   * A batch the scan fills respects both limits: at most maxItems jobs and
   * at most maxVolume in all.
   */
  lemma {:induction false} ScanWithinLimits(s: seq<PrintJob>, c: PrinterConstraints, i: int, cnt: int, vol: real)
    requires 0 <= i <= |s|
    requires cnt <= c.maxItems && vol <= c.maxVolume
    ensures var b := Taken(s, ScanFrom(s, c, i, cnt, vol), i, |s|);
            cnt + |b| <= c.maxItems && vol + SumVol(b) <= c.maxVolume
    decreases |s| - i
  {
    var r := ScanFrom(s, c, i, cnt, vol);
    if i == |s| || cnt >= c.maxItems {
      NoneListed(s, r, i, |s|);
    } else {
      var v := s[i].volume;
      if vol + v <= c.maxVolume && cnt + 1 <= c.maxItems {
        ScanWithinLimits(s, c, i + 1, cnt + 1, vol + v);
        var b' := Taken(s, ScanFrom(s, c, i + 1, cnt + 1, vol + v), i + 1, |s|);
        ScanTakes(s, c, i, cnt, vol, |s|);
        SumVolCons(s[i], b');
        assert |[s[i]] + b'| == 1 + |b'|;
      } else {
        ScanWithinLimits(s, c, i + 1, cnt, vol);
        ScanPasses(s, c, i, cnt, vol, |s|);
      }
    }
  }

  /** The scan's jobs from an accepted index i on: s[i], then those of the rest of the scan. */
  lemma ScanTakes(s: seq<PrintJob>, c: PrinterConstraints, i: int, cnt: int, vol: real, hi: int)
    requires 0 <= i < hi <= |s| && cnt < c.maxItems
    requires vol + s[i].volume <= c.maxVolume && cnt + 1 <= c.maxItems
    ensures Taken(s, ScanFrom(s, c, i, cnt, vol), i, hi)
         == [s[i]] + Taken(s, ScanFrom(s, c, i + 1, cnt + 1, vol + s[i].volume), i + 1, hi)
  {
    var r, r' := ScanFrom(s, c, i, cnt, vol), ScanFrom(s, c, i + 1, cnt + 1, vol + s[i].volume);
    assert r == [i] + r';
    TakenAgree(s, r, r', i + 1, hi);
  }

  /** The scan's jobs from a skipped index i on: those of the rest of the scan. */
  lemma ScanPasses(s: seq<PrintJob>, c: PrinterConstraints, i: int, cnt: int, vol: real, hi: int)
    requires 0 <= i < hi <= |s| && cnt < c.maxItems
    requires !(vol + s[i].volume <= c.maxVolume && cnt + 1 <= c.maxItems)
    ensures Taken(s, ScanFrom(s, c, i, cnt, vol), i, hi) == Taken(s, ScanFrom(s, c, i + 1, cnt, vol), i + 1, hi)
  {
    var r := ScanFrom(s, c, i, cnt, vol);
    assert r == ScanFrom(s, c, i + 1, cnt, vol);
    assert i !in r;
  }

  /** The batch respects both limits. */
  predicate Fits(b: seq<PrintJob>, c: PrinterConstraints) {
    |b| <= c.maxItems && SumVol(b) <= c.maxVolume
  }

  /** A job whose volume alone exceeds the limit, printed by itself. */
  predicate Oversized(b: seq<PrintJob>, c: PrinterConstraints) {
    |b| == 1 && b[0].volume > c.maxVolume
  }

  /**
   * One step: when the scan accepts something, the batch fits; when it
   * accepts nothing, every remaining job is too large by itself and the batch
   * is the first remaining job alone.
   */
  lemma NextBatchShape(s: seq<PrintJob>, c: PrinterConstraints)
    requires |s| > 0 && ValidConstraints(c)
    ensures Scan(s, c) != [] ==> Fits(NextBatch(s, c), c)
    ensures Scan(s, c) == [] ==>
              && NextBatch(s, c) == [s[0]]
              && forall k :: 0 <= k < |s| ==> s[k].volume > c.maxVolume
  {
    if Scan(s, c) != [] {
      ScanWithinLimits(s, c, 0, 0, 0.0);
    } else {
      NoneListed(s, [0], 1, |s|);
      forall k | 0 <= k < |s| ensures s[k].volume > c.maxVolume {
        GreedyChoice(s, c, 0, 0, 0.0, k);
        NoneListed(s, [], 0, k);
      }
    }
  }

  // ---------------------------------------------------------------------
  // The whole schedule

  /** Each step moves every job into the batch or the rest, exactly once. */
  lemma StepPartition(s: seq<PrintJob>, c: PrinterConstraints)
    requires |s| > 0
    ensures multiset(NextBatch(s, c)) + multiset(AfterBatch(s, c)) == multiset(s)
    ensures multiset(Ids(NextBatch(s, c))) + multiset(Ids(AfterBatch(s, c))) == multiset(Ids(s))
    ensures SumTime(NextBatch(s, c)) + SumTime(AfterBatch(s, c)) == SumTime(s)
  {
    var U := BatchIndices(s, c);
    Partition(s, U, 0, |s|);
    PartitionIds(s, U, 0, |s|);
    PartitionTime(s, U, 0, |s|);
    assert s[0..|s|] == s;
  }

  /** The jobs left after a step keep positive print times. */
  lemma AfterBatchPositive(s: seq<PrintJob>, c: PrinterConstraints)
    requires |s| > 0 && PositiveTimes(s)
    ensures PositiveTimes(AfterBatch(s, c))
  {
    var rest := AfterBatch(s, c);
    FromRange(s, BatchIndices(s, c), 0, |s|);
    assert s[0..|s|] == s;
    forall k | 0 <= k < |rest| ensures rest[k].printTime > 0 {
      assert rest[k] in s;
    }
  }

  /**
   * print_order is a permutation of the jobs' identifiers: every job is
   * printed exactly once, and nothing else is printed.
   */
  lemma {:induction false} PrintOrderPermutes(s: seq<PrintJob>, c: PrinterConstraints)
    ensures multiset(PrintOrder(Batches(s, c))) == multiset(Ids(s))
    decreases |s|
  {
    if |s| > 0 {
      PrintOrderPermutes(AfterBatch(s, c), c);
      StepPartition(s, c);
    }
  }

  /** Every batch is non-empty, and it fits or is one oversized job alone. */
  lemma {:induction false} AllBatchesFit(s: seq<PrintJob>, c: PrinterConstraints)
    requires ValidConstraints(c)
    ensures forall i :: 0 <= i < |Batches(s, c)| ==>
              |Batches(s, c)[i]| > 0 && (Fits(Batches(s, c)[i], c) || Oversized(Batches(s, c)[i], c))
    decreases |s|
  {
    if |s| > 0 {
      var B, rest := Batches(s, c), Batches(AfterBatch(s, c), c);
      AllBatchesFit(AfterBatch(s, c), c);
      NextBatchShape(s, c);
      var U := BatchIndices(s, c);
      TakenNonEmpty(s, U, 0, |s|, U[0]);
      assert B == [NextBatch(s, c)] + rest;
      forall i | 0 < i < |B| ensures B[i] == rest[i - 1] { }
    }
  }

  /**
   * Starting from a sorted list, every batch lists its jobs in candidate
   * order, and every list of remaining jobs stays sorted.
   */
  lemma {:induction false} BatchesSorted(s: seq<PrintJob>, c: PrinterConstraints)
    requires Sorted(s)
    ensures forall i :: 0 <= i < |Batches(s, c)| ==> Sorted(Batches(s, c)[i])
    decreases |s|
  {
    if |s| > 0 {
      SortedParts(s, BatchIndices(s, c), 0, |s|);
      BatchesSorted(AfterBatch(s, c), c);
    }
  }

  /**
   * The total time is at least the longest single print time and at most the
   * sum of all print times.
   */
  lemma {:induction false} TotalTimeBounds(s: seq<PrintJob>, c: PrinterConstraints)
    requires PositiveTimes(s)
    ensures TotalTime(Batches(s, c)) <= SumTime(s)
    ensures forall k :: 0 <= k < |s| ==> s[k].printTime <= TotalTime(Batches(s, c))
    decreases |s|
  {
    if |s| > 0 {
      var b, rest := NextBatch(s, c), AfterBatch(s, c);
      StepPartition(s, c);
      AfterBatchPositive(s, c);
      NextBatchPositive(s, c);
      TotalTimeBounds(rest, c);
      MaxTimeAtMostSum(b);
      MaxTimeIsMaximum(b);
      assert Batches(s, c) == [b] + Batches(rest, c);
      assert TotalTime(Batches(s, c)) == MaxTime(b) + TotalTime(Batches(rest, c));
      forall k | 0 <= k < |s| ensures s[k].printTime <= TotalTime(Batches(s, c)) {
        InBatchOrRest(s, c, k);
        if s[k] in b {
          var m :| 0 <= m < |b| && b[m] == s[k];
        } else {
          var m :| 0 <= m < |rest| && rest[m] == s[k];
        }
      }
    }
  }

  /** The jobs of a batch keep positive print times. */
  lemma NextBatchPositive(s: seq<PrintJob>, c: PrinterConstraints)
    requires |s| > 0 && PositiveTimes(s)
    ensures PositiveTimes(NextBatch(s, c))
  {
    var b := NextBatch(s, c);
    FromRange(s, BatchIndices(s, c), 0, |s|);
    assert s[0..|s|] == s;
    forall k | 0 <= k < |b| ensures b[k].printTime > 0 {
      assert b[k] in s;
    }
  }

  /** Each job goes into the next batch or stays for a later one. */
  lemma InBatchOrRest(s: seq<PrintJob>, c: PrinterConstraints, k: int)
    requires 0 <= k < |s|
    ensures s[k] in NextBatch(s, c) || s[k] in AfterBatch(s, c)
  {
    StepPartition(s, c);
    assert s[k] in multiset(s);
    if s[k] !in multiset(NextBatch(s, c)) {
      assert s[k] in multiset(AfterBatch(s, c));
    }
  }
}
