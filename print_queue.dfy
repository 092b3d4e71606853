/**
 * optimize_printing (task_2.py lines 46-101): ingest, sort, then form batches
 * greedily until no job remains, accumulating the print order and the total
 * time.
 */
module PrintQueue {
  import opened Wrappers
  import opened PrintJobs
  import opened JobOrder
  import opened Batching

  /** The result returned to the caller. */
  datatype Schedule = Schedule(printOrder: seq<string>, totalTime: int)

  /** What optimize_printing computes: the error of ingestion, or the schedule. */
  function Optimize(records: seq<JobRecord>, constraints: PrinterConstraints): Result<Schedule, InvalidArgument>
  {
    match Ingest(records, constraints)
    case Err(e) => Err(e)
    case Ok((jobs, cons)) =>
      var B := Batches(SortJobs(jobs), cons);
      Ok(Schedule(PrintOrder(B), TotalTime(B)))
  }

  /**
   * optimize_printing: the outer loop forms one batch per iteration, adds
   * its duration and its identifiers, and removes its jobs from `remaining`.
   */
  method OptimizePrinting(printJobs: seq<JobRecord>, constraints: PrinterConstraints)
    returns (r: Result<Schedule, InvalidArgument>)
    ensures r == Optimize(printJobs, constraints)
  {
    var ingested := ToDataclasses(printJobs, constraints);
    if ingested.Err? {
      return Err(ingested.error);
    }
    var jobs, cons := ingested.value.0, ingested.value.1;
    IngestedPositive(printJobs, constraints);

    var remaining := SortJobs(jobs);
    ghost var sorted := remaining;
    SortedPositive(jobs);

    var totalTime := 0;
    var printOrder: seq<string> := [];

    while |remaining| > 0
      invariant PositiveTimes(remaining)
      invariant printOrder + PrintOrder(Batches(remaining, cons)) == PrintOrder(Batches(sorted, cons))
      invariant totalTime + TotalTime(Batches(remaining, cons)) == TotalTime(Batches(sorted, cons))
      decreases |remaining|
    {
      var batch, usedIdx, batchMaxTime := FormBatch(remaining, cons);
      BatchesStep(printOrder, totalTime, remaining, cons);
      AfterBatchPositive(remaining, cons);
      totalTime := totalTime + batchMaxTime;
      printOrder := printOrder + Ids(batch);
      remaining := RemoveBatch(remaining, usedIdx);
    }
    assert Batches(remaining, cons) == [];
    assert printOrder == PrintOrder(Batches(sorted, cons));
    assert totalTime == TotalTime(Batches(sorted, cons));
    assert Ingest(printJobs, constraints) == Ok((jobs, cons));
    return Ok(Schedule(printOrder, totalTime));
  }

  /**
   * One batch (task_2.py lines 63-87): the greedy scan, then the fallback to
   * the first remaining job alone when the scan accepted nothing.
   */
  method FormBatch(remaining: seq<PrintJob>, cons: PrinterConstraints)
    returns (batch: seq<PrintJob>, usedIdx: seq<int>, batchMaxTime: int)
    requires |remaining| > 0 && PositiveTimes(remaining)
    ensures usedIdx == BatchIndices(remaining, cons)
    ensures batch == NextBatch(remaining, cons)
    ensures batchMaxTime == MaxTime(batch)
  {
    batch, usedIdx, batchMaxTime := GreedyScan(remaining, cons);
    if batch == [] {
      var job := remaining[0];
      batch := [job];
      usedIdx := [0];
      batchMaxTime := job.printTime;
      NoneListed(remaining, usedIdx, 1, |remaining|);
    }
  }

  /**
   * The scan of task_2.py lines 63-79 over the remaining jobs in candidate
   * order: stop once the batch holds maxItems jobs, accept each job whose
   * volume still fits, skip the others, and track the largest print time.
   */
  method GreedyScan(remaining: seq<PrintJob>, cons: PrinterConstraints)
    returns (batch: seq<PrintJob>, usedIdx: seq<int>, batchMaxTime: int)
    ensures usedIdx == Scan(remaining, cons)
    ensures batch == Taken(remaining, usedIdx, 0, |remaining|)
    ensures batch == [] <==> usedIdx == []
    ensures batchMaxTime == MaxTime(batch)
  {
    batch := [];
    usedIdx := [];
    var curVol := 0.0;
    var curCnt := 0;
    batchMaxTime := 0;

    var idx := 0;
    while idx < |remaining|
      invariant 0 <= idx <= |remaining|
      invariant usedIdx + ScanFrom(remaining, cons, idx, curCnt, curVol) == Scan(remaining, cons)
      invariant forall j :: 0 <= j < |usedIdx| ==> usedIdx[j] < idx
      invariant batch == Taken(remaining, usedIdx, 0, idx)
      invariant batchMaxTime == MaxTime(batch)
    {
      if curCnt >= cons.maxItems {
        break;
      }
      var job := remaining[idx];
      if curVol + job.volume <= cons.maxVolume && curCnt + 1 <= cons.maxItems {
        AcceptStep(remaining, cons, usedIdx, batch, idx, curCnt, curVol);
        MaxTimeAppend(batch, job);
        batch := batch + [job];
        usedIdx := usedIdx + [idx];
        curVol := curVol + job.volume;
        curCnt := curCnt + 1;
        if job.printTime > batchMaxTime {
          batchMaxTime := job.printTime;
        }
      } else {
        SkipStep(remaining, cons, usedIdx, batch, idx, curCnt, curVol);
      }
      idx := idx + 1;
    }
    ScanStops(remaining, cons, usedIdx, batch, idx, curCnt, curVol);
    ScanTakesSome(remaining, cons);
  }

  /** The loop invariant of GreedyScan carried over an accepted job. */
  lemma AcceptStep(s: seq<PrintJob>, c: PrinterConstraints, U: seq<int>, batch: seq<PrintJob>,
                   idx: int, cnt: int, vol: real)
    requires 0 <= idx < |s| && cnt < c.maxItems
    requires vol + s[idx].volume <= c.maxVolume && cnt + 1 <= c.maxItems
    requires U + ScanFrom(s, c, idx, cnt, vol) == Scan(s, c)
    requires forall j :: 0 <= j < |U| ==> U[j] < idx
    requires batch == Taken(s, U, 0, idx)
    ensures (U + [idx]) + ScanFrom(s, c, idx + 1, cnt + 1, vol + s[idx].volume) == Scan(s, c)
    ensures forall j :: 0 <= j < |U + [idx]| ==> (U + [idx])[j] < idx + 1
    ensures batch + [s[idx]] == Taken(s, U + [idx], 0, idx + 1)
  {
    ScanAccepts(s, c, U, idx, cnt, vol);
    TakenScanStep(s, U, idx);
  }

  /** Where the scan stops, the accepted indices and the batch are complete. */
  lemma ScanStops(s: seq<PrintJob>, c: PrinterConstraints, U: seq<int>, batch: seq<PrintJob>,
                  idx: int, cnt: int, vol: real)
    requires 0 <= idx <= |s| && (idx == |s| || cnt >= c.maxItems)
    requires U + ScanFrom(s, c, idx, cnt, vol) == Scan(s, c)
    requires forall j :: 0 <= j < |U| ==> U[j] < idx
    requires batch == Taken(s, U, 0, idx)
    ensures U == Scan(s, c)
    ensures batch == Taken(s, U, 0, |s|)
  {
    assert ScanFrom(s, c, idx, cnt, vol) == [];
    TakenPrefix(s, U, 0, idx, |s|);
  }

  /** The loop invariant of GreedyScan carried over a skipped job. */
  lemma SkipStep(s: seq<PrintJob>, c: PrinterConstraints, U: seq<int>, batch: seq<PrintJob>,
                 idx: int, cnt: int, vol: real)
    requires 0 <= idx < |s| && cnt < c.maxItems
    requires !(vol + s[idx].volume <= c.maxVolume && cnt + 1 <= c.maxItems)
    requires U + ScanFrom(s, c, idx, cnt, vol) == Scan(s, c)
    requires forall j :: 0 <= j < |U| ==> U[j] < idx
    requires batch == Taken(s, U, 0, idx)
    ensures U + ScanFrom(s, c, idx + 1, cnt, vol) == Scan(s, c)
    ensures batch == Taken(s, U, 0, idx + 1)
  {
    ScanSkips(s, c, idx, cnt, vol);
    TakenScanStep(s, U, idx);
  }

  /**
   * Removal of a batch (task_2.py lines 95-96): pop the used indices from
   * the highest down, so that the lower ones do not shift; the other jobs
   * keep their relative order.
   */
  method RemoveBatch(remaining: seq<PrintJob>, usedIdx: seq<int>) returns (rest: seq<PrintJob>)
    requires |usedIdx| > 0 && Increasing(usedIdx) && Within(usedIdx, 0, |remaining|)
    ensures rest == Kept(remaining, usedIdx, 0, |remaining|)
  {
    rest := remaining;
    var k := |usedIdx|;
    while k > 0
      invariant 0 <= k <= |usedIdx|
      invariant var p := if k == |usedIdx| then |remaining| else usedIdx[k];
                p <= |remaining| && rest == remaining[..p] + Kept(remaining, usedIdx, p, |remaining|)
    {
      var p := if k == |usedIdx| then |remaining| else usedIdx[k];
      k := k - 1;
      var i := usedIdx[k];
      KeptSkipRun(remaining, usedIdx, i + 1, p);
      DropAt(remaining, i, p, Kept(remaining, usedIdx, p, |remaining|));
      rest := rest[..i] + rest[i + 1..];
    }
    KeptSkipRun(remaining, usedIdx, 0, usedIdx[0]);
  }

  /** pop(i) on a list whose first p jobs are those of r. */
  lemma DropAt(r: seq<PrintJob>, i: int, p: int, tail: seq<PrintJob>)
    requires 0 <= i < p <= |r|
    ensures (r[..p] + tail)[..i] + (r[..p] + tail)[i + 1..] == r[..i] + (r[i + 1..p] + tail)
  {
    var l := r[..p] + tail;
    assert l[..i] == r[..i];
    assert l[i + 1..] == r[i + 1..p] + tail;
  }

  // ---------------------------------------------------------------------
  // What the caller can rely on

  /** The identifiers of the caller's records, in input order. */
  function RecordIds(records: seq<JobRecord>): seq<string>
  {
    seq(|records|, i requires 0 <= i < |records| => records[i].id)
  }

  /**
   * Invalid input is rejected before any scheduling: the first bad record's
   * error (its id, and for a bad priority the value), else the constraints
   * error; valid input is always scheduled.
   */
  lemma OptimizeRejects(records: seq<JobRecord>, constraints: PrinterConstraints)
    ensures Optimize(records, constraints).Ok? <==>
      (forall k :: 0 <= k < |records| ==> ValidRecord(records[k])) && ValidConstraints(constraints)
    ensures forall k :: 0 <= k < |records| && !ValidRecord(records[k])
                        && (forall j :: 0 <= j < k ==> ValidRecord(records[j])) ==>
      Optimize(records, constraints) == Err(JobError(records[k]).value)
    ensures (forall k :: 0 <= k < |records| ==> ValidRecord(records[k])) && !ValidConstraints(constraints) ==>
      Optimize(records, constraints) == Err(BadConstraints)
  {
    IngestAccepts(records, constraints);
    forall k | 0 <= k < |records| && !ValidRecord(records[k])
                && (forall j :: 0 <= j < k ==> ValidRecord(records[j]))
      ensures Optimize(records, constraints) == Err(JobError(records[k]).value)
    {
      IngestRejectsJob(records, constraints, k);
    }
    if (forall k :: 0 <= k < |records| ==> ValidRecord(records[k])) && !ValidConstraints(constraints) {
      IngestRejectsConstraints(records, constraints);
    }
  }

  /**
   * print_order is a permutation of the input identifiers: as many entries
   * as jobs, each job's identifier exactly as often as it was supplied.
   */
  lemma OptimizePrintsEachJobOnce(records: seq<JobRecord>, constraints: PrinterConstraints)
    requires Optimize(records, constraints).Ok?
    ensures multiset(Optimize(records, constraints).value.printOrder) == multiset(RecordIds(records))
    ensures |Optimize(records, constraints).value.printOrder| == |records|
  {
    var (jobs, cons) := Ingest(records, constraints).value;
    var order := PrintOrder(Batches(SortJobs(jobs), cons));
    assert Optimize(records, constraints).value.printOrder == order;
    PrintOrderPermutes(SortJobs(jobs), cons);
    StampIds(records);
    SameCount(order, RecordIds(records));
  }

  /** The stamped jobs carry the records' identifiers, in input order. */
  lemma StampIds(records: seq<JobRecord>)
    ensures Ids(Stamp(records)) == RecordIds(records)
  {
  }

  /** Lists with the same elements, counted with repetition, are equally long. */
  lemma SameCount(a: seq<string>, b: seq<string>)
    requires multiset(a) == multiset(b)
    ensures |a| == |b|
  {
    assert |multiset(a)| == |a| && |multiset(b)| == |b|;
  }

  /**
   * total_time is at least the longest print time of any job and at most
   * the sum of all print times.
   */
  lemma OptimizeTimeBounds(records: seq<JobRecord>, constraints: PrinterConstraints)
    requires Optimize(records, constraints).Ok?
    ensures forall k :: 0 <= k < |records| ==>
              records[k].printTime <= Optimize(records, constraints).value.totalTime
    ensures Optimize(records, constraints).value.totalTime <= SumTime(Ingest(records, constraints).value.0)
    ensures Optimize(records, constraints).value.totalTime <= RecordTimes(records)
  {
    var (jobs, cons) := Ingest(records, constraints).value;
    IngestAccepts(records, constraints);
    IngestedPositive(records, constraints);
    SameTimes(jobs, records);
    var sorted := SortJobs(jobs);
    SortedPositive(jobs);
    TotalTimeBounds(sorted, cons);
    forall k | 0 <= k < |records|
      ensures records[k].printTime <= Optimize(records, constraints).value.totalTime
    {
      assert jobs[k] in multiset(sorted);
      var m :| 0 <= m < |sorted| && sorted[m] == jobs[k];
    }
  }

  /** The sum of the print times of the caller's records. */
  function RecordTimes(records: seq<JobRecord>): int
  {
    if |records| == 0 then 0 else records[0].printTime + RecordTimes(records[1..])
  }

  /** Jobs with the records' print times, position by position, sum to the same total. */
  lemma {:induction false} SameTimes(jobs: seq<PrintJob>, records: seq<JobRecord>)
    requires |jobs| == |records|
    requires forall i :: 0 <= i < |jobs| ==> jobs[i].printTime == records[i].printTime
    ensures SumTime(jobs) == RecordTimes(records)
  {
    if |jobs| > 0 {
      SameTimes(jobs[1..], records[1..]);
    }
  }
}
