/**
 * The print scheduler's records and their ingestion (task_2.py, PrintJob,
 * PrinterConstraints and _to_dataclasses): every caller-supplied job is
 * checked and stamped with its input position, then the constraints are
 * checked; the first failing check rejects the whole call.
 */
module PrintJobs {
  import opened Wrappers

  /** A job as the caller supplies it: no input position yet. */
  datatype JobRecord = JobRecord(id: string, volume: real, priority: int, printTime: int)

  /** An ingested job; `order` is its 0-based position in the caller's list. */
  datatype PrintJob = PrintJob(id: string, volume: real, priority: int, printTime: int, order: int)

  datatype PrinterConstraints = PrinterConstraints(maxVolume: real, maxItems: int)

  /** Why ingestion rejected its input; job errors name the offending job. */
  datatype InvalidArgument =
    | BadJobData(jobId: string)
    | BadPriority(jobId: string, priority: int)
    | BadConstraints

  /** A record that passes both checks of ingestion. */
  predicate ValidRecord(rec: JobRecord) {
    rec.volume > 0.0 && rec.printTime > 0 && 1 <= rec.priority <= 3
  }

  predicate ValidConstraints(c: PrinterConstraints) {
    c.maxVolume > 0.0 && c.maxItems > 0
  }

  /**
   * The error ingestion raises for one record, if any: the volume and print
   * time check comes first, the priority check second.
   */
  function JobError(rec: JobRecord): (e: Option<InvalidArgument>)
    ensures e.None? <==> ValidRecord(rec)
    ensures e.Some? ==> !e.value.BadConstraints? && e.value.jobId == rec.id
    ensures e.Some? && e.value.BadPriority? ==> e.value.priority == rec.priority
    ensures rec.volume <= 0.0 || rec.printTime <= 0 ==> e == Some(BadJobData(rec.id))
  {
    if rec.volume <= 0.0 || rec.printTime <= 0 then Some(BadJobData(rec.id))
    else if rec.priority !in {1, 2, 3} then Some(BadPriority(rec.id, rec.priority))
    else None
  }

  /** The error of the first record, in input order, that fails a check. */
  function FirstJobError(records: seq<JobRecord>): Option<InvalidArgument>
  {
    if |records| == 0 then None
    else if JobError(records[0]).Some? then JobError(records[0])
    else FirstJobError(records[1..])
  }

  /** Record i becomes a job whose order is i. */
  function Stamp(records: seq<JobRecord>): seq<PrintJob>
  {
    seq(|records|, i requires 0 <= i < |records| =>
      PrintJob(records[i].id, records[i].volume, records[i].priority, records[i].printTime, i))
  }

  /** What ingestion returns: the stamped jobs and the constraints, or the first error. */
  function Ingest(records: seq<JobRecord>, constraints: PrinterConstraints)
    : Result<(seq<PrintJob>, PrinterConstraints), InvalidArgument>
  {
    match FirstJobError(records)
    case Some(e) => Err(e)
    case None =>
      if constraints.maxVolume <= 0.0 || constraints.maxItems <= 0 then Err(BadConstraints)
      else Ok((Stamp(records), constraints))
  }

  /** No error is reported exactly when every record passes its checks. */
  lemma {:induction false} FirstJobErrorNone(records: seq<JobRecord>)
    ensures FirstJobError(records).None? <==> forall k :: 0 <= k < |records| ==> ValidRecord(records[k])
  {
    if |records| > 0 {
      FirstJobErrorNone(records[1..]);
      assert forall k :: 1 <= k < |records| ==> records[k] == records[1..][k - 1];
    }
  }

  /** The reported error is that of the first failing record. */
  lemma {:induction false} FirstJobErrorAt(records: seq<JobRecord>, k: int)
    requires 0 <= k < |records| && !ValidRecord(records[k])
    requires forall j :: 0 <= j < k ==> ValidRecord(records[j])
    ensures FirstJobError(records) == JobError(records[k])
  {
    if k > 0 {
      FirstJobErrorAt(records[1..], k - 1);
    }
  }

  /**
   * Ingestion succeeds exactly when every record and the constraints are
   * valid; it then keeps the input order, stamps each job with its index and
   * copies every field.
   */
  lemma IngestAccepts(records: seq<JobRecord>, constraints: PrinterConstraints)
    ensures Ingest(records, constraints).Ok? <==>
      (forall k :: 0 <= k < |records| ==> ValidRecord(records[k])) && ValidConstraints(constraints)
    ensures Ingest(records, constraints).Ok? ==>
      var (jobs, cons) := Ingest(records, constraints).value;
      && cons == constraints
      && |jobs| == |records|
      && forall i :: 0 <= i < |jobs| ==>
           && jobs[i].order == i
           && jobs[i].id == records[i].id
           && jobs[i].volume == records[i].volume > 0.0
           && jobs[i].printTime == records[i].printTime > 0
           && jobs[i].priority == records[i].priority
           && 1 <= jobs[i].priority <= 3
  {
    FirstJobErrorNone(records);
  }

  /** Ingested jobs all have positive print times. */
  lemma IngestedPositive(records: seq<JobRecord>, constraints: PrinterConstraints)
    requires Ingest(records, constraints).Ok?
    ensures PositiveTimes(Ingest(records, constraints).value.0)
  {
    FirstJobErrorNone(records);
  }

  /**
   * A failing record rejects the call with its own error (naming its id, and
   * for a bad priority the value), even when the constraints are bad too.
   */
  lemma IngestRejectsJob(records: seq<JobRecord>, constraints: PrinterConstraints, k: int)
    requires 0 <= k < |records| && !ValidRecord(records[k])
    requires forall j :: 0 <= j < k ==> ValidRecord(records[j])
    ensures Ingest(records, constraints) == Err(JobError(records[k]).value)
    ensures records[k].volume <= 0.0 || records[k].printTime <= 0 ==>
      Ingest(records, constraints) == Err(BadJobData(records[k].id))
    ensures records[k].volume > 0.0 && records[k].printTime > 0 ==>
      Ingest(records, constraints) == Err(BadPriority(records[k].id, records[k].priority))
  {
    FirstJobErrorAt(records, k);
  }

  /** With every record valid, bad constraints are rejected. */
  lemma IngestRejectsConstraints(records: seq<JobRecord>, constraints: PrinterConstraints)
    requires forall k :: 0 <= k < |records| ==> ValidRecord(records[k])
    requires !ValidConstraints(constraints)
    ensures Ingest(records, constraints) == Err(BadConstraints)
  {
    FirstJobErrorNone(records);
  }

  /**
   * _to_dataclasses: one pass over the records, raising on the first bad one
   * and appending each good one with its index, then the constraints check.
   */
  method ToDataclasses(printJobs: seq<JobRecord>, constraints: PrinterConstraints)
    returns (r: Result<(seq<PrintJob>, PrinterConstraints), InvalidArgument>)
    ensures r == Ingest(printJobs, constraints)
  {
    var jobs: seq<PrintJob> := [];
    for i := 0 to |printJobs|
      invariant jobs == Stamp(printJobs[..i])
      invariant forall k :: 0 <= k < i ==> ValidRecord(printJobs[k])
    {
      var j := printJobs[i];
      var job := PrintJob(j.id, j.volume, j.priority, j.printTime, i);
      if job.volume <= 0.0 || job.printTime <= 0 {
        FirstJobErrorAt(printJobs, i);
        return Err(BadJobData(job.id));
      }
      if job.priority !in {1, 2, 3} {
        FirstJobErrorAt(printJobs, i);
        return Err(BadPriority(job.id, job.priority));
      }
      jobs := jobs + [job];
    }
    assert printJobs[..|printJobs|] == printJobs;
    FirstJobErrorNone(printJobs);
    var cons := constraints;
    if cons.maxVolume <= 0.0 || cons.maxItems <= 0 {
      return Err(BadConstraints);
    }
    return Ok((jobs, cons));
  }

  /** Total volume of a list of jobs. */
  function SumVol(s: seq<PrintJob>): real
  {
    if |s| == 0 then 0.0 else s[0].volume + SumVol(s[1..])
  }

  /** Total print time of a list of jobs. */
  function SumTime(s: seq<PrintJob>): int
  {
    if |s| == 0 then 0 else s[0].printTime + SumTime(s[1..])
  }

  /**
   * A batch's duration: the running maximum of the print times, starting
   * from 0 as the scan does.
   */
  function MaxTime(s: seq<PrintJob>): int
  {
    if |s| == 0 then 0
    else
      var m := MaxTime(s[..|s| - 1]);
      if s[|s| - 1].printTime > m then s[|s| - 1].printTime else m
  }

  /**
   * The duration is the largest print time of the batch (0 for no job): no
   * job prints longer, and some job prints exactly that long.
   */
  lemma {:induction false} MaxTimeIsMaximum(s: seq<PrintJob>)
    ensures MaxTime(s) >= 0
    ensures forall k :: 0 <= k < |s| ==> s[k].printTime <= MaxTime(s)
    ensures MaxTime(s) == 0 || exists k :: 0 <= k < |s| && s[k].printTime == MaxTime(s)
  {
    if |s| > 0 {
      var init := s[..|s| - 1];
      MaxTimeIsMaximum(init);
      assert forall k :: 0 <= k < |s| - 1 ==> s[k] == init[k];
    }
  }

  /** Appending a job raises the running maximum to its print time if that is larger. */
  lemma MaxTimeAppend(s: seq<PrintJob>, x: PrintJob)
    ensures MaxTime(s + [x]) == if x.printTime > MaxTime(s) then x.printTime else MaxTime(s)
  {
    assert (s + [x])[..|s|] == s;
  }

  /** The identifiers of a list of jobs, in order. */
  function Ids(s: seq<PrintJob>): seq<string>
  {
    seq(|s|, i requires 0 <= i < |s| => s[i].id)
  }

  lemma IdsCons(x: PrintJob, t: seq<PrintJob>)
    ensures Ids([x] + t) == [x.id] + Ids(t)
  {
  }

  lemma SumVolCons(x: PrintJob, t: seq<PrintJob>)
    ensures SumVol([x] + t) == x.volume + SumVol(t)
  {
    assert ([x] + t)[1..] == t;
  }

  lemma SumTimeCons(x: PrintJob, t: seq<PrintJob>)
    ensures SumTime([x] + t) == x.printTime + SumTime(t)
  {
    assert ([x] + t)[1..] == t;
  }

  predicate PositiveTimes(s: seq<PrintJob>) {
    forall k :: 0 <= k < |s| ==> s[k].printTime > 0
  }

  /** Each print time is at most the sum of all of them, when none is negative. */
  lemma {:induction false} TimeAtMostSum(s: seq<PrintJob>, k: int)
    requires PositiveTimes(s) && 0 <= k < |s|
    ensures s[k].printTime <= SumTime(s)
    ensures SumTime(s) > 0
  {
    if k > 0 {
      TimeAtMostSum(s[1..], k - 1);
    } else if |s| > 1 {
      TimeAtMostSum(s[1..], 0);
    }
  }

  /** A batch's duration is at most its summed print time. */
  lemma MaxTimeAtMostSum(s: seq<PrintJob>)
    requires PositiveTimes(s)
    ensures MaxTime(s) <= SumTime(s)
  {
    MaxTimeIsMaximum(s);
    if MaxTime(s) != 0 {
      var k :| 0 <= k < |s| && s[k].printTime == MaxTime(s);
      TimeAtMostSum(s, k);
    }
  }
}
