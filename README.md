# Min/max by divide and conquer, and a greedy 3D-print batch scheduler

This project models the two routines of a small teaching repository and proves
what they compute.

- **Extremum finder** (`task_1.py`, `min_max_dc`). It returns the pair
  (minimum, maximum) of a sequence of numbers and rejects an empty one.
  Module `MinMax` gives it as a recursive function over `seq<real>`. The
  function has the same base cases and the same split at `n / 2` as the
  source, and it is proved equal to a plain left-to-right scan.
- **Print-queue optimiser** (`task_2.py`, `_to_dataclasses` and
  `optimize_printing`). The source is imperative, and so is the model.
  - `PrintJobs.ToDataclasses` is the validation loop.
  - `PrintQueue.OptimizePrinting` is the outer `while remaining` loop.
  - `PrintQueue.GreedyScan` is the inner scan, with its `break`.
  - `PrintQueue.FormBatch` adds the fallback to the first job alone.
  - `PrintQueue.RemoveBatch` is the reverse-index `pop` loop.

  Each method is proved equal to a specification function:
  - `Ingest`;
  - `Optimize`, built from `SortJobs`;
  - `Scan`, `Taken` and `Kept`;
  - `Batches`, `PrintOrder` and `TotalTime`.

  The lemmas about these functions state what the scheduler promises:
  - rejections that name the offending job;
  - the candidate order;
  - the greedy acceptance rule and the capacity limits;
  - the fallback, and termination;
  - the print order being a permutation of the input identifiers;
  - bounds on the total time;
  - the three scenarios of the repository's test driver.

Modules: `Wrappers` (Option, Result), `MinMax`, `PrintJobs` (records, ingestion,
sums and maxima over jobs), `JobOrder` (the sort by (priority, order)),
`Batching` (the greedy batching as functions), `PrintQueue` (the methods and the
caller-level properties), `Scenarios` (concrete runs).

The candidates are taken in ascending (priority, order) (`task_2.py` lines 49
and 56), but the print order as a whole need not follow that order. A job
skipped because it did not fit prints in a later batch, after jobs that sort
behind it. `Scenarios.LowerPriorityFillsBatch` proves an instance: with limits
(300, 2), the jobs A (200, priority 1), B (200, priority 1) and C (50,
priority 2) print as A, C, B. What does hold is that each batch is in
(priority, order) order (`Batching.BatchesSorted`), and that the jobs left over
stay in that order (`Batching.SortedParts`).

## Model

| member | source | states |
|---|---|---|
| MinMax.MinMaxDC | task_1.py:7-38 | An error exactly for the empty input. Otherwise both returned values occur in the input, and the minimum ≤ every element ≤ the maximum. |
| MinMax.MinMaxDCMatchesScan | task_1.py:32-38 | On every non-empty input the result equals the (minimum, maximum) of a left-to-right scan, so the split point does not matter. |
| MinMax.ExtremesDetermine | task_1.py:7-38 | Any two input elements that bound all the others are exactly the pair returned. |
| MinMax.EmptyRejected | task_1.py:19-21 | The empty sequence gives `Err(EmptySequence)` and no pair. |
| MinMax.BaseCases | task_1.py:24-29 | `[x]` gives (x, x). `[a, b]` gives the smaller value first. |
| MinMax.DemonstrationInput | task_1.py:43-45 | `[7, -3, 5, 12, 0, 9, -8, 4]` gives (-8, 12). |
| MinMax.DemonstrationShortInputs | task_1.py:51-53 | `[42]` gives (42, 42), `[3, -1]` gives (-1, 3), and `[-5, -10]` gives (-10, -5). |
| PrintJobs.JobError | task_2.py:32-35 | A record fails exactly when volume ≤ 0, print time ≤ 0 or priority ∉ {1, 2, 3}. The volume/time check comes first. The error names the job, and a priority error also carries the priority. |
| PrintJobs.FirstJobErrorNone | task_2.py:24-36 | No job error is reported exactly when every record is valid. |
| PrintJobs.FirstJobErrorAt | task_2.py:24-36 | The reported error is that of the first invalid record. |
| PrintJobs.IngestAccepts | task_2.py:22-44 | Ingestion succeeds exactly when all records and the constraints are valid. The jobs then keep the input order, job i has order i, and every field is copied. |
| PrintJobs.IngestedPositive | task_2.py:32-33 | Every ingested job has a positive print time. |
| PrintJobs.IngestRejectsJob | task_2.py:32-35 | The first invalid record rejects the call with its own error: `BadJobData(id)` for a bad volume or time, else `BadPriority(id, priority)`. This holds whatever the constraints are. |
| PrintJobs.IngestRejectsConstraints | task_2.py:38-43 | With all records valid, max_volume ≤ 0 or max_items ≤ 0 gives `Err(BadConstraints)`. |
| PrintJobs.ToDataclasses | task_2.py:22-44 | The append loop returns exactly the result of `Ingest`: the same error on the same record, or the stamped jobs with the constraints. |
| PrintJobs.Ingest | task_2.py:22-44 | What `_to_dataclasses` returns: the first invalid record's error, else `BadConstraints`, else the jobs stamped with their positions and the constraints. `IngestAccepts`, `IngestRejectsJob` and `IngestRejectsConstraints` prove this, and `ToDataclasses` is proved equal to it. |
| PrintJobs.MaxTime | task_2.py:67-79 | A batch's duration: the running maximum of its print times, starting from 0. `MaxTimeIsMaximum` proves it is the largest print time of the batch, or 0 when the batch is empty. |
| PrintJobs.MaxTimeIsMaximum | task_2.py:78-79 | A batch's running maximum, starting from 0, bounds every print time in the batch. It is 0 or equal to one of them. |
| JobOrder.Insert | task_2.py:56 | Inserting into a sorted list keeps it sorted and adds exactly that job. |
| JobOrder.SortJobs | task_2.py:56 | The result is sorted by (priority, order) and is a permutation of the input, with the same identifiers and the same total print time. |
| JobOrder.SortedUnique | task_2.py:56 | A strictly sorted list equals every sorted permutation of it, so with distinct keys every stable sort gives the same list. |
| JobOrder.SortDistinctOrders | task_2.py:56 | Jobs with pairwise distinct orders sort into strictly increasing (priority, order) keys. |
| Batching.ScanFrom | task_2.py:69-79 | The indices one scan accepts are strictly increasing and lie in the scanned range. |
| Batching.Scan | task_2.py:63-79 | The indices one fresh scan of the remaining list accepts. `GreedyChoice` proves a job is accepted exactly when it fits. `ScanWithinLimits` proves both limits hold. `PrintQueue.GreedyScan` is proved to compute it. |
| Batching.Taken | task_2.py:73-75 | The jobs at the listed indices, in index order: the batch the scan builds. `Partition`, `SortedParts` and `TakenScanStep` state its relation to the scanned list. |
| Batching.Kept | task_2.py:94-96 | The jobs at the indices not listed, in their old order: the list left after the pops. `PrintQueue.RemoveBatch` is proved to compute it. `Partition` and `SortedParts` relate it to the batch. |
| Batching.NextBatch | task_2.py:82-87 | The next batch: the scanned jobs, or the first remaining job alone. `NextBatchShape` proves it either fits both limits or is one oversized job. `PrintQueue.FormBatch` is proved to return it. |
| Batching.BatchIndices | task_2.py:82-86 | A batch's indices are never empty: the scan's picks, or index 0 alone. |
| Batching.AfterBatch | task_2.py:95-96 | Removing a batch leaves strictly fewer jobs, so the outer loop terminates. |
| Batching.Batches | task_2.py:61-96 | The batches the outer loop forms, in order. It terminates because `AfterBatch` shortens the list. `AllBatchesFit`, `BatchesSorted`, `PrintOrderPermutes` and `TotalTimeBounds` state its properties. |
| Batching.PrintOrder | task_2.py:89-92 | print_order: the batches' identifiers, batch after batch. `BatchesStep` proves it is what the loop's `extend` calls accumulate. `PrintOrderPermutes` proves it is a permutation of the jobs' identifiers. |
| Batching.TotalTime | task_2.py:89-90 | total_time: the sum of the batches' durations. `BatchesStep` proves it is what the loop's additions accumulate. `TotalTimeBounds` bounds it. |
| Batching.GreedyChoice | task_2.py:70-79 | Job k is accepted exactly when the batch is not yet full and its volume fits on top of the jobs accepted before it. A job that does not fit is skipped, and later jobs are still considered. |
| Batching.ScanWithinLimits | task_2.py:70-79 | The scanned batch holds at most max_items jobs and at most max_volume in all. |
| Batching.NextBatchShape | task_2.py:82-87 | A batch the scan filled fits both limits. When the scan accepts nothing, every remaining job alone is over max_volume and the batch is the first remaining job by itself. |
| Batching.AllBatchesFit | task_2.py:61-96 | Every batch of a run either fits both limits or is a single oversized job. |
| Batching.BatchesSorted | task_2.py:70-75 | Every batch lists its jobs in (priority, order) order. |
| Batching.SortedParts | task_2.py:94-96 | The jobs removed and the jobs kept are each still sorted. |
| Batching.Partition | task_2.py:94-96 | The batch and the jobs kept together are exactly the jobs scanned, counted with repetition. |
| Batching.StepPartition | task_2.py:94-96 | One step splits the remaining jobs into the batch and the rest, preserving identifiers and the sum of print times. |
| Batching.BatchesStep | task_2.py:89-92 | One iteration's accumulation (extend the order, add the duration), followed by the rest of the run, gives the whole schedule. |
| Batching.PrintOrderPermutes | task_2.py:62-96 | The print order contains each job's identifier exactly as often as the jobs do. |
| Batching.TotalTimeBounds | task_2.py:78-90 | With positive print times, the total time is ≤ the sum of all print times and ≥ each single print time. |
| PrintQueue.GreedyScan | task_2.py:63-79 | The scan loop returns the indices `Scan` accepts, the batch of those jobs in order, and that batch's running maximum. The batch is empty exactly when no index was accepted. |
| PrintQueue.FormBatch | task_2.py:63-87 | The scan, then the fallback, yields `BatchIndices`, `NextBatch` and its duration. |
| PrintQueue.RemoveBatch | task_2.py:94-96 | Popping the used indices from the highest down leaves exactly the unused jobs, in their old order. |
| PrintQueue.OptimizePrinting | task_2.py:46-101 | The method returns `Optimize`: the ingestion error, or the print order and total time of the batches of the sorted jobs. |
| PrintQueue.Optimize | task_2.py:46-101 | What optimize_printing returns: the ingestion error, or the print order and total time of the batches of the sorted jobs. `OptimizePrinting` is proved equal to it. `OptimizeRejects`, `OptimizePrintsEachJobOnce` and `OptimizeTimeBounds` state its properties. |
| PrintQueue.OptimizeRejects | task_2.py:22-53 | The call succeeds exactly for valid records and constraints. Otherwise it returns the first invalid record's error, else `BadConstraints`. |
| PrintQueue.OptimizePrintsEachJobOnce | task_2.py:62-96 | print_order is a permutation of the input identifiers, and as long as the input. |
| PrintQueue.OptimizeTimeBounds | task_2.py:78-90 | total_time is ≥ every record's print time and ≤ the sum of the records' print times. |
| Scenarios.OneJobBatch | task_2.py:82-87 | A single remaining job forms one batch, whether or not it fits. |
| Scenarios.PairThenOne | task_2.py:61-96 | With max_items 2, if the first two jobs fit together they form a batch and the third prints alone. |
| Scenarios.ThreeSingles | task_2.py:61-96 | With max_items 2 and no two jobs fitting together, each of three jobs prints alone, in order. |
| Scenarios.SkipThenPair | task_2.py:70-79 | A second job that does not fit is skipped, the third fills the batch, and the skipped job prints afterwards. |
| Scenarios.SamePriorityScenario | task_2.py:106-110 | Equal priorities with limits (300, 2) print M1, M2, M3 in 120 + 150 = 270. |
| Scenarios.MixedPriorityScenario | task_2.py:113-117 | Mixed priorities print M2, M1, M3 in 270. |
| Scenarios.VolumeOverflowScenario | task_2.py:120-124 | Jobs too large to pair print M1, M2, M3 alone in 180 + 150 + 120 = 450. |
| Scenarios.FallbackScenario | task_2.py:82-87 | A job of volume 100 with limits (50, 5) still prints, alone, in 10. |
| Scenarios.LowerPriorityFillsBatch | task_2.py:70-79 | A priority-2 job that fits prints before a priority-1 job that was skipped. |
| Scenarios.BadPriorityScenario | task_2.py:34-35 | Priority 4 is rejected as `BadPriority("M1", 4)`. |
| Scenarios.BadVolumeScenario | task_2.py:32-33 | Volume 0 is rejected as `BadJobData("M1")`. |
| Scenarios.NoCapacityScenario | task_2.py:42-43 | max_items 0 is rejected as `BadConstraints`, even with no jobs. |

## Left out

- The dictionary input and its coercions (`str`, `float`, `int`, key lookups) are left out. The model takes already-typed records (`JobRecord`, `PrinterConstraints`), so a missing key or an unconvertible value is not modelled.
- Floating-point semantics of volumes and of the min/max elements (rounding, NaN, infinities) are not modelled. These values are exact `real`s.
- `MinMax.MinMaxDC` works on `real` values only. It does not model Python's comparison of arbitrary mixed element types.
- The text of the error messages is left out. Errors are `Result` values naming the reason, the job identifier and, for priorities, the value.
- The O(n) claim in `min_max_dc`'s docstring is not stated, because complexity is not expressed in this model.
- The demonstration drivers and their `print` output are left out. Their inputs appear as the lemmas in `Scenarios` and `MinMax.DemonstrationInput`.
- `JobOrder.SortJobs`: Python's built-in `sorted` is modelled by an insertion sort. Job orders are distinct, so every stable sort by (priority, order) gives the same list (`JobOrder.SortedUnique`, `JobOrder.SortDistinctOrders`).
- `PrintQueue.RemoveBatch`: `remaining`, `batch`, `used_idx` and `print_order` are immutable sequence values that the methods reassign. In-place mutation of the Python lists and aliasing are not modelled; `pop(i)` becomes `rest[..i] + rest[i + 1..]`.
- `@dataclass` machinery and the `order` default of 0 are not modelled. Every job gets its order at ingestion.
