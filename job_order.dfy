/**
 * The scheduler's fixed candidate order (task_2.py line 56): jobs sorted by
 * (priority, order), a lower priority number first and ties broken by the
 * earlier input position.
 */
module JobOrder {
  import opened PrintJobs

  /** The sort key comparison: (a.priority, a.order) <= (b.priority, b.order). */
  predicate KeyLe(a: PrintJob, b: PrintJob) {
    a.priority < b.priority || (a.priority == b.priority && a.order <= b.order)
  }

  predicate Sorted(s: seq<PrintJob>) {
    forall i, j :: 0 <= i < j < |s| ==> KeyLe(s[i], s[j])
  }

  /**
   * Insertion of x into a sorted list, ahead of every job with an equal key,
   * which is what keeps the sort stable.
   */
  function Insert(x: PrintJob, s: seq<PrintJob>): (r: seq<PrintJob>)
    requires Sorted(s)
    ensures Sorted(r)
    ensures multiset(r) == multiset(s) + multiset{x}
    ensures multiset(Ids(r)) == multiset(Ids(s)) + multiset{x.id}
    ensures SumTime(r) == x.printTime + SumTime(s)
  {
    if |s| == 0 then [x]
    else if KeyLe(x, s[0]) then
      SortedCons(x, s);
      SumTimeCons(x, s);
      IdsCons(x, s);
      [x] + s
    else
      var t := Insert(x, s[1..]);
      InsertAfterHead(x, s, t);
      HeadThenTail(x, s, t);
      [s[0]] + t
  }

  /** Putting the head of s back in front of t, which holds s's tail and x. */
  lemma HeadThenTail(x: PrintJob, s: seq<PrintJob>, t: seq<PrintJob>)
    requires |s| > 0
    requires multiset(t) == multiset(s[1..]) + multiset{x}
    requires multiset(Ids(t)) == multiset(Ids(s[1..])) + multiset{x.id}
    requires SumTime(t) == x.printTime + SumTime(s[1..])
    ensures multiset([s[0]] + t) == multiset(s) + multiset{x}
    ensures multiset(Ids([s[0]] + t)) == multiset(Ids(s)) + multiset{x.id}
    ensures SumTime([s[0]] + t) == x.printTime + SumTime(s)
  {
    assert s == [s[0]] + s[1..];
    SumTimeCons(s[0], t);
    SumTimeCons(s[0], s[1..]);
    IdsCons(s[0], t);
    IdsCons(s[0], s[1..]);
  }

  /** A job at most every job of a sorted list can go in front of it. */
  lemma SortedCons(a: PrintJob, t: seq<PrintJob>)
    requires Sorted(t)
    requires forall j :: 0 <= j < |t| ==> KeyLe(a, t[j])
    ensures Sorted([a] + t)
  {
  }

  /** The head of s stays in front when x, ordered after it, goes into the tail. */
  lemma InsertAfterHead(x: PrintJob, s: seq<PrintJob>, t: seq<PrintJob>)
    requires Sorted(s) && |s| > 0 && !KeyLe(x, s[0])
    requires Sorted(t) && multiset(t) == multiset(s[1..]) + multiset{x}
    ensures Sorted([s[0]] + t)
  {
    forall j | 0 <= j < |t|
      ensures KeyLe(s[0], t[j])
    {
      assert t[j] in multiset(t);
      if t[j] != x {
        assert t[j] in multiset(s[1..]);
        var m :| 0 <= m < |s[1..]| && s[1..][m] == t[j];
        assert s[m + 1] == t[j];
      }
    }
    SortedCons(s[0], t);
  }

  /** sorted(jobs, key=(priority, order)): a sorted permutation of the input. */
  function SortJobs(s: seq<PrintJob>): (r: seq<PrintJob>)
    ensures Sorted(r)
    ensures multiset(r) == multiset(s)
    ensures |r| == |s|
    ensures multiset(Ids(r)) == multiset(Ids(s))
    ensures SumTime(r) == SumTime(s)
  {
    if |s| == 0 then []
    else
      assert s == [s[0]] + s[1..];
      SumTimeCons(s[0], s[1..]);
      IdsCons(s[0], s[1..]);
      Insert(s[0], SortJobs(s[1..]))
  }

  /** Sorting keeps every print time positive. */
  lemma SortedPositive(s: seq<PrintJob>)
    requires PositiveTimes(s)
    ensures PositiveTimes(SortJobs(s))
  {
    var r := SortJobs(s);
    forall k | 0 <= k < |r| ensures r[k].printTime > 0 {
      assert r[k] in multiset(s);
    }
  }

  /** No two jobs share a sort key. */
  predicate StrictlySorted(s: seq<PrintJob>) {
    forall i, j :: 0 <= i < j < |s| ==> KeyLe(s[i], s[j]) && !KeyLe(s[j], s[i])
  }

  /**
   * With distinct keys there is only one sorted order, so every stable
   * sort, and the one above, produces the same list.
   */
  lemma {:induction false} SortedUnique(a: seq<PrintJob>, b: seq<PrintJob>)
    requires StrictlySorted(a) && Sorted(b) && multiset(a) == multiset(b)
    ensures a == b
    decreases |a|
  {
    assert |a| == |multiset(a)| == |multiset(b)| == |b|;
    if |a| > 0 {
      SameHead(a, b);
      TailMultiset(a, b);
      SortedUnique(a[1..], b[1..]);
      assert a == [a[0]] + a[1..] && b == [b[0]] + b[1..];
    }
  }

  /** Both lists start with the job of least key. */
  lemma SameHead(a: seq<PrintJob>, b: seq<PrintJob>)
    requires StrictlySorted(a) && Sorted(b) && multiset(a) == multiset(b)
    requires |a| > 0 && |b| > 0
    ensures a[0] == b[0]
  {
    assert b[0] in multiset(a);
    var j :| 0 <= j < |a| && a[j] == b[0];
    assert a[0] in multiset(b);
    var l :| 0 <= l < |b| && b[l] == a[0];
    assert KeyLe(b[0], a[0]);
  }

  lemma TailMultiset(a: seq<PrintJob>, b: seq<PrintJob>)
    requires |a| > 0 && |b| > 0 && a[0] == b[0] && multiset(a) == multiset(b)
    ensures multiset(a[1..]) == multiset(b[1..])
  {
    assert a == [a[0]] + a[1..] && b == [b[0]] + b[1..];
    assert multiset(a) == multiset{a[0]} + multiset(a[1..]);
    assert multiset(b) == multiset{b[0]} + multiset(b[1..]);
    assert multiset(a[1..]) == multiset(a) - multiset{a[0]};
    assert multiset(b[1..]) == multiset(b) - multiset{b[0]};
  }

  predicate DistinctOrders(s: seq<PrintJob>) {
    forall i, j :: 0 <= i < j < |s| ==> s[i].order != s[j].order
  }

  /** Jobs with pairwise distinct input positions have pairwise distinct keys once sorted. */
  lemma SortDistinctOrders(s: seq<PrintJob>)
    requires DistinctOrders(s)
    ensures StrictlySorted(SortJobs(s))
  {
    var r := SortJobs(s);
    forall i, j | 0 <= i < j < |r| ensures r[i].order != r[j].order {
      assert r[i] in multiset(s) && r[j] in multiset(s);
      var p :| 0 <= p < |s| && s[p] == r[i];
      var q :| 0 <= q < |s| && s[q] == r[j];
      if p == q {
        CountTwo(r, i, j);
        CountOne(s, p);
        assert false;
      }
    }
  }

  /** A job listed at two positions occurs at least twice. */
  lemma CountTwo(r: seq<PrintJob>, i: int, j: int)
    requires 0 <= i < j < |r| && r[i] == r[j]
    ensures multiset(r)[r[i]] >= 2
  {
    assert r == r[..j] + [r[j]] + r[j + 1..];
    assert r[i] == r[..j][i];
    assert multiset(r[..j])[r[i]] >= 1;
  }

  /** In a list with distinct input positions every job occurs once. */
  lemma CountOne(s: seq<PrintJob>, p: int)
    requires 0 <= p < |s| && DistinctOrders(s)
    ensures multiset(s)[s[p]] == 1
  {
    assert s == s[..p] + [s[p]] + s[p + 1..];
    assert s[p] !in s[..p];
    assert multiset(s[..p])[s[p]] == 0;
    assert multiset(s[p + 1..])[s[p]] == 0;
  }
}
