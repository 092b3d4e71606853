/**
 * The extremum finder: the (minimum, maximum) pair of a sequence of numbers,
 * computed by divide and conquer (task_1.py, min_max_dc).
 */
module MinMax {
  import opened Wrappers

  /** The one way the finder can fail. */
  datatype MinMaxError = EmptySequence

  /**
   * min_max_dc: an empty input is rejected; one element gives (x, x); two
   * elements give the ordered pair; otherwise the sequence is split at n / 2,
   * both halves are solved recursively and combined with one comparison each.
   */
  function MinMaxDC(arr: seq<real>): (r: Result<(real, real), MinMaxError>)
    ensures r.Err? <==> |arr| == 0
    ensures r.Ok? ==> r.value.0 in arr && r.value.1 in arr
    ensures r.Ok? ==> forall i :: 0 <= i < |arr| ==> r.value.0 <= arr[i] <= r.value.1
    decreases |arr|
  {
    var n := |arr|;
    if n == 0 then Err(EmptySequence)
    else if n == 1 then
      var x := arr[0];
      Ok((x, x))
    else if n == 2 then
      var a, b := arr[0], arr[1];
      if a <= b then Ok((a, b)) else Ok((b, a))
    else
      var mid := n / 2;
      assert arr == arr[..mid] + arr[mid..];
      var left := MinMaxDC(arr[..mid]);
      var right := MinMaxDC(arr[mid..]);
      var (leftMin, leftMax) := left.value;
      var (rightMin, rightMax) := right.value;
      Ok((if leftMin <= rightMin then leftMin else rightMin,
          if leftMax >= rightMax then leftMax else rightMax))
  }

  /** The naive reference: the minimum found by one left-to-right scan. */
  function ScanMin(s: seq<real>): (m: real)
    requires |s| > 0
    ensures m in s
    ensures forall i :: 0 <= i < |s| ==> m <= s[i]
  {
    if |s| == 1 then s[0]
    else
      var m := ScanMin(s[..|s| - 1]);
      assert s == s[..|s| - 1] + [s[|s| - 1]];
      if s[|s| - 1] < m then s[|s| - 1] else m
  }

  /** The naive reference: the maximum found by one left-to-right scan. */
  function ScanMax(s: seq<real>): (m: real)
    requires |s| > 0
    ensures m in s
    ensures forall i :: 0 <= i < |s| ==> s[i] <= m
  {
    if |s| == 1 then s[0]
    else
      var m := ScanMax(s[..|s| - 1]);
      assert s == s[..|s| - 1] + [s[|s| - 1]];
      if s[|s| - 1] > m then s[|s| - 1] else m
  }

  /**
   * The split points do not matter: on every non-empty input the divide and
   * conquer result is the pair a plain linear scan finds.
   */
  lemma MinMaxDCMatchesScan(arr: seq<real>)
    requires |arr| > 0
    ensures MinMaxDC(arr) == Ok((ScanMin(arr), ScanMax(arr)))
  {
    var r := MinMaxDC(arr);
    LeastUnique(arr, r.value.0, ScanMin(arr));
    GreatestUnique(arr, r.value.1, ScanMax(arr));
  }

  /** Two elements of s that are both at most every element of s are equal. */
  lemma LeastUnique(s: seq<real>, a: real, b: real)
    requires a in s && b in s
    requires forall i :: 0 <= i < |s| ==> a <= s[i] && b <= s[i]
    ensures a == b
  {
  }

  /** Two elements of s that are both at least every element of s are equal. */
  lemma GreatestUnique(s: seq<real>, a: real, b: real)
    requires a in s && b in s
    requires forall i :: 0 <= i < |s| ==> s[i] <= a && s[i] <= b
    ensures a == b
  {
  }

  /** The empty sequence is rejected and no pair is produced. */
  lemma EmptyRejected()
    ensures MinMaxDC([]) == Err(EmptySequence)
  {
  }

  /** The base cases: [x] gives (x, x); two values come back smaller first. */
  lemma BaseCases(x: real, a: real, b: real)
    ensures MinMaxDC([x]) == Ok((x, x))
    ensures MinMaxDC([a, b]) == if a <= b then Ok((a, b)) else Ok((b, a))
  {
  }

  /** The main input the module's own demonstration runs. */
  lemma DemonstrationInput()
    ensures MinMaxDC([7.0, -3.0, 5.0, 12.0, 0.0, 9.0, -8.0, 4.0]) == Ok((-8.0, 12.0))
  {
    var data := [7.0, -3.0, 5.0, 12.0, 0.0, 9.0, -8.0, 4.0];
    assert data[6] == -8.0 && data[3] == 12.0;
    ExtremesDetermine(data, -8.0, 12.0);
  }

  /** A minimum and a maximum that occur in the input are what the search returns. */
  lemma ExtremesDetermine(arr: seq<real>, lo: real, hi: real)
    requires lo in arr && hi in arr
    requires forall i :: 0 <= i < |arr| ==> lo <= arr[i] <= hi
    ensures MinMaxDC(arr) == Ok((lo, hi))
  {
    var r := MinMaxDC(arr);
    LeastUnique(arr, r.value.0, lo);
    GreatestUnique(arr, r.value.1, hi);
  }

  /** The short inputs of the demonstration: one element, two in either order. */
  lemma DemonstrationShortInputs()
    ensures MinMaxDC([42.0]) == Ok((42.0, 42.0))
    ensures MinMaxDC([3.0, -1.0]) == Ok((-1.0, 3.0))
    ensures MinMaxDC([-5.0, -10.0]) == Ok((-10.0, -5.0))
  {
  }
}
