/**
 * Tail statistics of a sample array: the parts per million of the samples
 * strictly above a maximum or strictly below a minimum.
 */
module TailStats {
  import opened Wrappers

  /** The ppm scale factor, 1e6. */
  const PPM: real := 1000000.0

  /** The sample count is a Python int, so an empty array divides by zero. */
  datatype ArithmeticError = ZeroDivisionError

  /** The mask `arr > t`, one element at a time. */
  function Exceeds(t: real): real -> bool
  {
    x => x > t
  }

  /** The mask `arr < t`, one element at a time. */
  function Undercuts(t: real): real -> bool
  {
    x => x < t
  }

  /**
   * Boolean-mask selection `arr[mask]`: the elements that the mask keeps,
   * in their original order.
   */
  function Where(arr: seq<real>, keep: real -> bool): (r: seq<real>)
    ensures |r| <= |arr|
    ensures forall x :: x in r ==> keep(x) && x in arr
  {
    if |arr| == 0 then []
    else
      var init := arr[..|arr| - 1];
      var last := arr[|arr| - 1];
      assert forall x :: x in init ==> x in arr;
      Where(init, keep) + (if keep(last) then [last] else [])
  }

  /** The positions whose element the mask keeps. */
  ghost function Kept(arr: seq<real>, keep: real -> bool): set<nat>
  {
    set i: nat | i < |arr| && keep(arr[i])
  }

  /** Parts per million of arr above maximum (Python's `above`). */
  function Above(arr: seq<real>, maximum: real): (r: Result<real, ArithmeticError>)
    ensures r.Failure? <==> |arr| == 0
    ensures r.Success? ==> 0.0 <= r.value <= PPM
  {
    if |arr| == 0 then Failure(ZeroDivisionError)
    else Success(Ppm(|Where(arr, Exceeds(maximum))|, |arr|))
  }

  /** Parts per million of arr below minimum (Python's `below`). */
  function Below(arr: seq<real>, minimum: real): (r: Result<real, ArithmeticError>)
    ensures r.Failure? <==> |arr| == 0
    ensures r.Success? ==> 0.0 <= r.value <= PPM
  {
    if |arr| == 0 then Failure(ZeroDivisionError)
    else Success(Ppm(|Where(arr, Undercuts(minimum))|, |arr|))
  }

  /** 1e6 * count / size, for a count that is part of the size. */
  function Ppm(count: nat, size: nat): (r: real)
    requires 0 < size && count <= size
    ensures 0.0 <= r <= PPM
    ensures r == 0.0 <==> count == 0
    ensures r == PPM <==> count == size
  {
    PpmOrder(0, count, size);
    PpmOrder(count, size, size);
    PPM * (count as real) / (size as real)
  }

  /** 1e6 * a / size is strictly increasing in a. */
  lemma PpmOrder(a: nat, b: nat, size: nat)
    requires 0 < size && a <= b
    ensures PPM * (a as real) / (size as real) <= PPM * (b as real) / (size as real)
    ensures a < b ==> PPM * (a as real) / (size as real) < PPM * (b as real) / (size as real)
    ensures PPM * (size as real) / (size as real) == PPM
    ensures PPM * (0 as real) / (size as real) == 0.0
  {
    var unit := PPM / (size as real);
    assert unit > 0.0;
    assert PPM * (a as real) / (size as real) == (a as real) * unit;
    assert PPM * (b as real) / (size as real) == (b as real) * unit;
    assert (b as real) * unit - (a as real) * unit == ((b - a) as real) * unit;
  }

  /** 1e6 * count / size is additive in the count. */
  lemma PpmAdd(a: nat, b: nat, size: nat)
    requires 0 < size && a + b <= size
    ensures Ppm(a, size) + Ppm(b, size) == Ppm(a + b, size)
  {
    var unit := PPM / (size as real);
    assert Ppm(a, size) == (a as real) * unit;
    assert Ppm(b, size) == (b as real) * unit;
    assert Ppm(a + b, size) == ((a + b) as real) * unit;
  }

  // ---------------------------------------------------------------------
  // Properties of mask selection

  /** The selection holds exactly as many elements as there are kept positions. */
  lemma {:induction false} WhereCountsKept(arr: seq<real>, keep: real -> bool)
    ensures |Where(arr, keep)| == |Kept(arr, keep)|
  {
    if |arr| > 0 {
      var n := |arr| - 1;
      var init := arr[..n];
      WhereCountsKept(init, keep);
      var tail: set<nat> := if keep(arr[n]) then {n} else {};
      assert Kept(arr, keep) == Kept(init, keep) + tail by {
        forall i: nat | i < n ensures arr[i] == init[i] { }
      }
      assert Kept(init, keep) !! tail;
    }
  }

  /** Nothing is selected exactly when no element is kept; everything exactly when all are. */
  lemma {:induction false} WhereNoneOrAll(arr: seq<real>, keep: real -> bool)
    ensures |Where(arr, keep)| == 0 <==> forall i :: 0 <= i < |arr| ==> !keep(arr[i])
    ensures |Where(arr, keep)| == |arr| <==> forall i :: 0 <= i < |arr| ==> keep(arr[i])
  {
    if |arr| > 0 {
      var n := |arr| - 1;
      var init := arr[..n];
      WhereNoneOrAll(init, keep);
      assert forall i :: 0 <= i < n ==> arr[i] == init[i];
    }
  }

  /** A mask that keeps more selects at least as many elements. */
  lemma {:induction false} WhereMonotone(arr: seq<real>, narrow: real -> bool, wide: real -> bool)
    requires forall x :: narrow(x) ==> wide(x)
    ensures |Where(arr, narrow)| <= |Where(arr, wide)|
  {
    if |arr| > 0 {
      WhereMonotone(arr[..|arr| - 1], narrow, wide);
    }
  }

  /**
   * Two masks that never both keep an element select at most the whole array
   * between them, and exactly the whole array when every element is kept by one.
   */
  lemma {:induction false} WhereDisjoint(arr: seq<real>, left: real -> bool, right: real -> bool)
    requires forall x :: !(left(x) && right(x))
    ensures |Where(arr, left)| + |Where(arr, right)| <= |arr|
    ensures |Where(arr, left)| + |Where(arr, right)| == |arr|
        <==> forall i :: 0 <= i < |arr| ==> left(arr[i]) || right(arr[i])
  {
    if |arr| > 0 {
      var n := |arr| - 1;
      var init := arr[..n];
      WhereDisjoint(init, left, right);
      assert forall i :: 0 <= i < n ==> arr[i] == init[i];
    }
  }

  /**
   * When the first k elements are dropped by the mask and the rest kept,
   * the selection has |arr| - k elements.
   */
  lemma {:induction false} WhereSplit(arr: seq<real>, keep: real -> bool, k: nat)
    requires k <= |arr|
    requires forall i :: 0 <= i < k ==> !keep(arr[i])
    requires forall i :: k <= i < |arr| ==> keep(arr[i])
    ensures |Where(arr, keep)| == |arr| - k
  {
    if |arr| > k {
      var n := |arr| - 1;
      var init := arr[..n];
      assert forall i :: 0 <= i < n ==> arr[i] == init[i];
      WhereSplit(init, keep, k);
    } else {
      WhereNoneOrAll(arr, keep);
    }
  }

  // ---------------------------------------------------------------------
  // Properties of above and below

  /** above is 1e6 times the fraction of positions holding an element above maximum. */
  lemma AboveIsFraction(arr: seq<real>, maximum: real)
    requires |arr| > 0
    ensures Above(arr, maximum)
         == Success(PPM * (|set i: nat | i < |arr| && arr[i] > maximum| as real) / (|arr| as real))
  {
    WhereCountsKept(arr, Exceeds(maximum));
    assert Kept(arr, Exceeds(maximum)) == set i: nat | i < |arr| && arr[i] > maximum;
  }

  /** below is 1e6 times the fraction of positions holding an element below minimum. */
  lemma BelowIsFraction(arr: seq<real>, minimum: real)
    requires |arr| > 0
    ensures Below(arr, minimum)
         == Success(PPM * (|set i: nat | i < |arr| && arr[i] < minimum| as real) / (|arr| as real))
  {
    WhereCountsKept(arr, Undercuts(minimum));
    assert Kept(arr, Undercuts(minimum)) == set i: nat | i < |arr| && arr[i] < minimum;
  }

  /** above is zero exactly when nothing exceeds maximum, and 1e6 exactly when everything does. */
  lemma AboveExtremes(arr: seq<real>, maximum: real)
    requires |arr| > 0
    ensures Above(arr, maximum) == Success(0.0) <==> forall i :: 0 <= i < |arr| ==> arr[i] <= maximum
    ensures Above(arr, maximum) == Success(PPM) <==> forall i :: 0 <= i < |arr| ==> arr[i] > maximum
  {
    WhereNoneOrAll(arr, Exceeds(maximum));
  }

  /** below is zero exactly when nothing is under minimum, and 1e6 exactly when everything is. */
  lemma BelowExtremes(arr: seq<real>, minimum: real)
    requires |arr| > 0
    ensures Below(arr, minimum) == Success(0.0) <==> forall i :: 0 <= i < |arr| ==> arr[i] >= minimum
    ensures Below(arr, minimum) == Success(PPM) <==> forall i :: 0 <= i < |arr| ==> arr[i] < minimum
  {
    WhereNoneOrAll(arr, Undercuts(minimum));
  }

  /** Raising the maximum never raises the ppm above it. */
  lemma AboveNonIncreasing(arr: seq<real>, m1: real, m2: real)
    requires |arr| > 0 && m1 <= m2
    ensures Above(arr, m2).value <= Above(arr, m1).value
  {
    WhereMonotone(arr, Exceeds(m2), Exceeds(m1));
    PpmOrder(|Where(arr, Exceeds(m2))|, |Where(arr, Exceeds(m1))|, |arr|);
  }

  /** Raising the minimum never lowers the ppm below it. */
  lemma BelowNonDecreasing(arr: seq<real>, m1: real, m2: real)
    requires |arr| > 0 && m1 <= m2
    ensures Below(arr, m1).value <= Below(arr, m2).value
  {
    WhereMonotone(arr, Undercuts(m1), Undercuts(m2));
    PpmOrder(|Where(arr, Undercuts(m1))|, |Where(arr, Undercuts(m2))|, |arr|);
  }

  /**
   * Both comparisons are strict, so no sample is counted twice: the two tails
   * add up to at most 1e6, and to exactly 1e6 when no sample equals the threshold.
   */
  lemma AboveBelowComplement(arr: seq<real>, m: real)
    requires |arr| > 0
    ensures Above(arr, m).value + Below(arr, m).value <= PPM
    ensures Above(arr, m).value + Below(arr, m).value == PPM <==> m !in arr
  {
    var a, b := Where(arr, Exceeds(m)), Where(arr, Undercuts(m));
    WhereDisjoint(arr, Exceeds(m), Undercuts(m));
    PpmAdd(|a|, |b|, |arr|);
    assert m !in arr <==> forall i :: 0 <= i < |arr| ==> arr[i] > m || arr[i] < m;
  }

  // ---------------------------------------------------------------------
  // The worked example from the unit test

  /** num evenly spaced values from start to stop inclusive (numpy's linspace). */
  function Linspace(start: real, stop: real, num: nat): (r: seq<real>)
    requires num >= 2
    ensures |r| == num && r[0] == start && r[num - 1] == stop
  {
    var step := (stop - start) / ((num - 1) as real);
    assert ((num - 1) as real) * step == stop - start;
    seq(num, i requires 0 <= i < num => start + (i as real) * step)
  }

  /** Of 1000 evenly spaced values from 0 to 1000, the 100 largest exceed 900: 100000 ppm. */
  lemma AboveLinspaceExample()
    ensures Above(Linspace(0.0, 1000.0, 1000), 900.0) == Success(100000.0)
  {
    var arr := Linspace(0.0, 1000.0, 1000);
    forall i | 0 <= i < 900 ensures !Exceeds(900.0)(arr[i]) {
      assert arr[i] == (i as real) * 1000.0 / 999.0;
    }
    forall i | 900 <= i < 1000 ensures Exceeds(900.0)(arr[i]) {
      assert arr[i] == (i as real) * 1000.0 / 999.0;
    }
    WhereSplit(arr, Exceeds(900.0), 900);
  }
}
