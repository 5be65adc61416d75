/**
 * The number handler `$(nbr)`: clamps that read the captured number, and
 * `between` / `increment`, which write their result back into it, so that
 * repeated increments on one handler walk around the range.
 */
module NumberMethods {

  /** `increment(min, max, step)` on the value `n`: overshooting `max` wraps to `min`, undershooting `min` to `max`. */
  function Incremented(n: real, min: real, max: real, step: real): (r: real)
    ensures min <= max ==> min <= r <= max
    ensures min <= n + step <= max ==> r == n + step
    ensures n + step > max ==> r == min
    ensures n + step < min && n + step <= max ==> r == max
  {
    var m := n + step;
    var m := if m > max then min else m;
    if m < min then max else m
  }

  /** `between(min, max)` on the value `n`. */
  function Clamped(n: real, min: real, max: real): (r: real)
    ensures min <= max ==> min <= r <= max
    ensures min <= n <= max ==> r == n
    ensures min > max ==> r == min
    ensures min <= max && n > max ==> r == max
    ensures n < min ==> r == min
  {
    var m := if n > max then max else n;
    if m < min then min else m
  }

  class NumberHandler {
    var nbr: real

    constructor(nbr: real)
      ensures this.nbr == nbr
    {
      this.nbr := nbr;
    }

    /** `atLeast(val)`: the larger of the number and `val`. */
    function AtLeast(val: real): (r: real)
      reads this
      ensures r >= nbr && r >= val && (r == nbr || r == val)
    {
      if nbr < val then val else nbr
    }

    /** `atMost(val)`: the smaller of the number and `val`. */
    function AtMost(val: real): (r: real)
      reads this
      ensures r <= nbr && r <= val && (r == nbr || r == val)
    {
      if nbr > val then val else nbr
    }

    /** `between(min, max)`: clamps the number into the range and keeps the clamped value. */
    method Between(min: real, max: real) returns (r: real)
      modifies this
      ensures r == Clamped(old(nbr), min, max) && nbr == r
    {
      if nbr > max {
        nbr := max;
      }
      if nbr < min {
        nbr := min;
      }
      r := nbr;
    }

    /** `increment(min, max, step)`: steps the number, wrapping around the range, and keeps the result. */
    method Increment(min: real, max: real, step: real) returns (r: real)
      modifies this
      ensures r == Incremented(old(nbr), min, max, step) && nbr == r
    {
      nbr := nbr + step;
      if nbr > max {
        nbr := min;
      }
      if nbr < min {
        nbr := max;
      }
      r := nbr;
    }

    /** `increment(min, max)`: the step defaults to 1. */
    method IncrementByOne(min: real, max: real) returns (r: real)
      modifies this
      ensures r == Incremented(old(nbr), min, max, 1.0) && nbr == r
    {
      r := Increment(min, max, 1.0);
    }
  }

  /** The value after `k` unit increments in `[min, max]`. */
  function Steps(n: int, min: int, max: int, k: nat): int
  {
    if k == 0 then n else Incremented(Steps(n, min, max, k - 1) as real, min as real, max as real, 1.0).Floor
  }

  /** Steps compose: `k + l` increments are `k` increments, then `l` more. */
  lemma {:induction false} StepsAdd(n: int, min: int, max: int, k: nat, l: nat)
    ensures Steps(n, min, max, k + l) == Steps(Steps(n, min, max, k), min, max, l)
  {
    if l > 0 {
      StepsAdd(n, min, max, k, l - 1);
    }
  }

  /** Below `max`, unit increments count up one by one. */
  lemma {:induction false} StepsCountUp(n: int, min: int, max: int, k: nat)
    requires min <= n && n + k <= max
    ensures Steps(n, min, max, k) == n + k
  {
    if k > 0 {
      StepsCountUp(n, min, max, k - 1);
      assert Steps(n, min, max, k - 1) == n + k - 1;
    }
  }

  /** From `max`, one increment wraps to `min`. */
  lemma WrapAtMax(min: int, max: int)
    requires min <= max
    ensures Steps(max, min, max, 1) == min
  {
    assert Steps(max, min, max, 0) == max;
  }

  /**
   * Repeated unit increments cycle through the range: after `max - min + 1`
   * of them every value of the range is back where it started.
   */
  lemma FullCycle(n: int, min: int, max: int)
    requires min <= n <= max
    ensures Steps(n, min, max, max - min + 1) == n
  {
    var up := max - n;
    StepsCountUp(n, min, max, up);
    StepsAdd(n, min, max, up, 1);
    WrapAtMax(min, max);
    StepsAdd(n, min, max, up + 1, n - min);
    StepsCountUp(min, min, max, n - min);
  }
}
