/** The arithmetic-progression helper of the core crate. */
module CoreUtils {
  import opened Numeric

  /**
   * The terms start, start + step, ... that do not exceed `max`: none when `start` already
   * exceeds it, whatever the step.
   */
  function Progression(start: int, max: int, step: int): (p: seq<int>)
    requires step > 0 || start > max
    decreases max - start
  {
    if start > max then [] else [start] + Progression(start + step, max, step)
  }

  /**
   * `min_max_range`: `min` first, then `min + step`, `min + 2 step`, ... while the counter
   * does not exceed `max`. The loop ends when the first step already passes `max`, whatever
   * the step, and otherwise only for a positive step (a zero or negative step that does not
   * pass `max` at once never does), so one of the two is required. Numbers are unbounded:
   * the `+=` of a fixed-width `N` is assumed not to overflow.
   */
  method MinMaxRange(min: int, max: int, step: int) returns (nums: seq<int>)
    requires step > 0 || min + step > max
    ensures nums == [min] + Progression(min + step, max, step)
    ensures min + step > max ==> nums == [min]
  {
    var counter := min;
    nums := [min];
    while true
      invariant step > 0 || counter == min
      invariant [min] + Progression(min + step, max, step) == nums + Progression(counter + step, max, step)
      decreases if counter <= max then max - counter + 1 else 0
    {
      counter := counter + step;
      if counter > max {
        break;
      }
      nums := nums + [counter];
    }
  }

  /**
   * The shape of a progression: its first term is `start`, consecutive terms differ by
   * exactly `step`, every term is at most `max`, and the term after the last exceeds `max`.
   */
  lemma {:induction false} ProgressionShape(start: int, max: int, step: int)
    requires step > 0
    ensures var p := Progression(start, max, step);
      (|p| > 0 ==> p[0] == start)
      && (forall i :: 0 <= i < |p| ==> p[i] <= max)
      && (forall i :: 0 < i < |p| ==> p[i] == p[i - 1] + step)
      && (|p| > 0 ==> p[|p| - 1] + step > max)
    decreases max - start
  {
    if start <= max {
      var q := Progression(start + step, max, step);
      ProgressionShape(start + step, max, step);
      var p := [start] + q;
      assert Progression(start, max, step) == p;
      assert forall i :: 0 < i < |p| ==> p[i] == q[i - 1];
      if q != [] {
        assert q[0] == start + step;
      }
    }
  }

  /** The number of terms is floor((max - start) / step) + 1, or none when start > max. */
  lemma {:induction false} ProgressionLength(start: int, max: int, step: int)
    requires step > 0
    ensures |Progression(start, max, step)| == if start > max then 0 else (max - start) / step + 1
    decreases max - start
  {
    if start <= max {
      ProgressionLength(start + step, max, step);
      if start + step <= max {
        DivStep(max - start, step);
      }
    }
  }

  lemma DivStep(x: int, step: int)
    requires step > 0 && x >= step
    ensures (x - step) / step + 1 == x / step
  {
    var q, r := (x - step) / step, (x - step) % step;
    assert x - step == step * q + r;
    assert x == step * (q + 1) + r by {
      assert step * (q + 1) == step * q + step;
    }
    DivUnique(x, step, q + 1, r);
  }

  /** Euclidean division is unique: a quotient and remainder in range are the ones `/` gives. */
  lemma DivUnique(x: int, step: int, a: int, r: int)
    requires step > 0 && 0 <= r < step && x == step * a + r
    ensures x / step == a
  {
    var a', r' := x / step, x % step;
    assert step * a + r == step * a' + r';
    assert step * (a - a') == r' - r by {
      assert step * (a - a') == step * a - step * a';
    }
    if a > a' {
      MulAtLeast(step, a - a');
    } else if a < a' {
      MulAtLeast(step, a' - a);
    }
  }

  lemma MulAtLeast(step: nat, d: int)
    requires d >= 1
    ensures step * d >= step
  {
    MulIsProduct(d, step);
    MulMono(1, d, step);
    MulIsProduct(1, step);
  }

  /**
   * What `min_max_range` returns: `[min]` when min > max, and otherwise
   * floor((max - min) / step) + 1 terms starting at `min`, each `step` above the previous,
   * all within `max`; the next term would exceed `max`.
   */
  lemma MinMaxRangeShape(min: int, max: int, step: int)
    requires step > 0
    ensures var nums := [min] + Progression(min + step, max, step);
      nums[0] == min
      && |nums| == (if min > max then 1 else (max - min) / step + 1)
      && (forall i :: 0 < i < |nums| ==> nums[i] == nums[i - 1] + step && nums[i] <= max)
      && nums[|nums| - 1] + step > max
  {
    var p := Progression(min + step, max, step);
    ProgressionShape(min + step, max, step);
    ProgressionLength(min + step, max, step);
    if min <= max && min + step <= max {
      DivStep(max - min, step);
    }
    var nums := [min] + p;
    forall i | 0 < i < |nums|
      ensures nums[i] == nums[i - 1] + step && nums[i] <= max
    {
      assert nums[i] == p[i - 1];
    }
  }
}
