/** The duration rule of runner.js:150-162: an occurrence's length is the base
    duration grown geometrically by `growthFactor` percent per earlier occurrence,
    rounded and clamped; a zero growth factor leaves the base untouched. */
module Duration {
  import Utils
  import opened Tasks

  /** `Math.pow(b, n)` for a natural exponent, computed exactly. */
  function Pow(b: real, n: nat): real
    decreases n
  {
    if n == 0 then 1.0 else b * Pow(b, n - 1)
  }

  /** `Math.round(x)`: the nearest integer, a half rounded upwards. */
  function Round(x: real): (r: int)
    ensures r as real - 0.5 <= x < r as real + 0.5
  {
    (x + 0.5).Floor
  }

  /** `1 + growthFactor / 100`. */
  function Factor(growthFactor: int): (f: real)
    ensures f == 1.0 <==> growthFactor == 0
    ensures growthFactor > 0 ==> f > 1.0
    ensures -100 < growthFactor < 0 ==> 0.0 < f < 1.0
  {
    1.0 + growthFactor as real / 100.0
  }

  /** `baseDuration * Math.pow(1 + growthFactor / 100, occurrence - 1)`, before rounding. */
  function Unclamped(base: int, growthFactor: int, occurrence: nat): real
    requires occurrence >= 1
  {
    base as real * Pow(Factor(growthFactor), occurrence - 1)
  }

  /** The `calculatedDuration` of the `occurrence`-th firing of a task (1-based). */
  function Calculated(base: int, growthFactor: int, occurrence: nat): (r: int)
    requires occurrence >= 1
    ensures growthFactor == 0 ==> r == base
    ensures growthFactor != 0 ==> MinDurationSeconds <= r <= MaxDurationSeconds
  {
    if growthFactor == 0 then base
    else Utils.Clamp(Round(Unclamped(base, growthFactor, occurrence)), MinDurationSeconds, MaxDurationSeconds)
  }

  /** The first occurrence uses exponent 0, so a base inside the bounds is kept whatever the growth. */
  lemma FirstOccurrenceKeepsBase(base: int, growthFactor: int)
    requires MinDurationSeconds <= base <= MaxDurationSeconds
    ensures Calculated(base, growthFactor, 1) == base
  {
    assert Pow(Factor(growthFactor), 0) == 1.0;
    assert Unclamped(base, growthFactor, 1) == base as real;
  }

  /** Clamping is applied to each occurrence separately: the unclamped value of the
      next occurrence is the unclamped value of this one times the factor. */
  lemma UnclampedStep(base: int, growthFactor: int, occurrence: nat)
    requires occurrence >= 1
    ensures Unclamped(base, growthFactor, occurrence + 1)
         == Unclamped(base, growthFactor, occurrence) * Factor(growthFactor)
  {
    var f := Factor(growthFactor);
    assert Pow(f, occurrence) == f * Pow(f, occurrence - 1);
  }

  lemma RoundMonotone(x: real, y: real)
    requires x <= y
    ensures Round(x) <= Round(y)
  {
  }

  /** A positive growth factor never shortens a task from one occurrence to the next. */
  lemma {:induction false} GrowthNonDecreasing(base: int, growthFactor: int, occurrence: nat)
    requires base >= 0 && growthFactor > 0 && occurrence >= 1
    ensures Calculated(base, growthFactor, occurrence) <= Calculated(base, growthFactor, occurrence + 1)
  {
    var u := Unclamped(base, growthFactor, occurrence);
    var f := Factor(growthFactor);
    UnclampedStep(base, growthFactor, occurrence);
    PowNonNegative(f, occurrence - 1);
    assert u >= 0.0;
    assert u * f - u == u * (f - 1.0);
    assert u * (f - 1.0) >= 0.0;
    RoundMonotone(u, u * f);
  }

  /** A negative growth factor (at least -99, as the task form enforces) never lengthens a task. */
  lemma {:induction false} DecayNonIncreasing(base: int, growthFactor: int, occurrence: nat)
    requires base >= 0 && -99 <= growthFactor < 0 && occurrence >= 1
    ensures Calculated(base, growthFactor, occurrence + 1) <= Calculated(base, growthFactor, occurrence)
  {
    var u := Unclamped(base, growthFactor, occurrence);
    var f := Factor(growthFactor);
    UnclampedStep(base, growthFactor, occurrence);
    PowNonNegative(f, occurrence - 1);
    assert u >= 0.0;
    assert u - u * f == u * (1.0 - f);
    assert u * (1.0 - f) >= 0.0;
    RoundMonotone(u * f, u);
  }

  lemma {:induction false} PowNonNegative(b: real, n: nat)
    requires b >= 0.0
    ensures Pow(b, n) >= 0.0
    decreases n
  {
    if n > 0 {
      PowNonNegative(b, n - 1);
    }
  }

  /** The repository's own example: base 100 growing by 10% gives 100, 110, 121. */
  lemma GrowthExample()
    ensures Calculated(100, 10, 1) == 100
    ensures Calculated(100, 10, 2) == 110
    ensures Calculated(100, 10, 3) == 121
  {
    assert Factor(10) == 1.1;
    assert Pow(1.1, 0) == 1.0;
    assert Pow(1.1, 1) == 1.1;
    assert Pow(1.1, 2) == 1.21;
    assert Unclamped(100, 10, 2) == 110.0;
    assert Unclamped(100, 10, 3) == 121.0;
  }
}
