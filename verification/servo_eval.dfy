/** The integer part of the servo helper `PCA9685_ServoEval`: its
    constructors clamp the PWM amounts given for -90, 0 and +90 degrees into
    an ordered range inside one cycle, and choose a straight line or a cubic
    spline through them. The floating-point coefficients and the evaluation
    itself are not modelled; a curve is represented by the amounts it passes
    through. */
module ServoEval {
  import opened Bytes
  import opened PhaseCycle

  /** `_isCSpline == false`: a line from `minAmount` at -90 degrees to
      `maxAmount` at +90 degrees. `_isCSpline == true`: a spline that also
      passes through `midAmount` at 0 degrees. */
  datatype ServoCurve =
    | LineCurve(minAmount: int, maxAmount: int)
    | SplineCurve(minAmount: int, midAmount: int, maxAmount: int)

  /** `min(max(v, lo), hi)` with Arduino's macros. */
  function Clamp(v: int, lo: int, hi: int): (r: int) {
    Min(Max(v, lo), hi)
  }

  /** `r` is `v` brought into `[lo, hi]`: `v` itself when it lies there,
      otherwise the bound it is beyond. */
  predicate ClampedInto(v: int, lo: int, hi: int, r: int) {
    && lo <= r <= hi
    && (lo <= v <= hi ==> r == v)
    && (v < lo ==> r == lo)
    && (v > hi ==> r == hi)
  }

  /** `lo`, `mid` and `hi` are the three calibration amounts after the
      constructor's clamping: each brought into the range from the one
      before it up to a full cycle. */
  predicate ClampedAmounts(minPwmAmount: int, midPwmAmount: int, maxPwmAmount: int, lo: int, mid: int, hi: int) {
    && ClampedInto(minPwmAmount, 0, PwmFull, lo)
    && ClampedInto(midPwmAmount, lo, PwmFull, mid)
    && ClampedInto(maxPwmAmount, mid, PwmFull, hi)
  }

  /** Amounts whose two gaps differ: the curve through them is not a line. */
  predicate Uneven(lo: int, mid: int, hi: int) {
    hi - mid != mid - lo
  }

  /** Amounts a curve passes through are ordered and at most one full cycle. */
  predicate Ordered(lo: int, hi: int) {
    0 <= lo <= hi <= PwmFull
  }

  /** The amounts the curve passes through, in angle order. */
  function Amounts(c: ServoCurve): (amounts: seq<int>) {
    match c
    case LineCurve(lo, hi) => [lo, hi]
    case SplineCurve(lo, mid, hi) => [lo, mid, hi]
  }

  /** The two-amount constructor: the minimum is clamped into one cycle, the
      maximum into the range from the minimum to a full cycle. */
  function NewLineServo(minPwmAmount: U16, maxPwmAmount: U16): (c: ServoCurve)
    ensures c.LineCurve? && Ordered(c.minAmount, c.maxAmount)
    ensures Ordered(minPwmAmount, maxPwmAmount) ==> c == LineCurve(minPwmAmount, maxPwmAmount)
    ensures c.minAmount == Min(minPwmAmount, PwmFull)
    ensures ClampedInto(minPwmAmount, 0, PwmFull, c.minAmount)
    ensures ClampedInto(maxPwmAmount, c.minAmount, PwmFull, c.maxAmount)
  {
    var lo := Clamp(minPwmAmount, 0, PwmFull);
    var hi := Clamp(maxPwmAmount, lo, PwmFull);
    LineCurve(lo, hi)
  }

  /** The three-amount constructor: each amount is clamped between the one
      before it and a full cycle; the curve is a spline exactly when the
      clamped amounts are not evenly spaced. A line passes through the
      clamped middle amount too, so it is the midpoint of its ends. */
  function NewServo(minPwmAmount: U16, midPwmAmount: U16, maxPwmAmount: U16): (c: ServoCurve)
    ensures Ordered(c.minAmount, c.maxAmount)
    ensures c.SplineCurve? ==>
              && ClampedAmounts(minPwmAmount, midPwmAmount, maxPwmAmount, c.minAmount, c.midAmount, c.maxAmount)
              && Uneven(c.minAmount, c.midAmount, c.maxAmount)
    ensures c.LineCurve? ==>
              && (c.minAmount + c.maxAmount) % 2 == 0
              && ClampedAmounts(minPwmAmount, midPwmAmount, maxPwmAmount,
                                c.minAmount, (c.minAmount + c.maxAmount) / 2, c.maxAmount)
    ensures Ordered(minPwmAmount, midPwmAmount) && Ordered(midPwmAmount, maxPwmAmount) ==>
              Amounts(c) == if maxPwmAmount - midPwmAmount != midPwmAmount - minPwmAmount
                            then [minPwmAmount, midPwmAmount, maxPwmAmount]
                            else [minPwmAmount, maxPwmAmount]
  {
    var lo := Clamp(minPwmAmount, 0, PwmFull);
    var mid := Clamp(midPwmAmount, lo, PwmFull);
    var hi := Clamp(maxPwmAmount, mid, PwmFull);
    if hi - mid != mid - lo then SplineCurve(lo, mid, hi) else LineCurve(lo, hi)
  }

  /** The clamped amounts are unique: whatever the inputs, at most one
      triple satisfies the clamping. */
  lemma ClampedAmountsUnique(minPwmAmount: int, midPwmAmount: int, maxPwmAmount: int,
                             lo: int, mid: int, hi: int, lo': int, mid': int, hi': int)
    requires ClampedAmounts(minPwmAmount, midPwmAmount, maxPwmAmount, lo, mid, hi)
    requires ClampedAmounts(minPwmAmount, midPwmAmount, maxPwmAmount, lo', mid', hi')
    ensures lo == lo' && mid == mid' && hi == hi'
  {
  }

  /** For every input, once the amounts are clamped: the curve runs from the
      clamped minimum to the clamped maximum, and it is a spline exactly when
      the clamped amounts are unevenly spaced. */
  lemma SplineExactlyWhenUneven(minPwmAmount: U16, midPwmAmount: U16, maxPwmAmount: U16,
                                lo: int, mid: int, hi: int)
    requires ClampedAmounts(minPwmAmount, midPwmAmount, maxPwmAmount, lo, mid, hi)
    ensures var c := NewServo(minPwmAmount, midPwmAmount, maxPwmAmount);
            && c.minAmount == lo && c.maxAmount == hi
            && (c.SplineCurve? <==> Uneven(lo, mid, hi))
            && (c.SplineCurve? ==> c.midAmount == mid)
  {
    var c := NewServo(minPwmAmount, midPwmAmount, maxPwmAmount);
    if c.SplineCurve? {
      ClampedAmountsUnique(minPwmAmount, midPwmAmount, maxPwmAmount, lo, mid, hi, c.minAmount, c.midAmount, c.maxAmount);
    } else {
      ClampedAmountsUnique(minPwmAmount, midPwmAmount, maxPwmAmount, lo, mid, hi,
                           c.minAmount, (c.minAmount + c.maxAmount) / 2, c.maxAmount);
    }
  }

  /** When the three-amount constructor settles on a line, it is the line
      the two-amount constructor builds from the outer amounts: the middle
      amount only matters for a spline. */
  lemma EvenSpacingIsLine(minPwmAmount: U16, midPwmAmount: U16, maxPwmAmount: U16)
    requires NewServo(minPwmAmount, midPwmAmount, maxPwmAmount).LineCurve?
    ensures NewServo(minPwmAmount, midPwmAmount, maxPwmAmount) == NewLineServo(minPwmAmount, maxPwmAmount)
  {
    var lo := Clamp(minPwmAmount, 0, PwmFull);
    var mid := Clamp(midPwmAmount, lo, PwmFull);
    if maxPwmAmount < mid {
      assert mid == lo;
    }
  }

  /** Building a curve again from the amounts it passes through gives the
      same curve: clamping is idempotent and the curve kind is stable. */
  lemma RebuildIsIdentity(c: ServoCurve)
    requires c.LineCurve? ==> Ordered(c.minAmount, c.maxAmount)
    requires c.SplineCurve? ==>
               (Ordered(c.minAmount, c.midAmount) && Ordered(c.midAmount, c.maxAmount)
                && c.maxAmount - c.midAmount != c.midAmount - c.minAmount)
    ensures c.LineCurve? ==> NewLineServo(c.minAmount, c.maxAmount) == c
    ensures c.SplineCurve? ==> NewServo(c.minAmount, c.midAmount, c.maxAmount) == c
  {
  }

  /** Every curve a constructor builds can be built again from its amounts. */
  lemma ConstructorsIdempotent(a: U16, m: U16, b: U16)
    ensures var c := NewLineServo(a, b); NewLineServo(c.minAmount, c.maxAmount) == c
    ensures var c := NewServo(a, m, b);
            c.SplineCurve? ==> NewServo(c.minAmount, c.midAmount, c.maxAmount) == c
    ensures var c := NewServo(a, m, b);
            c.LineCurve? ==> NewLineServo(c.minAmount, c.maxAmount) == c
  {
    RebuildIsIdentity(NewLineServo(a, b));
    RebuildIsIdentity(NewServo(a, m, b));
  }
}
