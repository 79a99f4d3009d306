/**
 IEEE 754 double addition of a few non-negative two-digit decimals below two, exactly. A double is the
 integer number of units of 2^-58 in it; every double that arises from the weights is such a multiple.
 */
module Doubles {

  /** 1.0 in units of 2^-58. */
  const ONE: nat := 0x400_0000_0000_0000

  /** The distance of neighbouring doubles at this magnitude: 53 significant bits. */
  function Ulp(n: nat): (q: nat)
    ensures q in {1, 2, 4, 8, 16, 32, 64}
  {
    if n < 0x20_0000_0000_0000 then 1
    else if n < 0x40_0000_0000_0000 then 2
    else if n < 0x80_0000_0000_0000 then 4
    else if n < 0x100_0000_0000_0000 then 8
    else if n < 0x200_0000_0000_0000 then 16
    else if n < 0x400_0000_0000_0000 then 32
    else 64
  }

  /** The multiple of `step` nearest to `x`, ties to the even multiple. */
  function NearestMultiple(x: nat, step: nat): nat
    requires step > 0
  {
    var d, r := x / step, x % step;
    if 2 * r < step || (2 * r == step && d % 2 == 0) then d else d + 1
  }

  /** The double nearest to `hundredths` hundredths of a unit. */
  function Nearest(hundredths: nat): nat {
    match Ulp(hundredths / 100)
    case 1 => NearestMultiple(hundredths, 100)
    case 2 => 2 * NearestMultiple(hundredths, 200)
    case 4 => 4 * NearestMultiple(hundredths, 400)
    case 8 => 8 * NearestMultiple(hundredths, 800)
    case 16 => 16 * NearestMultiple(hundredths, 1600)
    case 32 => 32 * NearestMultiple(hundredths, 3200)
    case _ => 64 * NearestMultiple(hundredths, 6400)
  }

  /** The double a literal such as 0.15 stands for, given in hundredths. */
  function Literal(h: nat): nat {
    Nearest(h * ONE)
  }

  function Add(a: nat, b: nat): nat {
    Nearest(100 * (a + b))
  }

  function Fold(add: (nat, nat) -> nat, weights: seq<nat>): nat {
    if weights == [] then 0 else add(Fold(add, weights[..|weights| - 1]), weights[|weights| - 1])
  }

  /** `score += ...` for one weight. */
  function AddWeight(sum: nat, w: nat): nat {
    Add(sum, Literal(w))
  }

  /** The weights added in turn; a weight that is not added counts as zero. */
  function Sum(weights: seq<nat>): nat {
    Fold(AddWeight, weights)
  }

  predicate IsDouble(n: nat) {
    Nearest(100 * n) == n
  }

  // ---------------------------------------------------------------- rounding to multiples

  lemma MultiplyOrder(a: nat, b: nat, step: nat)
    requires a < b
    ensures a * step + step <= b * step
  {
    assert (b - a - 1) * step >= 0;
    assert b * step == (b - a - 1) * step + a * step + step;
  }

  lemma DivideBack(x: nat, step: nat)
    requires step > 0
    ensures x == x / step * step + x % step && 0 <= x % step < step
  {
  }

  /** Rounding moves by at most half a step. */
  lemma MultipleIsNear(x: nat, step: nat)
    requires step > 0
    ensures var m := NearestMultiple(x, step) * step; 2 * m - step <= 2 * x <= 2 * m + step
  {
    DivideBack(x, step);
    var d := x / step;
    assert (d + 1) * step == d * step + step;
  }

  lemma MultipleMonotone(x: nat, y: nat, step: nat)
    requires step > 0 && x <= y
    ensures NearestMultiple(x, step) <= NearestMultiple(y, step)
  {
    var kx, ky := NearestMultiple(x, step), NearestMultiple(y, step);
    if ky < kx {
      MultipleIsNear(x, step);
      MultipleIsNear(y, step);
      MultiplyOrder(ky, kx, step);
    }
  }

  lemma MultipleOfMultiple(k: nat, step: nat)
    requires step > 0
    ensures NearestMultiple(k * step, step) == k
  {
    var j := NearestMultiple(k * step, step);
    MultipleIsNear(k * step, step);
    if j < k {
      MultiplyOrder(j, k, step);
    } else if k < j {
      MultiplyOrder(k, j, step);
    }
  }

  // ---------------------------------------------------------------- rounding to doubles

  /** Where the distance of neighbouring doubles doubles: 2^53 steps. */
  predicate IsPower(b: nat) {
    b in {0x20_0000_0000_0000, 0x40_0000_0000_0000, 0x80_0000_0000_0000, 0x100_0000_0000_0000, 0x200_0000_0000_0000,
          0x400_0000_0000_0000}
  }

  lemma PowerIsMultiple(b: nat, n: nat) returns (k: nat)
    requires IsPower(b) && b <= n
    ensures b == k * Ulp(n)
  {
    k := b / Ulp(n);
  }

  /** Rounding does not cross a power of two from above. */
  lemma StaysAbove(x: nat, b: nat)
    requires IsPower(b) && 100 * b <= x
    ensures b <= Nearest(x)
  {
    var q := Ulp(x / 100);
    var k := PowerIsMultiple(b, x / 100);
    assert k * (100 * q) == 100 * b;
    MultipleOfMultiple(k, 100 * q);
    MultipleMonotone(k * (100 * q), x, 100 * q);
    Scale(k, NearestMultiple(x, 100 * q), q);
  }

  lemma Scale(a: nat, b: nat, q: nat)
    requires a <= b
    ensures a * q <= b * q
  {
    if a < b { MultiplyOrder(a, b, q); }
  }

  /** Nor from below; `b` is the power that ends the range of `x`. */
  lemma StaysBelow(x: nat, b: nat)
    requires b == 0x20_0000_0000_0000 * Ulp(x / 100) && x <= 100 * b
    ensures Nearest(x) <= b
  {
    var q := Ulp(x / 100);
    assert 0x20_0000_0000_0000 * (100 * q) == 100 * b;
    MultipleOfMultiple(0x20_0000_0000_0000, 100 * q);
    MultipleMonotone(x, 0x20_0000_0000_0000 * (100 * q), 100 * q);
    Scale(NearestMultiple(x, 100 * q), 0x20_0000_0000_0000, q);
  }

  lemma NearestMonotone(x: nat, y: nat)
    requires x <= y
    ensures Nearest(x) <= Nearest(y)
  {
    var p, q := Ulp(x / 100), Ulp(y / 100);
    if p == q {
      MultipleMonotone(x, y, 100 * q);
      Scale(NearestMultiple(x, 100 * q), NearestMultiple(y, 100 * q), q);
    } else {
      var b := 0x20_0000_0000_0000 * p;
      assert IsPower(b) && x / 100 < b <= y / 100;
      StaysBelow(x, b);
      StaysAbove(y, b);
    }
  }

  lemma MultipleIsDouble(k: nat, q: nat)
    requires Ulp(k * q) == q
    ensures IsDouble(k * q)
  {
    assert 100 * (k * q) / 100 == k * q;
    assert 100 * (k * q) == k * (100 * q);
    MultipleOfMultiple(k, 100 * q);
  }

  lemma PowerIsDouble(b: nat)
    requires IsPower(b)
    ensures IsDouble(b)
  {
    var k := PowerIsMultiple(b, b);
    MultipleIsDouble(k, Ulp(b));
  }

  /** Rounding gives a double. */
  lemma NearestIsDouble(x: nat)
    ensures IsDouble(Nearest(x))
  {
    var q := Ulp(x / 100);
    var k := NearestMultiple(x, 100 * q);
    if q < 64 {
      var b := 0x20_0000_0000_0000 * q;
      StaysBelow(x, b);
      if k * q == b {
        PowerIsDouble(b);
        return;
      }
    }
    if q > 1 { StaysAbove(x, 0x10_0000_0000_0000 * q); }
    MultipleIsDouble(k, q);
  }

  // ---------------------------------------------------------------- sums

  lemma {:induction false} SumIsDouble(weights: seq<nat>)
    ensures IsDouble(Sum(weights))
  {
    if weights == [] {
      assert IsDouble(0);
    } else {
      AddGivesDouble(Sum(weights[..|weights| - 1]), weights[|weights| - 1]);
    }
  }

  lemma AddGivesDouble(sum: nat, w: nat)
    ensures IsDouble(AddWeight(sum, w))
  {
    NearestIsDouble(100 * (sum + Literal(w)));
  }

  /** Smaller or missing weights never make the rounded sum larger, whatever the roundings do. */
  lemma {:induction false} SumMonotone(less: seq<nat>, more: seq<nat>)
    requires |less| == |more| && forall i :: 0 <= i < |less| ==> less[i] <= more[i]
    ensures Sum(less) <= Sum(more)
  {
    if less != [] {
      var n := |less| - 1;
      SumMonotone(less[..n], more[..n]);
      AddMonotone(Sum(less[..n]), Sum(more[..n]), less[n], more[n]);
    }
  }

  lemma LiteralMonotone(v: nat, w: nat)
    requires v <= w
    ensures Literal(v) <= Literal(w)
  {
    NearestMonotone(v * ONE, w * ONE);
  }

  lemma AddMonotone(a: nat, b: nat, v: nat, w: nat)
    requires a <= b && v <= w
    ensures AddWeight(a, v) <= AddWeight(b, w)
  {
    LiteralMonotone(v, w);
    NearestMonotone(100 * (a + Literal(v)), 100 * (b + Literal(w)));
  }

  // ---------------------------------------------------------------- doubles as numbers

  /** The hundredth a double is closest to. */
  function Hundredth(n: nat): nat {
    (100 * n + ONE / 2) / ONE
  }

  /**
   A double as a number that compares like it: a hundredth if it is the double of that literal, else its exact
   value. This is how it reads back from decimal text: "0.7" gives the double of the literal again.
   */
  function Shown(n: nat): real {
    if n == Literal(Hundredth(n)) then Hundredth(n) as real / 100.0 else n as real / ONE as real
  }

  /** A double above the one of a literal is above the exact hundredth; likewise below. */
  lemma LiteralSeparates(n: nat, h: nat)
    requires IsDouble(n)
    ensures Literal(h) < n ==> h * ONE <= 100 * n
    ensures n < Literal(h) ==> 100 * n <= h * ONE
  {
    if h * ONE > 100 * n { NearestMonotone(100 * n, h * ONE); }
    if 100 * n > h * ONE { NearestMonotone(h * ONE, 100 * n); }
  }

  /** Where a shown double lies: within half a hundredth of its hundredth, on its own side of it. */
  lemma ShownNear(n: nat)
    requires IsDouble(n)
    ensures var h := Hundredth(n);
      && h as real / 100.0 - 0.005 <= Shown(n) <= h as real / 100.0 + 0.005
      && (n < Literal(h) ==> Shown(n) <= h as real / 100.0 && Shown(n) == n as real / ONE as real)
      && (n == Literal(h) ==> Shown(n) == h as real / 100.0)
      && (n > Literal(h) ==> Shown(n) >= h as real / 100.0 && Shown(n) == n as real / ONE as real)
  {
    LiteralSeparates(n, Hundredth(n));
  }

  lemma ShownMonotone(m: nat, n: nat)
    requires IsDouble(m) && IsDouble(n) && m <= n
    ensures Shown(m) <= Shown(n)
  {
    ShownNear(m);
    ShownNear(n);
    assert Hundredth(m) <= Hundredth(n);
    if Hundredth(m) < Hundredth(n) {
      assert Hundredth(m) as real / 100.0 + 0.01 <= Hundredth(n) as real / 100.0;
    }
  }

  /** `Math.min(score, 1.0)`. */
  function Capped(n: nat): nat {
    if n < ONE then n else ONE
  }

  /** The confidence that some weights give. */
  function Score(weights: seq<nat>): real {
    Shown(Capped(Sum(weights)))
  }

  lemma ScoreInRange(weights: seq<nat>)
    ensures 0.0 <= Score(weights) <= 1.0
  {
    var n := Capped(Sum(weights));
    SumIsDouble(weights);
    ShownOne();
    ShownMonotone(0, n);
    ShownMonotone(n, ONE);
  }

  /** Fewer fields never score higher. */
  lemma ScoreMonotone(less: seq<nat>, more: seq<nat>)
    requires |less| == |more| && forall i :: 0 <= i < |less| ==> less[i] <= more[i]
    ensures Score(less) <= Score(more)
  {
    SumIsDouble(less);
    SumIsDouble(more);
    SumMonotone(less, more);
    ShownOne();
    ShownMonotone(Capped(Sum(less)), Capped(Sum(more)));
  }

  lemma ShownOne()
    ensures IsDouble(ONE) && Shown(ONE) == 1.0 && IsDouble(0) && Shown(0) == 0.0
  {
    PowerIsDouble(ONE);
    assert Literal(100) == Nearest(100 * ONE) == ONE;
    assert Hundredth(ONE) == 100;
    assert Literal(0) == 0 && Hundredth(0) == 0;
  }

  /** One addition: the sum so far, the literal, and the rounded sum. */
  lemma SumStep(front: seq<nat>, w: nat, before: nat, literal: nat, after: nat)
    requires Sum(front) == before && Literal(w) == literal && Add(before, literal) == after
    ensures Sum(front + [w]) == after
  {
    assert (front + [w])[..|front|] == front;
  }

  /** A field that is not there adds nothing. */
  lemma SumSkips(front: seq<nat>)
    ensures Sum(front + [0]) == Sum(front)
  {
    SumIsDouble(front);
    assert Literal(0) == 0;
    SumStep(front, 0, Sum(front), 0, Sum(front));
  }

  lemma FirstLiterals()
    ensures Literal(20) == 57646075230342352 && Literal(15) == 43234556422756760
    ensures Add(0, 57646075230342352) == 57646075230342352
    ensures Add(57646075230342352, 57646075230342352) == 115292150460684704
    ensures Add(115292150460684704, 43234556422756760) == 158526706883441472
  {
  }

  lemma LastLiterals()
    ensures Literal(5) == 14411518807585588 && Literal(10) == 28823037615171176
    ensures Add(158526706883441472, 14411518807585588) == 172938225691027072
    ensures Add(172938225691027072, 28823037615171176) == 201761263306198240
  {
  }

  lemma ThreeWeights(front: seq<nat>)
    requires Sum(front) == 0
    ensures Sum(front + [20, 20, 15]) == 158526706883441472
  {
    FirstLiterals();
    SumStep(front, 20, 0, 57646075230342352, 57646075230342352);
    SumStep(front + [20], 20, 57646075230342352, 57646075230342352, 115292150460684704);
    SumStep(front + [20] + [20], 15, 115292150460684704, 43234556422756760, 158526706883441472);
    assert front + [20] + [20] + [15] == front + [20, 20, 15];
  }

  lemma FiveWeights(front: seq<nat>)
    requires Sum(front) == 158526706883441472
    ensures Sum(front + [0, 0, 5, 0, 10]) == 201761263306198240
  {
    var f2 := front + [0] + [0];
    SumSkips(front);
    SumSkips(front + [0]);
    LastLiterals();
    SumStep(f2, 5, 158526706883441472, 14411518807585588, 172938225691027072);
    SumSkips(f2 + [5]);
    SumStep(f2 + [5] + [0], 10, 172938225691027072, 28823037615171176, 201761263306198240);
    assert f2 + [5] + [0] + [10] == front + [0, 0, 5, 0, 10];
  }

  /**
   0.2 + 0.2 + 0.15 + 0.05 + 0.1, with the missing fields of the confidence in between, is not the double of 0.7 but
   the next one.
   */
  lemma SeventyOvershoots(weights: seq<nat>)
    requires weights == [0, 20, 20, 15, 0, 0, 5, 0, 10]
    ensures Sum(weights) == 201761263306198240
    ensures Literal(70) < Sum(weights) == Literal(70) + Ulp(Literal(70))
  {
    SumSkips(weights[..0]);
    assert weights[..0] + [0] == weights[..1];
    ThreeWeights(weights[..1]);
    assert weights[..1] + [20, 20, 15] == weights[..4];
    FiveWeights(weights[..4]);
    assert weights[..4] + [0, 0, 5, 0, 10] == weights;
  }

  /** It shows as a little more. */
  lemma SeventyShown()
    ensures 0.7 < Shown(Capped(201761263306198240)) < 0.7005
  {
    assert Hundredth(201761263306198240) == 70;
  }

  lemma SeventyScores(weights: seq<nat>)
    requires weights == [0, 20, 20, 15, 0, 0, 5, 0, 10]
    ensures 0.7 < Score(weights) < 0.7005
  {
    SeventyOvershoots(weights);
    SeventyShown();
  }

  // ---------------------------------------------------------------- how far off the sum is

  function Total(weights: seq<nat>): nat {
    if weights == [] then 0 else Total(weights[..|weights| - 1]) + weights[|weights| - 1]
  }

  lemma TotalOne(weights: seq<nat>, k: nat)
    requires k < |weights|
    ensures Total(weights[..k + 1]) == Total(weights[..k]) + weights[k]
  {
    assert weights[..k + 1][..k] == weights[..k];
  }

  /** Rounding to a double moves by at most half the distance of doubles. */
  lemma NearestIsNear(x: nat)
    ensures x - 3200 <= 100 * Nearest(x) <= x + 3200
  {
    var q := Ulp(x / 100);
    MultipleIsNear(x, 100 * q);
    var k := NearestMultiple(x, 100 * q);
    assert 100 * (k * q) == k * (100 * q);
  }

  /** Every addition adds two rounding errors at most, that of the literal and its own. */
  lemma AddIsNear(total: nat, sum: nat, w: nat, slack: nat)
    requires total * ONE - slack <= 100 * sum <= total * ONE + slack
    ensures (total + w) * ONE - slack - 6400 <= 100 * AddWeight(sum, w) <= (total + w) * ONE + slack + 6400
  {
    NearestIsNear(w * ONE);
    NearestIsNear(100 * (sum + Literal(w)));
  }

  lemma {:induction false} SumIsNear(weights: seq<nat>)
    ensures Total(weights) * ONE - 6400 * |weights| <= 100 * Sum(weights) <= Total(weights) * ONE + 6400 * |weights|
  {
    if weights != [] {
      var last := |weights| - 1;
      SumIsNear(weights[..last]);
      AddIsNear(Total(weights[..last]), Sum(weights[..last]), weights[last], 6400 * last);
    }
  }

  /** A shown double is its value up to the rounding of a literal. */
  lemma ShownIsNear(n: nat)
    ensures n as real / ONE as real - 0.0000000000001 <= Shown(n) <= n as real / ONE as real + 0.0000000000001
  {
    NearestIsNear(Hundredth(n) * ONE);
  }

  lemma ScoreNear(weights: seq<nat>)
    requires |weights| <= 9
    ensures var sum := Total(weights) as real / 100.0; var capped := if sum < 1.0 then sum else 1.0;
      capped - 0.000000000001 <= Score(weights) <= capped + 0.000000000001
  {
    SumIsNear(weights);
    ShownIsNear(Capped(Sum(weights)));
    CappedNear(Total(weights), Sum(weights));
  }

  lemma CappedNear(total: nat, sum: nat)
    requires total * ONE - 57600 <= 100 * sum <= total * ONE + 57600
    ensures var exact := total as real / 100.0; var capped := if exact < 1.0 then exact else 1.0;
      capped - 0.0000000000009 <= Capped(sum) as real / ONE as real <= capped + 0.0000000000009
  {
  }
}
