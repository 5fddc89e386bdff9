/**
 * The scale arithmetic of the semicircle-lines animation.
 *
 * Every helper is a pure function over exact reals. `scale` is the animation
 * progress of one figure, `i` the index of a partition among `n` equal
 * partitions, `a` and `b` the two divisors a mirrored value switches
 * between, and `dir` the direction of travel (-1, 0 or 1).
 */
module SemiCircleLinesStage {

  /** Fraction of a full step added to the scale on every tick. */
  const ScGap: real := 0.05

  /** Divisor that turns the scale into a 0/1 switch: slightly above one half. */
  const ScDiv: real := 0.51

  /** Number of figures drawn in a row. */
  const Nodes: int := 5

  /** Number of semicircular arcs per figure. */
  const Circles: int := 10

  function Abs(x: real): real {
    if x < 0.0 then -x else x
  }

  function Min(x: real, y: real): real {
    if x <= y then x else y
  }

  function Max(x: real, y: real): real {
    if x >= y then x else y
  }

  /** `x` clamped to the interval [lo, hi]. */
  function Clamp(x: real, lo: real, hi: real): real
  {
    Max(lo, Min(x, hi))
  }

  /** Start of partition `i` of `n` on the scale axis: i / n. */
  function Start(i: int, n: real): real
    requires n > 0.0
  {
    i as real / n
  }

  /** Width of one of `n` partitions: 1 / n. */
  function Width(n: real): real
    requires n > 0.0
  {
    1.0 / n
  }

  // ---------------------------------------------------------------------
  // scaleFactor
  // ---------------------------------------------------------------------

  /** floor(scale / 0.51): the number of whole `ScDiv` steps below `scale`. */
  function ScaleFactor(scale: real): (k: int)
    ensures k as real * ScDiv <= scale < (k + 1) as real * ScDiv
  {
    (scale / ScDiv).Floor
  }

  /** On the usual range [0, 1] the factor is a switch that flips at 0.51. */
  lemma ScaleFactorSwitch(scale: real)
    requires 0.0 <= scale <= 1.0
    ensures ScaleFactor(scale) == 0 <==> scale < ScDiv
    ensures ScaleFactor(scale) == 1 <==> ScDiv <= scale
    ensures ScaleFactor(scale) == 0 || ScaleFactor(scale) == 1
  {
  }

  /** A larger scale never gives a smaller factor. */
  lemma ScaleFactorMonotone(s1: real, s2: real)
    requires s1 <= s2
    ensures ScaleFactor(s1) <= ScaleFactor(s2)
  {
  }

  // ---------------------------------------------------------------------
  // maxScale and divideScale
  // ---------------------------------------------------------------------

  /** max(0, scale - i/n): how far `scale` has moved past the start of partition `i`. */
  function MaxScale(scale: real, i: int, n: real): (r: real)
    requires n > 0.0
    ensures r >= 0.0 && r >= scale - Start(i, n)
    ensures r == 0.0 <==> scale <= Start(i, n)
    ensures scale >= Start(i, n) ==> r == scale - Start(i, n)
  {
    Max(0.0, scale - Start(i, n))
  }

  /**
   * min(1/n, maxScale(scale, i, n)): the progress of partition `i`. It is not
   * multiplied by n, so a full partition has the value 1/n, not 1.
   */
  function DivideScale(scale: real, i: int, n: real): (r: real)
    requires n > 0.0
    ensures 0.0 <= r <= Width(n)
    ensures scale <= Start(i, n) ==> r == 0.0
    ensures scale >= Start(i + 1, n) ==> r == Width(n)
    ensures Start(i, n) <= scale <= Start(i + 1, n) ==> r == scale - Start(i, n)
  {
    StartStep(i, n);
    Min(Width(n), MaxScale(scale, i, n))
  }

  /** For a fixed partition, progress never decreases as the scale grows. */
  lemma DivideScaleMonotone(s1: real, s2: real, i: int, n: real)
    requires n > 0.0 && s1 <= s2
    ensures DivideScale(s1, i, n) <= DivideScale(s2, i, n)
  {
  }

  /** Partition `i` is still empty exactly up to i/n and already full exactly from (i+1)/n. */
  lemma DivideScaleBounds(scale: real, i: int, n: real)
    requires n > 0.0
    ensures DivideScale(scale, i, n) == 0.0 <==> scale <= Start(i, n)
    ensures DivideScale(scale, i, n) == Width(n) <==> scale >= Start(i + 1, n)
  {
  }

  /**
   * Partitions fill in order: once a later partition `j` has started, every
   * earlier partition `i` is full.
   */
  lemma SequentialFill(scale: real, i: int, j: int, n: real)
    requires n > 0.0 && i < j
    requires DivideScale(scale, j, n) > 0.0
    ensures DivideScale(scale, i, n) == Width(n)
  {
  }

  /** Later partitions start later. */
  lemma StartMonotone(i: int, j: int, n: real)
    requires n > 0.0 && i <= j
    ensures Start(i, n) <= Start(j, n)
  {
  }

  /** Partition `i + 1` starts exactly one width after partition `i`. */
  lemma StartStep(i: int, n: real)
    requires n > 0.0
    ensures Start(i + 1, n) == Start(i, n) + Width(n)
  {
  }

  /** Total progress of partitions 0 .. k-1. */
  function SumPartitions(scale: real, k: nat, n: real): real
    requires n > 0.0
  {
    if k == 0 then 0.0 else SumPartitions(scale, k - 1, n) + DivideScale(scale, k - 1, n)
  }

  /**
   * The first `k` partitions together hold exactly the scale clamped to
   * [0, k/n]: the staggered partitions tile the scale with no gap and no overlap.
   */
  lemma {:induction false} SumPartitionsClamp(scale: real, k: nat, n: real)
    requires n > 0.0
    ensures SumPartitions(scale, k, n) == Clamp(scale, 0.0, Start(k, n))
  {
    if k > 0 {
      SumPartitionsClamp(scale, k - 1, n);
      var lo, hi := Start(k - 1, n), Start(k, n);
      StartStep(k - 1, n);
      StartMonotone(0, k - 1, n);
      var d := DivideScale(scale, k - 1, n);
      assert SumPartitions(scale, k, n) == Clamp(scale, 0.0, lo) + d;
      if scale <= 0.0 {
        assert Clamp(scale, 0.0, lo) == 0.0 && d == 0.0;
      } else if scale <= lo {
        assert Clamp(scale, 0.0, lo) == scale && d == 0.0;
      } else if scale <= hi {
        assert Clamp(scale, 0.0, lo) == lo && d == scale - lo;
      } else {
        assert Clamp(scale, 0.0, lo) == lo && d == Width(n);
      }
    }
  }

  /** All `n` partitions together hold the scale clamped to [0, 1]. */
  lemma PartitionsCoverScale(scale: real, n: nat)
    requires n > 0
    ensures SumPartitions(scale, n, n as real) == Clamp(scale, 0.0, 1.0)
  {
    SumPartitionsClamp(scale, n, n as real);
  }

  // ---------------------------------------------------------------------
  // mirrorValue and updateValue
  // ---------------------------------------------------------------------

  /** (1 - k)/a + k/b with k = scaleFactor(scale): 1/a below 0.51, 1/b from 0.51 on. */
  function MirrorValue(scale: real, a: real, b: real): (r: real)
    requires a != 0.0 && b != 0.0
    ensures 0.0 <= scale < ScDiv ==> r == 1.0 / a
    ensures ScDiv <= scale < 2.0 * ScDiv ==> r == 1.0 / b
  {
    var k := ScaleFactor(scale);
    (1 - k) as real / a + k as real / b
  }

  /** On [0, 1] the mirrored value is one of the two reciprocals, so positive for positive a and b. */
  lemma MirrorValueOnUnit(scale: real, a: real, b: real)
    requires a != 0.0 && b != 0.0 && 0.0 <= scale <= 1.0
    ensures ScaleFactor(scale) == 0 ==> MirrorValue(scale, a, b) == 1.0 / a
    ensures ScaleFactor(scale) == 1 ==> MirrorValue(scale, a, b) == 1.0 / b
    ensures a > 0.0 && b > 0.0 ==> MirrorValue(scale, a, b) > 0.0
  {
  }

  /** mirrorValue(scale, a, b) * dir * 0.05: the signed change of the scale on one tick. */
  function UpdateValue(scale: real, dir: int, a: real, b: real): (r: real)
    requires a != 0.0 && b != 0.0
    ensures dir == 0 ==> r == 0.0
  {
    MirrorValue(scale, a, b) * dir as real * ScGap
  }

  /** Reversing the direction negates the step. */
  lemma UpdateValueOdd(scale: real, dir: int, a: real, b: real)
    requires a != 0.0 && b != 0.0
    ensures UpdateValue(scale, -dir, a, b) == -UpdateValue(scale, dir, a, b)
  {
  }

  /** The size of a step is |mirrorValue| * 0.05 * |dir|. */
  lemma UpdateValueMagnitude(scale: real, dir: int, a: real, b: real)
    requires a != 0.0 && b != 0.0
    ensures Abs(UpdateValue(scale, dir, a, b)) == Abs(MirrorValue(scale, a, b)) * ScGap * Abs(dir as real)
  {
  }

  /** With positive divisors and a scale in [0, 1], a step has the sign of the direction. */
  lemma UpdateValueSign(scale: real, dir: int, a: real, b: real)
    requires a > 0.0 && b > 0.0 && 0.0 <= scale <= 1.0
    ensures UpdateValue(scale, dir, a, b) > 0.0 <==> dir > 0
    ensures UpdateValue(scale, dir, a, b) < 0.0 <==> dir < 0
    ensures UpdateValue(scale, dir, a, b) == 0.0 <==> dir == 0
  {
  }

  /**
   * With the divisors the figures use (1 and `Circles`) and a unit direction,
   * a step is 0.05 below 0.51 and 0.005 from 0.51 to 1.
   */
  lemma UpdateValueDefaultStep(scale: real, dir: int)
    requires dir == 1 || dir == -1
    requires 0.0 <= scale <= 1.0
    ensures scale < ScDiv ==> Abs(UpdateValue(scale, dir, 1.0, Circles as real)) == 0.05
    ensures scale >= ScDiv ==> Abs(UpdateValue(scale, dir, 1.0, Circles as real)) == 0.005
  {
  }
}
