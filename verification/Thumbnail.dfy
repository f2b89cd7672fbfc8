/** Thumbnail scaling: the size kept in proportion, and the nearest source pixel for each target pixel. */
module Thumbnail {
  import opened Basics

  // ------------------------------------------------------------- rounding

  const TWO_52 := 0x10_0000_0000_0000
  const TWO_53 := 0x20_0000_0000_0000

  /** How far the grain of binary64 goes below and above one: 2^-1074 and 2^971. */
  const FINEST := 1074
  const COARSEST := 971

  /** The nearest integer, ties to even. */
  function Nearest(x: real): int {
    var n := x.Floor;
    if x - n as real < 0.5 || (x - n as real == 0.5 && n % 2 == 0) then n else n + 1
  }

  /** It is nearest: no integer is closer, and of two equally close it is the even one. */
  lemma NearestIsNearest(x: real, m: int)
    ensures var d, e := x - Nearest(x) as real, x - m as real;
            && (if d < 0.0 then -d else d) <= (if e < 0.0 then -e else e)
            && ((if d < 0.0 then -d else d) == (if e < 0.0 then -e else e) && m != Nearest(x) ==> Nearest(x) % 2 == 0)
  {
  }

  /** Rounding to 53 significant bits, or to the finest grain, by doubling below 2^52. */
  function Finer(x: real, k: nat): real
    decreases k
  {
    if k == 0 || x >= TWO_52 as real then Nearest(x) as real else Finer(2.0 * x, k - 1) / 2.0
  }

  /** Rounding to 53 significant bits by halving from 2^53 on. */
  function Coarser(x: real, k: nat): real
    decreases k
  {
    if k == 0 || x < TWO_53 as real then Nearest(x) as real else 2.0 * Coarser(x / 2.0, k - 1)
  }

  /** The magnitude nearest to x that binary64 holds; results beyond its largest number are not infinite here. */
  function Magnitude(x: real): real {
    if x < TWO_52 as real then Finer(x, FINEST) else Coarser(x, COARSEST)
  }

  function Binary64(x: real): real { if x < 0.0 then -Magnitude(-x) else Magnitude(x) }

  /**
   * What is used of a floating-point rounding: integers below 2^53 are kept, and between 2^-53 and 2^53 no
   * result is off by more than one part in 2^53.
   */
  ghost predicate Rounding(rnd: real -> real) {
    && (forall n: nat :: n < TWO_53 ==> Keeps(rnd, n))
    && (forall x: real :: InRange(x) ==> Near(rnd(x), x, TWO_53 as real))
  }

  predicate InRange(x: real) { x < TWO_53 as real && x * TWO_53 as real >= 1.0 }

  predicate Keeps(rnd: real -> real, n: nat) { rnd(n as real) == n as real }

  predicate Near(q: real, x: real, t: real) { -x <= (q - x) * t <= x }

  lemma {:induction false} FinerKeeps(n: nat, k: nat)
    ensures Finer(n as real, k) == n as real
    decreases k
  {
    if k > 0 {
      assert 2.0 * n as real == (2 * n) as real;
      FinerKeeps(2 * n, k - 1);
    }
  }

  function Pow2(k: nat): nat { if k == 0 then 1 else 2 * Pow2(k - 1) }

  lemma {:induction false} Pow2Sum(a: nat, b: nat)
    ensures Pow2(a + b) == Pow2(a) * Pow2(b)
  {
    if a > 0 {
      Pow2Sum(a - 1, b);
    }
  }

  lemma TwoTo15()
    ensures Pow2(15) == 0x8000
  {
    assert Pow2(5) == 32 && Pow2(10) == 1024;
  }

  lemma TwoTo105()
    ensures Pow2(105) == TWO_52 * TWO_53
  {
    hide Pow2;
    TwoTo15();
    Pow2Sum(15, 15);
    Pow2Sum(30, 30);
    Pow2Sum(30, 60);
    Pow2Sum(90, 15);
  }

  /** With enough doublings left to reach 2^52, rounding is off by at most one part in 2^53. */
  lemma {:induction false} FinerNear(x: real, k: nat, steps: nat)
    requires 0.0 <= x < TWO_53 as real && steps <= k && x * Pow2(steps) as real >= TWO_52 as real
    ensures Near(Finer(x, k), x, TWO_53 as real)
    decreases k
  {
    if x < TWO_52 as real {
      Regroup(x, 2.0, Pow2(steps - 1) as real);
      FinerNear(2.0 * x, k - 1, steps - 1);
    }
  }

  /** The arithmetic of float64 is such a rounding. */
  lemma Binary64IsRounding()
    ensures Rounding(Binary64)
  {
    hide Finer, Near;
    forall n: nat | n < TWO_53 ensures Keeps(Binary64, n) {
      FinerKeeps(n, FINEST);
    }
    forall x: real | InRange(x) ensures Near(Binary64(x), x, TWO_53 as real) {
      Near64(x);
    }
  }

  lemma Near64(x: real)
    requires InRange(x)
    ensures Near(Binary64(x), x, TWO_53 as real)
  {
    if x < TWO_52 as real {
      TwoTo105();
      FinerNear(x, FINEST, 105);
    }
  }

  /** int(float64(side) * float64(max) / float64(long)), each operation rounded. */
  function Scaled(rnd: real -> real, side: nat, max: nat, long: nat): int
    requires long > 0
  {
    Truncate(rnd(rnd(side as real * max as real) / long as real))
  }

  lemma DivMod(a: nat, b: nat)
    requires b > 0
    ensures a == a / b * b + a % b && 0 <= a % b < b && 0 <= a / b
  {
    var q := a / b;
    assert a == q * b + a % b;
    if q < 0 {
      MulLess(q + 1, 0, b);
    }
  }

  lemma MulLess(x: int, y: int, b: nat)
    requires x <= y
    ensures x * b <= y * b
  {
  }

  lemma MulPositive(x: real, b: real)
    requires b > 0.0 && x * b > 0.0
    ensures x > 0.0
  {
  }

  lemma MulMono(x: real, y: real, b: real)
    requires x <= y && b > 0.0
    ensures x * b <= y * b
  {
  }

  lemma Spread(x: real, y: real, b: real)
    ensures (x + y) * b == x * b + y * b
  {
  }

  lemma Regroup(d: real, t: real, b: real)
    ensures d * t * b == d * b * t
  {
  }

  lemma DivTimes(a: real, b: real)
    requires b > 0.0
    ensures a / b * b == a
  {
  }

  lemma StrictlyMulLess(z: real, b: real, r: real, e: real)
    requires z * b == e + r && -1.0 < e < 1.0 && 1.0 <= r <= b - 1.0
    ensures 0.0 < z < 1.0
  {
    MulPositive(z, b);
    Spread(1.0, -z, b);
    assert (1.0 - z) * b == b - z * b;
    MulPositive(1.0 - z, b);
  }

  /** The distance of a/b from its integer quotient, in parts of b. */
  lemma PartOfQuotient(a: nat, b: nat)
    requires b > 0
    ensures (a as real / b as real - (a / b) as real) * b as real == (a % b) as real
  {
    DivMod(a, b);
    var n, x := a / b, a as real / b as real;
    DivTimes(a as real, b as real);
    Spread(x, -(n as real), b as real);
    assert n as real * b as real == (n * b) as real;
  }

  lemma MulZero(x: real, b: real)
    requires b > 0.0 && x * b == 0.0
    ensures x == 0.0
  {
  }

  /** A value closer than 1/b to a/b, and equal to it when it is an integer, has the integer quotient as its floor. */
  lemma FloorOfQuotient(a: nat, b: nat, q: real)
    requires b > 0
    requires -1.0 < (q - a as real / b as real) * b as real < 1.0
    requires a % b == 0 ==> q == a as real / b as real
    ensures q.Floor == a / b
  {
    DivMod(a, b);
    PartOfQuotient(a, b);
    var n, r, x := a / b, a % b, a as real / b as real;
    if r == 0 {
      MulZero(x - n as real, b as real);
    } else {
      Spread(q - x, x - n as real, b as real);
      assert q - x + (x - n as real) == q - n as real;
      StrictlyMulLess(q - n as real, b as real, r as real, (q - x) * b as real);
    }
  }

  lemma NearTimes(q: real, x: real, t: real, b: real, a: real)
    requires Near(q, x, t) && b > 0.0 && x * b == a && 0.0 <= a < t
    ensures -1.0 < (q - x) * b < 1.0
  {
    var d := q - x;
    MulMono(-x, d * t, b);
    MulMono(d * t, x, b);
    Regroup(d, t, b);
    var e := d * b;
    assert (-x) * b == -a;
    Spread(e, 1.0, t);
    MulPositive(e + 1.0, t);
    Spread(1.0, -e, t);
    assert (1.0 - e) * t == t - e * t;
    MulPositive(1.0 - e, t);
  }

  lemma QuotientBelow(a: nat, b: nat)
    requires b > 0
    ensures 0 <= a / b <= a
  {
    DivMod(a, b);
    MulAtLeast(a / b, b);
  }

  lemma MulAtLeast(q: nat, b: nat)
    requires b > 0
    ensures q * b >= q
  {
    MulLess(0, b - 1, q);
  }

  /** The scaled side is the exact floor of the proportional value, whatever the rounding does. */
  lemma ScaledIsFloor(rnd: real -> real, side: nat, max: nat, long: nat)
    requires Rounding(rnd) && 0 < long < TWO_53 && side * max < TWO_53
    ensures Scaled(rnd, side, max, long) == side * max / long
  {
    var a := side * max;
    assert side as real * max as real == a as real;
    RoundedQuotient(rnd, a, long);
  }

  lemma RoundedQuotient(rnd: real -> real, a: nat, b: nat)
    requires Rounding(rnd) && 0 < b < TWO_53 && a < TWO_53
    ensures Truncate(rnd(rnd(a as real) / b as real)) == a / b
  {
    hide Near, Truncate, InRange;
    assert Keeps(rnd, a);
    QuotientInRange(a, b);
    NothingIsNear();
    QuotientBelow(a, b);
    WholeQuotient(a, b);
    assert a % b == 0 ==> Keeps(rnd, a / b);
    RoundedFloor(a, b, rnd(a as real / b as real), TWO_53 as real);
  }

  lemma WholeQuotient(a: nat, b: nat)
    requires b > 0
    ensures a % b == 0 ==> a as real / b as real == (a / b) as real
  {
    PartOfQuotient(a, b);
    if a % b == 0 {
      MulZero(a as real / b as real - (a / b) as real, b as real);
    }
  }

  lemma RoundedFloor(a: nat, b: nat, q: real, t: real)
    requires b > 0 && Near(q, a as real / b as real, t) && a as real < t
    requires a % b == 0 ==> q == a as real / b as real
    ensures Truncate(q) == a / b
  {
    hide Near;
    DivTimes(a as real, b as real);
    NearTimes(q, a as real / b as real, t, b as real, a as real);
    FloorOfQuotient(a, b, q);
    QuotientBelow(a, b);
    FloorNotNegative(q);
  }

  lemma NothingIsNear()
    ensures Near(0.0, 0.0, TWO_53 as real)
  {
  }

  lemma QuotientInRange(a: nat, b: nat)
    requires 0 < b < TWO_53 && a < TWO_53
    ensures if a == 0 then a as real / b as real == 0.0 else InRange(a as real / b as real)
  {
    var x, t := a as real / b as real, TWO_53 as real;
    DivTimes(a as real, b as real);
    if a > 0 {
      MulPositive(x, b as real);
      Spread(t - x, x, b as real);
      assert (t - x) * b as real == t * b as real - a as real;
      MulPositive(t - x, b as real);
      MulMono(b as real, t, x);
      assert t * x == x * t;
    }
  }

  lemma FloorNotNegative(q: real)
    ensures q.Floor >= 0 ==> Truncate(q) == q.Floor
  {
  }

  // ------------------------------------------------------------------ sizes

  datatype Size = Size(w: nat, h: nat)

  predicate Fits(s: Size, max: int) { max <= 0 || (s.w <= max && s.h <= max) }

  function AtLeastOne(n: int): nat { if n <= 0 then 1 else n }

  /** The size of the thumbnail of an image of the given size. */
  function ScaledSize(rnd: real -> real, s: Size, max: int): Size {
    if Fits(s, max) then s
    else if s.w >= s.h then Size(max, AtLeastOne(Scaled(rnd, s.h, max, s.w)))
    else Size(AtLeastOne(Scaled(rnd, s.w, max, s.h)), max)
  }

  lemma QuotientAtMost(a: nat, b: nat, k: nat)
    requires b > 0
    ensures a <= k * b ==> a / b <= k
    ensures a < k * b ==> a / b < k
  {
    DivMod(a, b);
    var n := a / b;
    if n > k { MulLess(k + 1, n, b); SpreadInt(k, 1, b); }
    if n == k { assert n * b == k * b; }
  }

  lemma QuotientGrows(a: nat, c: nat, b: nat)
    requires b > 0 && a + b <= c
    ensures a / b < c / b
  {
    DivMod(a, b);
    DivMod(c, b);
    var n, m := a / b, c / b;
    if m <= n { MulLess(m, n, b); }
  }

  lemma Commute(x: nat, y: nat)
    ensures x * y == y * x
  {
  }

  /** Scaling a side in proportion to a longer side that shrinks gives no more than the side and the maximum. */
  lemma ShortSide(short: nat, long: nat, max: nat)
    requires 0 < max < long && short <= long
    ensures 0 <= short * max / long <= short && short * max / long <= max
  {
    DivMod(short * max, long);
    MulLess(max, long, short);
    Commute(max, short);
    Commute(long, short);
    QuotientAtMost(short * max, long, short);
    MulLess(short, long, max);
    Commute(long, max);
    QuotientAtMost(short * max, long, max);
  }

  lemma SpreadInt(x: int, y: int, b: nat)
    ensures (x + y) * b == x * b + y * b
  {
  }

  lemma LongSide(n: nat, max: nat)
    requires max > 0
    ensures n <= n * max
  {
    MulAtLeast(n, max);
  }

  /**
   * A scaled image measures 1 to the maximum on both axes and never more than the source; its long side is the
   * maximum, and its short side the exact floor of the proportional value, or 1 where that floor is 0.
   */
  lemma ScaledSizeFits(rnd: real -> real, s: Size, max: int)
    requires Rounding(rnd) && s.w > 0 && s.h > 0 && !Fits(s, max) && s.w * max < TWO_53 && s.h * max < TWO_53
    ensures var t := ScaledSize(rnd, s, max);
            && 1 <= t.w <= max && 1 <= t.h <= max && t.w <= s.w && t.h <= s.h
            && (s.w >= s.h ==> t.w == max && t.h == AtLeastOne(s.h * max / s.w))
            && (s.w < s.h ==> t.h == max && t.w == AtLeastOne(s.w * max / s.h))
  {
    hide Rounding, Scaled;
    LongSide(s.w, max);
    LongSide(s.h, max);
    if s.w >= s.h {
      ScaledIsFloor(rnd, s.h, max, s.w);
      ShortSide(s.h, s.w, max);
    } else {
      ScaledIsFloor(rnd, s.w, max, s.h);
      ShortSide(s.w, s.h, max);
    }
  }

  // --------------------------------------------------------------- sampling

  /** The source coordinate, counted from the edge of the source, for a target coordinate. */
  function Sample(i: nat, source: nat, target: nat): int
    requires target > 0
  {
    i * source / target
  }

  /**
   * The source coordinate k is the one that the target coordinate i falls on when the target is stretched over the
   * source: i / target lies in the k-th of the source's equal parts.
   */
  predicate FallsOn(i: nat, k: int, source: nat, target: nat) {
    0 <= k < source && k * target <= i * source < (k + 1) * target
  }

  lemma SampleInside(i: nat, source: nat, target: nat)
    requires i < target && source > 0
    ensures 0 <= Sample(i, source, target) < source
  {
    DivMod(i * source, target);
    MulLess(i + 1, target, source);
    SpreadInt(i, 1, source);
    Commute(target, source);
    QuotientAtMost(i * source, target, source);
  }

  /** Every sampled coordinate is the one that its target coordinate falls on, and no other is. */
  lemma SampleFacts(i: nat, k: int, source: nat, target: nat)
    requires i < target && source > 0
    ensures FallsOn(i, k, source, target) <==> k == Sample(i, source, target)
  {
    var q := Sample(i, source, target);
    SampleInside(i, source, target);
    DivMod(i * source, target);
    SpreadInt(q, 1, target);
    if k < q { MulLess(k + 1, q, target); }
    if k > q { MulLess(q + 1, k, target); }
  }

  lemma SampleStep(i: nat, source: nat, target: nat)
    requires 0 < target <= source
    ensures Sample(i, source, target) < Sample(i + 1, source, target)
  {
    SpreadInt(i, 1, source);
    QuotientGrows(i * source, (i + 1) * source, target);
  }

  lemma {:induction false} SamplesIncrease(i: nat, j: nat, source: nat, target: nat)
    requires i < j < target <= source
    ensures Sample(i, source, target) < Sample(j, source, target)
    decreases j
  {
    hide Sample;
    SampleStep(j - 1, source, target);
    if i < j - 1 {
      SamplesIncrease(i, j - 1, source, target);
    }
  }

  datatype Rgba = Rgba(r: nat, g: nat, b: nat, a: nat)

  const CLEAR := Rgba(0, 0, 0, 0)

  /** An image with bounds that start at (minX, minY). */
  class Image {
    const minX: int
    const minY: int
    const pixels: array2<Rgba>

    constructor (minX: int, minY: int, pixels: array2<Rgba>)
      ensures this.minX == minX && this.minY == minY && this.pixels == pixels
    {
      this.minX, this.minY, this.pixels := minX, minY, pixels;
    }

    function Measure(): Size { Size(pixels.Length1, pixels.Length0) }

    /** The pixel at a point; outside the bounds it is clear. */
    function At(x: int, y: int): Rgba
      reads pixels
    {
      if 0 <= x - minX < pixels.Length1 && 0 <= y - minY < pixels.Length0 then pixels[y - minY, x - minX] else CLEAR
    }
  }

  /** The colour of the source at the point that the point (x, y) of a target of this size falls on. */
  ghost predicate Shows(c: Rgba, x: nat, y: nat, size: Size, src: Image)
    reads src.pixels
  {
    exists sy, sx :: FallsOn(y, sy, src.pixels.Length0, size.h) && FallsOn(x, sx, src.pixels.Length1, size.w)
                     && c == src.pixels[sy, sx]
  }

  ghost predicate Sampled(dst: Image, src: Image)
    reads dst.pixels, src.pixels
  {
    forall y, x :: 0 <= y < dst.pixels.Length0 && 0 <= x < dst.pixels.Length1 ==>
      Shows(dst.pixels[y, x], x, y, dst.Measure(), src)
  }

  lemma SampleShows(x: nat, y: nat, size: Size, src: Image)
    requires 0 <= x < size.w && 0 <= y < size.h && src.pixels.Length0 > 0 && src.pixels.Length1 > 0
    ensures var sy, sx := Sample(y, src.pixels.Length0, size.h), Sample(x, src.pixels.Length1, size.w);
            && 0 <= sy < src.pixels.Length0 && 0 <= sx < src.pixels.Length1 && Shows(src.pixels[sy, sx], x, y, size, src)
  {
    hide Sample;
    var sy, sx := Sample(y, src.pixels.Length0, size.h), Sample(x, src.pixels.Length1, size.w);
    SampleFacts(y, sy, src.pixels.Length0, size.h);
    SampleFacts(x, sx, src.pixels.Length1, size.w);
    assert FallsOn(y, sy, src.pixels.Length0, size.h) && FallsOn(x, sx, src.pixels.Length1, size.w);
  }

  method ResizeNearest(src: Image, width: nat, height: nat) returns (dst: Image)
    ensures fresh(dst) && fresh(dst.pixels) && dst.minX == 0 && dst.minY == 0 && dst.Measure() == Size(width, height)
    ensures if src.Measure().w > 0 && src.Measure().h > 0 then Sampled(dst, src)
            else forall x, y :: 0 <= x < width && 0 <= y < height ==> dst.pixels[y, x] == CLEAR
  {
    hide Sample, Shows;
    var out := new Rgba[height, width]((y, x) => CLEAR);
    dst := new Image(0, 0, out);
    var srcW, srcH := src.pixels.Length1, src.pixels.Length0;
    if srcW == 0 || srcH == 0 { return; }
    forall i | 0 <= i < height ensures 0 <= Sample(i, srcH, height) < srcH { SampleInside(i, srcH, height); }
    forall i | 0 <= i < width ensures 0 <= Sample(i, srcW, width) < srcW { SampleInside(i, srcW, width); }
    for y := 0 to height
      invariant forall i, j :: 0 <= i < y && 0 <= j < width ==>
                  out[i, j] == src.pixels[Sample(i, srcH, height), Sample(j, srcW, width)]
    {
      var sy := src.minY + Sample(y, srcH, height);
      for x := 0 to width
        invariant forall i, j :: 0 <= i < y && 0 <= j < width ==>
                    out[i, j] == src.pixels[Sample(i, srcH, height), Sample(j, srcW, width)]
        invariant forall j :: 0 <= j < x ==> out[y, j] == src.pixels[Sample(y, srcH, height), Sample(j, srcW, width)]
      {
        var sx := src.minX + Sample(x, srcW, width);
        out[y, x] := src.At(sx, sy);
      }
    }
    forall y, x | 0 <= y < height && 0 <= x < width ensures Shows(out[y, x], x, y, dst.Measure(), src) {
      SampleShows(x, y, Size(width, height), src);
    }
  }

  /** The image itself when it fits; otherwise an image of the scaled size, sampled from it. */
  method ResizeToMax(src: Image, max: int) returns (img: Image, orig: Size, size: Size)
    ensures orig == src.Measure() && size == ScaledSize(Binary64, orig, max) && img.Measure() == size
    ensures img == src <==> max <= 0 || (orig.w <= max && orig.h <= max)
    ensures !Fits(orig, max) && orig.w > 0 && orig.h > 0 ==> fresh(img) && Sampled(img, src)
    ensures !Fits(orig, max) && orig.w > 0 && orig.h > 0 && orig.w * max < TWO_53 && orig.h * max < TWO_53 ==>
              && 1 <= size.w <= orig.w && 1 <= size.h <= orig.h && size.w <= max && size.h <= max
              && (orig.w >= orig.h ==> size.w == max && size.h == AtLeastOne(orig.h * max / orig.w))
              && (orig.w < orig.h ==> size.h == max && size.w == AtLeastOne(orig.w * max / orig.h))
  {
    hide Sample, Scaled, Rounding, Sampled;
    var origW, origH := src.pixels.Length1, src.pixels.Length0;
    orig := Size(origW, origH);
    if max <= 0 || (origW <= max && origH <= max) {
      return src, orig, orig;
    }
    var newW, newH: int;
    if origW >= origH {
      newW, newH := max, Scaled(Binary64, origH, max, origW);
    } else {
      newH, newW := max, Scaled(Binary64, origW, max, origH);
    }
    if newW <= 0 { newW := 1; }
    if newH <= 0 { newH := 1; }
    size := Size(newW, newH);
    if origW > 0 && origH > 0 && origW * max < TWO_53 && origH * max < TWO_53 {
      Binary64IsRounding();
      ScaledSizeFits(Binary64, orig, max);
    }
    img := ResizeNearest(src, newW, newH);
  }
}
