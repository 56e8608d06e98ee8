// Angle normalisation (astro/Util.cpp, wrap).
module Util {

  /** How many whole widths lie between start and value (floor(offset / width)). */
  function Turns(value: real, start: real, end: real): int
    requires start != end
  {
    ((value - start) / (end - start)).Floor
  }

  /** wrap(value, start, end): value shifted by whole widths into the range from start to end. */
  function Wrap(value: real, start: real, end: real): (r: real)
    requires start != end
    ensures value - r == Turns(value, start, end) as real * (end - start)
  {
    var width := end - start;
    var offsetValue := value - start;
    (offsetValue - (offsetValue / width).Floor as real * width) + start
  }

  lemma MultiplyMonotone(a: real, b: real, w: real)
    requires a <= b && w > 0.0
    ensures a * w <= b * w
  {
  }

  lemma MultiplyStrict(a: real, b: real, w: real)
    requires a < b && w > 0.0
    ensures a * w < b * w
  {
  }

  lemma DivideThenMultiply(x: real, w: real)
    requires w != 0.0
    ensures (x / w) * w == x
  {
  }

  lemma AddOneWidth(k: real, w: real)
    ensures (k + 1.0) * w == k * w + w
  {
  }

  /** k <= x / w with a positive w puts x at or above k * w. */
  lemma QuotientLowerBound(x: real, w: real, k: real)
    requires w > 0.0
    requires k <= x / w
    ensures k * w <= x
  {
    DivideThenMultiply(x, w);
    MultiplyMonotone(k, x / w, w);
  }

  /** x / w < k + 1 with a positive w puts x below k * w + w. */
  lemma QuotientUpperBound(x: real, w: real, k: real)
    requires w > 0.0
    requires x / w < k + 1.0
    ensures x < k * w + w
  {
    DivideThenMultiply(x, w);
    MultiplyStrict(x / w, k + 1.0, w);
    AddOneWidth(k, w);
  }

  /** For start < end the result lies in [start, end). */
  lemma WrapInRange(value: real, start: real, end: real)
    requires start < end
    ensures start <= Wrap(value, start, end) < end
  {
    var x := value - start;
    var w := end - start;
    QuotientLowerBound(x, w, (x / w).Floor as real);
    QuotientUpperBound(x, w, (x / w).Floor as real);
  }

  /** A value already in [start, end) is returned unchanged. */
  lemma WrapIdentityInRange(value: real, start: real, end: real)
    requires start < end
    requires start <= value < end
    ensures Wrap(value, start, end) == value
  {
    var w := end - start;
    var off := value - start;
    DivideBelowOne(off, w);
    assert (off / w).Floor == 0;
  }

  lemma DivideBelowOne(x: real, w: real)
    requires 0.0 <= x < w
    ensures 0.0 <= x / w < 1.0
  {
    DivideThenMultiply(x, w);
    if x / w >= 1.0 {
      MultiplyMonotone(1.0, x / w, w);
    }
  }

  /** The start of the range is its own representative. */
  lemma WrapOfStart(start: real, end: real)
    requires start != end
    ensures Wrap(start, start, end) == start
  {
    assert (start - start) / (end - start) == 0.0;
  }

  /** Adding any whole number of widths to the value does not change the result. */
  lemma WrapPeriodic(value: real, start: real, end: real, n: int)
    requires start != end
    ensures Wrap(value + n as real * (end - start), start, end) == Wrap(value, start, end)
  {
    var w := end - start;
    var c := n as real;
    var shifted := value + c * w;
    TurnsShift(value, start, end, n);
    var k := Turns(value, start, end);
    assert (k + n) as real == k as real + c;
    AddWidths(k as real, c, w);
  }

  /** Shifting the value by n widths shifts the turn count by n. */
  lemma TurnsShift(value: real, start: real, end: real, n: int)
    requires start != end
    ensures Turns(value + n as real * (end - start), start, end) == Turns(value, start, end) + n
  {
    DivideShift(value - start, end - start, n as real);
    assert (value + n as real * (end - start) - start) / (end - start)
        == (value - start) / (end - start) + n as real;
    FloorShift((value - start) / (end - start), n);
  }

  lemma AddWidths(k: real, c: real, w: real)
    ensures (k + c) * w == k * w + c * w
  {
  }

  lemma DivideShift(x: real, w: real, c: real)
    requires w != 0.0
    ensures (x + c * w) / w == x / w + c
  {
  }

  lemma FloorShift(q: real, n: int)
    ensures (q + n as real).Floor == q.Floor + n
  {
  }

  /** Wrapping twice is the same as wrapping once. */
  lemma WrapIdempotent(value: real, start: real, end: real)
    requires start < end
    ensures Wrap(Wrap(value, start, end), start, end) == Wrap(value, start, end)
  {
    WrapInRange(value, start, end);
    WrapIdentityInRange(Wrap(value, start, end), start, end);
  }
}
