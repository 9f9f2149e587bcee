/** The parabolic magnification of KSmoothDock: the size of an icon as a
    function of its distance to the pointer, and the extra panel length the
    magnification needs (DockPanel::parabolic and the `delta` of
    DockPanel::initLayoutVars). */
module Zoom {
  import opened Arith

  /** `int(2.5 * (minSize + itemSpacing))`, written in integers; the two agree
      for non-negative sizes. Distances at or beyond it do not magnify. */
  function ParabolicMaxX(minSize: int, itemSpacing: int): (r: int)
    requires minSize > 0 && itemSpacing >= 0
    ensures 2 * r <= 5 * (minSize + itemSpacing) < 2 * r + 2
    ensures r >= 2 * (minSize + itemSpacing)
  {
    (5 * (minSize + itemSpacing)) / 2
  }

  /** The icon size at distance `x` from the pointer: `maxSize` under the
      pointer, falling along a parabola to `minSize` at `maxX`. */
  function Parabolic(x: int, minSize: int, maxSize: int, maxX: int): (r: int)
    requires maxX > 0
    ensures x == 0 ==> r == maxSize
    ensures x >= maxX ==> r == minSize
    ensures 0 <= x && minSize <= maxSize ==> minSize <= r <= maxSize
  {
    if x > maxX then minSize
    else
      ParabolaBounds(x, minSize, maxSize, maxX);
      TruncatedDrop(x, maxSize - minSize, maxX);
      // `x * x` is never negative, so the truncated quotient takes the sign
      // of `maxSize - minSize`.
      maxSize -
        (if maxSize >= minSize then x * x * (maxSize - minSize) / (maxX * maxX)
         else -(x * x * (minSize - maxSize) / (maxX * maxX)))
  }

  /** The split on the sign of `d` computes C++'s truncating quotient. */
  lemma {:induction false} TruncatedDrop(x: int, d: int, maxX: int)
    requires maxX > 0
    ensures CDiv(x * x * d, maxX * maxX) ==
      if d >= 0 then x * x * d / (maxX * maxX) else -(x * x * -d / (maxX * maxX))
  {
    assert maxX * maxX > 0 by { MulLeft(1, maxX, maxX); }
    assert x * x >= 0 by {
      if x >= 0 { MulLeft(0, x, x); } else { MulLeft(0, -x, -x); assert x * x == (-x) * (-x); }
    }
    if d >= 0 {
      MulLeft(0, d, x * x);
      assert x * x * d >= 0;
    } else {
      MulLeft(0, -d, x * x);
      assert x * x * -d >= 0;
      assert x * x * d == -(x * x * -d);
    }
  }

  /** The parabola's drop below `maxSize` at distance `x <= maxX`. */
  lemma {:induction false} ParabolaBounds(x: int, minSize: int, maxSize: int, maxX: int)
    requires maxX > 0
    ensures x == maxX ==> CDiv(x * x * (maxSize - minSize), maxX * maxX) == maxSize - minSize
    ensures 0 <= x <= maxX && minSize <= maxSize ==>
      0 <= CDiv(x * x * (maxSize - minSize), maxX * maxX) <= maxSize - minSize
  {
    var d := maxSize - minSize;
    var pp := maxX * maxX;
    assert pp > 0 by { MulLeft(1, maxX, maxX); }
    if x == maxX {
      assert x * x * d == d * pp;
      if d >= 0 {
        MulDivCancel(d, pp);
      } else {
        assert -(x * x * d) == (-d) * pp;
        MulDivCancel(-d, pp);
      }
    }
    if 0 <= x <= maxX && d >= 0 {
      MulLeft(x, maxX, x);
      MulLeft(x, maxX, maxX);
      assert x * x <= pp;
      MulLeft(0, x * x, d);
      MulLeft(x * x, pp, d);
      DivMonotone(x * x * d, pp * d, pp);
      assert pp * d == d * pp;
      MulDivCancel(d, pp);
      assert 0 / pp == 0;
      DivMonotone(0, x * x * d, pp);
    }
  }

  /** Moving away from the pointer never makes an icon bigger. */
  lemma {:induction false} ParabolicNonIncreasing(x: int, y: int, minSize: int, maxSize: int, maxX: int)
    requires maxX > 0 && 0 <= x <= y && minSize <= maxSize
    ensures Parabolic(y, minSize, maxSize, maxX) <= Parabolic(x, minSize, maxSize, maxX)
  {
    if y <= maxX {
      var d := maxSize - minSize;
      MulLeft(x, y, x);
      MulLeft(x, y, y);
      MulLeft(x * x, y * y, d);
      MulLeft(0, x * x, d);
      assert maxX * maxX > 0 by { MulLeft(1, maxX, maxX); }
      DivMonotone(x * x * d, y * y * d, maxX * maxX);
    }
  }

  /** How much longer than its idle length the panel gets when fully
      magnified: the magnified sizes of at most five neighbouring items
      (the one under the pointer and two on each side, sampled one item
      pitch `distance` apart) minus their idle sizes. */
  function ZoomDelta(count: int, minSize: int, maxSize: int, maxX: int, distance: int): (r: int)
    requires maxX > 0 && distance >= 0 && minSize <= maxSize
    ensures 0 <= r <= Max(0, Min(count, 5)) * (maxSize - minSize)
  {
    var p0 := Parabolic(0, minSize, maxSize, maxX);
    var p1 := Parabolic(distance, minSize, maxSize, maxX);
    var p2 := Parabolic(2 * distance, minSize, maxSize, maxX);
    if count >= 5 then p0 + 2 * p1 + 2 * p2 - 5 * minSize
    else if count == 4 then p0 + 2 * p1 + p2 - 4 * minSize
    else if count == 3 then p0 + 2 * p1 - 3 * minSize
    else if count == 2 then p0 + p1 - 2 * minSize
    else if count == 1 then p0 - minSize
    else 0
  }
}
