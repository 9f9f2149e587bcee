/** The zoom animation: after `k` of `n` ticks a quantity that runs from
    `a` to `b` stands at `a + (b - a) * k / n`, with C++'s truncating
    division. This holds for the panel background and for the geometry of
    every item, between the start and end snapshots the layout passes
    record in the items. */
module Animation {
  import opened Arith
  import opened Icons
  import opened Items

  /** The value after tick `k` of `n`. */
  function Interpolate(a: int, b: int, k: int, n: int): (r: int)
    requires n > 0
    ensures 0 <= k <= n ==> Min(a, b) <= r <= Max(a, b)
    ensures k == n ==> r == b
    ensures k == 0 ==> r == a
  {
    InterpolateBounds(a, b, k, n);
    a + CDiv((b - a) * k, n)
  }

  /** The truncated share `(b - a) * k / n` of the span lies between 0 and
      the span, and is the whole span at `k == n`. */
  lemma {:induction false} InterpolateBounds(a: int, b: int, k: int, n: int)
    requires n > 0
    ensures 0 <= k <= n ==> Min(0, b - a) <= CDiv((b - a) * k, n) <= Max(0, b - a)
    ensures k == n ==> CDiv((b - a) * k, n) == b - a
    ensures k == 0 ==> CDiv((b - a) * k, n) == 0
  {
    var d := b - a;
    if d >= 0 {
      if 0 <= k <= n {
        ScaledBetween(d, k, n);
        MulLeft(0, k, d);
        assert 0 <= d * k;
      }
      if k == n {
        MulDivCancel(d, n);
      }
    } else {
      assert d * k == -((-d) * k);
      if 0 <= k <= n {
        ScaledBetween(-d, k, n);
        MulLeft(0, k, -d);
        assert 0 <= (-d) * k;
      }
      if k == n {
        MulDivCancel(-d, n);
      }
    }
  }

  /** Every tick moves the value toward `b` and never past it: the
      animation converges without overshooting. */
  lemma {:induction false} InterpolateMonotone(a: int, b: int, k: int, n: int)
    requires n > 0 && 0 <= k < n
    ensures a <= b ==> Interpolate(a, b, k, n) <= Interpolate(a, b, k + 1, n) <= b
    ensures b <= a ==> b <= Interpolate(a, b, k + 1, n) <= Interpolate(a, b, k, n)
  {
    var d := b - a;
    if d >= 0 {
      MulLeft(k, k + 1, d);
      assert k * d <= (k + 1) * d;
      MulLeft(0, k, d);
      DivMonotone(d * k, d * (k + 1), n);
    } else {
      MulLeft(k, k + 1, -d);
      assert k * (-d) <= (k + 1) * (-d);
      MulLeft(0, k, -d);
      assert d * k == -((-d) * k);
      assert d * (k + 1) == -((-d) * (k + 1));
      DivMonotone((-d) * k, (-d) * (k + 1), n);
    }
  }

  /** A geometry moved by `dx` across and `dy` down the screen. */
  function Shifted(g: Geometry, dx: int, dy: int): (h: Geometry)
    ensures h.size == g.size && h.left - g.left == dx && h.top - g.top == dy
  {
    Geometry(g.size, g.left + dx, g.top + dy)
  }

  /** The geometry after tick `k` of `n`: size and position each
      interpolated on their own. */
  function Between(a: Geometry, b: Geometry, k: int, n: int): (g: Geometry)
    requires n > 0
    ensures k == 0 ==> g == a
    ensures k == n ==> g == b
    ensures 0 <= k <= n ==> Min(a.size, b.size) <= g.size <= Max(a.size, b.size)
    ensures 0 <= k <= n ==> Min(a.left, b.left) <= g.left <= Max(a.left, b.left)
    ensures 0 <= k <= n ==> Min(a.top, b.top) <= g.top <= Max(a.top, b.top)
  {
    Geometry(Interpolate(a.size, b.size, k, n), Interpolate(a.left, b.left, k, n), Interpolate(a.top, b.top, k, n))
  }

  /** Every item's start snapshot set to its current geometry moved by
      `(dx, dy)` (`setAnimationStartAsCurrent` for a zero move). */
  function StartsAt(items: seq<Item>, dx: int, dy: int): (r: seq<Item>)
    ensures |r| == |items|
    ensures forall i {:trigger r[i]} :: 0 <= i < |items| ==>
      r[i] == items[i].(start := Shifted(items[i].geom, dx, dy))
  {
    seq(|items|, i requires 0 <= i < |items| => items[i].(start := Shifted(items[i].geom, dx, dy)))
  }

  /** Every item's end snapshot set to its current geometry moved by
      `(dx, dy)` (`setAnimationEndAsCurrent` for a zero move). */
  function EndsAt(items: seq<Item>, dx: int, dy: int): (r: seq<Item>)
    ensures |r| == |items|
    ensures forall i {:trigger r[i]} :: 0 <= i < |items| ==>
      r[i] == items[i].(end := Shifted(items[i].geom, dx, dy))
  {
    seq(|items|, i requires 0 <= i < |items| => items[i].(end := Shifted(items[i].geom, dx, dy)))
  }

  /** Every item at tick `k` of `n` between its snapshots. */
  function Stepped(items: seq<Item>, k: int, n: int): (r: seq<Item>)
    requires n > 0
    ensures |r| == |items|
    ensures forall i {:trigger r[i]} :: 0 <= i < |items| ==>
      r[i] == items[i].(geom := Between(items[i].start, items[i].end, k, n))
  {
    seq(|items|, i requires 0 <= i < |items| => items[i].(geom := Between(items[i].start, items[i].end, k, n)))
  }

  /** Snapshots and ticks leave the pixmap tables alone. */
  lemma SnapshotsKeepTables(items: seq<Item>, dx: int, dy: int, k: int, n: int, minSize: int, maxSize: int)
    requires n > 0 && ItemsFit(items, minSize, maxSize)
    ensures ItemsFit(StartsAt(items, dx, dy), minSize, maxSize)
    ensures ItemsFit(EndsAt(items, dx, dy), minSize, maxSize)
    ensures ItemsFit(Stepped(items, k, n), minSize, maxSize)
  {
    var a, b, c := StartsAt(items, dx, dy), EndsAt(items, dx, dy), Stepped(items, k, n);
    forall i | 0 <= i < |items|
      ensures TableFits(a[i].icons, minSize, maxSize) && TableFits(b[i].icons, minSize, maxSize)
      ensures TableFits(c[i].icons, minSize, maxSize)
    {
      assert a[i].icons == b[i].icons == c[i].icons == items[i].icons;
    }
  }

  /** After the last tick every item stands exactly at its end snapshot,
      and a tick never leaves the box spanned by the two snapshots. */
  lemma SteppedConverges(items: seq<Item>, k: int, n: int)
    requires n > 0 && 0 <= k <= n
    ensures forall i :: 0 <= i < |items| ==> Stepped(items, n, n)[i].geom == items[i].end
    ensures forall i :: 0 <= i < |items| ==>
      var g, a, b := Stepped(items, k, n)[i].geom, items[i].start, items[i].end;
      Min(a.left, b.left) <= g.left <= Max(a.left, b.left) && Min(a.top, b.top) <= g.top <= Max(a.top, b.top)
  {
  }

  /** The start-snapshot loop of a layout pass. */
  method SetStarts(items: seq<Item>, dx: int, dy: int) returns (r: seq<Item>)
    ensures r == StartsAt(items, dx, dy)
  {
    r := items;
    var i := 0;
    while i < |r|
      invariant 0 <= i <= |r| == |items|
      invariant forall j :: 0 <= j < i ==> r[j] == items[j].(start := Shifted(items[j].geom, dx, dy))
      invariant forall j :: i <= j < |r| ==> r[j] == items[j]
    {
      r := r[i := r[i].(start := Geometry(r[i].geom.size, r[i].geom.left + dx, r[i].geom.top + dy))];
      i := i + 1;
    }
  }

  /** The end-snapshot loop of a layout pass. */
  method SetEnds(items: seq<Item>, dx: int, dy: int) returns (r: seq<Item>)
    ensures r == EndsAt(items, dx, dy)
  {
    r := items;
    var i := 0;
    while i < |r|
      invariant 0 <= i <= |r| == |items|
      invariant forall j :: 0 <= j < i ==> r[j] == items[j].(end := Shifted(items[j].geom, dx, dy))
      invariant forall j :: i <= j < |r| ==> r[j] == items[j]
    {
      r := r[i := r[i].(end := Geometry(r[i].geom.size, r[i].geom.left + dx, r[i].geom.top + dy))];
      i := i + 1;
    }
  }

  /** The item loop of one animation tick: every item moves to tick `k`. */
  method StepAll(items: seq<Item>, k: int, n: int) returns (r: seq<Item>)
    requires n > 0
    ensures r == Stepped(items, k, n)
  {
    r := items;
    var i := 0;
    while i < |r|
      invariant 0 <= i <= |r| == |items|
      invariant forall j :: 0 <= j < i ==> r[j] == items[j].(geom := Between(items[j].start, items[j].end, k, n))
      invariant forall j :: i <= j < |r| ==> r[j] == items[j]
    {
      var a, b := r[i].start, r[i].end;
      r := r[i := r[i].(geom := Geometry(a.size + CDiv((b.size - a.size) * k, n),
                                         a.left + CDiv((b.left - a.left) * k, n),
                                         a.top + CDiv((b.top - a.top) * k, n)))];
      i := i + 1;
    }
  }
}
