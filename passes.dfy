/** The loops of the dock panel's layout passes, each proved to compute the
    layout function it implements, and the read-only item search. The panel
    runs them on its item list and stores the result. */
module Passes {
  import opened Arith
  import opened Zoom
  import opened Icons
  import opened Items
  import opened Layout

  /** The running total of `initLayoutVars`: every item's minimized extent
      plus one spacing each. */
  method MinLength(m: Metrics, items: seq<Item>) returns (len: int)
    requires ItemsFit(items, m.minSize, m.maxSize)
    ensures len == Length(MinExtents(m, items), m.spacing)
  {
    ghost var exts := MinExtents(m, items);
    len := 0;
    var i := 0;
    while i < |items|
      invariant 0 <= i <= |items|
      invariant len == Length(exts[..i], m.spacing)
    {
      assert exts[..i + 1][..i] == exts[..i];
      len := len + (MinExtent(m, items[i]) + m.spacing);
      i := i + 1;
    }
    assert exts[..i] == exts;
  }

  /** The item loop of `updateLayout()`. */
  method MinimizedPass(m: Metrics, items: seq<Item>) returns (r: seq<Item>)
    requires ItemsFit(items, m.minSize, m.maxSize)
    ensures r == Minimized(m, items)
  {
    ghost var exts := MinExtents(m, items);
    ghost var target := Minimized(m, items);
    var s := m.spacing;
    r := items;
    var i := 0;
    while i < |r|
      invariant 0 <= i <= |r| == |items|
      invariant forall j :: 0 <= j < i ==> r[j] == target[j]
      invariant forall j :: i <= j < |r| ==> r[j] == items[j]
    {
      var main;
      if i == 0 {
        main := s / 2;
      } else {
        assert MinExtent(m, r[i - 1]) == exts[i - 1];
        main := Main(m.orientation, r[i - 1].geom) + MinExtent(m, r[i - 1]) + s;
      }
      r := r[i := MinimizedItem(m, r[i], main)];
      i := i + 1;
    }
  }

  /** What the zoomed sizing loop holds after handling the items in
      `[k, i)`: the items, and the first and the last magnified index. */
  datatype ForwardState = ForwardState(items: seq<Item>, first: int, last: int)

  /** Item `j` as the zoomed sizing loop sets it, from the items `rr` as
      the loop holds them: sized by its distance to the pointer and started
      at `base` when it is the first one handled, else one spacing after the
      end of the item before it. */
  ghost function ZoomScanItem(m: Metrics, rr: seq<Item>, p: int, shift: int, k: int, base: int, j: int): Item
    requires m.Valid() && ItemsFit(rr, m.minSize, m.maxSize) && 0 <= k <= j < |rr|
  {
    var size := Parabolic(Abs(rr[j].minCenter - p + shift), m.minSize, m.maxSize, m.maxX);
    var start := if j == k then base
      else Main(m.orientation, rr[j - 1].geom) + ExtentAt(m, rr[j - 1], rr[j - 1].geom.size) + m.spacing;
    ZoomedItem(m, rr[j], size, start)
  }

  /** The zoomed sizing loop, one item at a time. */
  ghost function ZoomScan(m: Metrics, items: seq<Item>, p: int, shift: int, k: int, base: int, i: int)
    : (st: ForwardState)
    requires m.Valid() && ItemsFit(items, m.minSize, m.maxSize) && 0 <= k <= i <= |items|
    ensures |st.items| == |items| && ItemsFit(st.items, m.minSize, m.maxSize)
    decreases i
  {
    if i == k then ForwardState(items, -1, 0)
    else
      var prev := ZoomScan(m, items, p, shift, k, base, i - 1);
      var d := Abs(prev.items[i - 1].minCenter - p + shift);
      ForwardState(prev.items[i - 1 := ZoomScanItem(m, prev.items, p, shift, k, base, i - 1)],
                   if prev.first == -1 && d < m.maxX then i - 1 else prev.first,
                   if d < m.maxX then i - 1 else prev.last)
  }

  /** The step of the loop for item `h` sets that item and no other. */
  lemma ZoomScanNext(m: Metrics, items: seq<Item>, p: int, shift: int, k: int, base: int, h: int)
    requires m.Valid() && ItemsFit(items, m.minSize, m.maxSize) && 0 <= k <= h < |items|
    ensures var prev := ZoomScan(m, items, p, shift, k, base, h).items;
      ZoomScan(m, items, p, shift, k, base, h + 1).items == prev[h := ZoomScanItem(m, prev, p, shift, k, base, h)]
  {
  }

  /** One step of the zoomed sizing loop, for the distance, size and start
      the loop computes for item `i`. */
  lemma ZoomScanStep(m: Metrics, items: seq<Item>, p: int, shift: int, k: int, base: int, i: int,
                     d: int, size: int, start: int)
    requires m.Valid() && ItemsFit(items, m.minSize, m.maxSize) && 0 <= k <= i < |items|
    requires var rr := ZoomScan(m, items, p, shift, k, base, i).items;
      d == Abs(rr[i].minCenter - p + shift) && size == Parabolic(d, m.minSize, m.maxSize, m.maxX) &&
      start == if i == k then base
               else Main(m.orientation, rr[i - 1].geom) + ExtentAt(m, rr[i - 1], rr[i - 1].geom.size) + m.spacing
    ensures var prev := ZoomScan(m, items, p, shift, k, base, i);
      var next := ZoomScan(m, items, p, shift, k, base, i + 1);
      next.items == prev.items[i := ZoomedItem(m, prev.items[i], size, start)] &&
      next.first == (if prev.first == -1 && d < m.maxX then i else prev.first) &&
      next.last == (if d < m.maxX then i else prev.last)
  {
  }

  /** The step of the loop sets item `j` to its place in the forward
      packing, once the item before it is there and item `j` is untouched. */
  lemma ZoomScanItemAt(m: Metrics, items: seq<Item>, p: int, shift: int, k: int, base: int,
                       rr: seq<Item>, g: int, j: int)
    requires m.Valid() && ItemsFit(items, m.minSize, m.maxSize) && ItemsFit(rr, m.minSize, m.maxSize)
    requires 0 <= k <= j < |items| == |rr| && rr[j] == items[j] && g == j - 1
    requires j > k ==> rr[g] == ForwardAt(m, items, ZoomSizes(m, Distances(items, p, shift)), k, base, g)
    ensures ZoomScanItem(m, rr, p, shift, k, base, j) ==
      ForwardAt(m, items, ZoomSizes(m, Distances(items, p, shift)), k, base, j)
  {
    ZoomedStep(m, items, p, shift, k, base, j);
  }

  /** After the items in `[k, i)` are handled, each of them is zoomed and
      packed forward from `base`, and every other item is untouched. */
  lemma {:induction false} ZoomScanAt(m: Metrics, items: seq<Item>, p: int, shift: int, k: int, base: int,
                                      i: int, j: int)
    requires m.Valid() && ItemsFit(items, m.minSize, m.maxSize) && 0 <= k <= i <= |items|
    requires 0 <= j < |items|
    ensures var r := ZoomScan(m, items, p, shift, k, base, i).items;
      if k <= j < i then r[j] == ForwardAt(m, items, ZoomSizes(m, Distances(items, p, shift)), k, base, j)
      else r[j] == items[j]
    decreases i
  {
    if i > k {
      var h := i - 1;
      ZoomScanNext(m, items, p, shift, k, base, h);
      ZoomScanAt(m, items, p, shift, k, base, h, j);
      if j == h {
        var rr := ZoomScan(m, items, p, shift, k, base, h).items;
        var g := h - 1;
        if h > k {
          ZoomScanAt(m, items, p, shift, k, base, h, g);
        }
        ZoomScanItemAt(m, items, p, shift, k, base, rr, g, h);
      }
    }
  }

  /** The step of the loop for item `i` counts it as magnified when its
      distance to the pointer is below `maxX`. */
  lemma ZoomScanCounts(m: Metrics, items: seq<Item>, p: int, shift: int, k: int, base: int, i: int)
    requires m.Valid() && ItemsFit(items, m.minSize, m.maxSize) && 0 <= k <= i < |items|
    ensures var prev := ZoomScan(m, items, p, shift, k, base, i);
      var next := ZoomScan(m, items, p, shift, k, base, i + 1);
      var d := Distances(items, p, shift)[i];
      next.first == (if prev.first == -1 && d < m.maxX then i else prev.first) &&
      next.last == (if d < m.maxX then i else prev.last)
  {
    ZoomScanAt(m, items, p, shift, k, base, i, i);
  }

  /** The loop's first magnified index is `FirstAffected`. */
  lemma {:induction false} ZoomScanFirst(m: Metrics, items: seq<Item>, p: int, shift: int, base: int, i: int)
    requires m.Valid() && ItemsFit(items, m.minSize, m.maxSize) && 0 <= i <= |items|
    ensures ZoomScan(m, items, p, shift, 0, base, i).first == FirstAffected(Distances(items, p, shift), m.maxX, i)
    decreases i
  {
    if i > 0 {
      var j := i - 1;
      ZoomScanFirst(m, items, p, shift, base, j);
      ZoomScanCounts(m, items, p, shift, 0, base, j);
      FirstAffectedStep(Distances(items, p, shift), m.maxX, j);
    }
  }

  /** The loop's last magnified index is that of `LastAffected`, or 0. */
  lemma {:induction false} ZoomScanLast(m: Metrics, items: seq<Item>, p: int, shift: int, k: int, base: int,
                                        i: int)
    requires m.Valid() && ItemsFit(items, m.minSize, m.maxSize) && 0 <= k <= i <= |items|
    ensures ZoomScan(m, items, p, shift, k, base, i).last ==
      Max(0, LastAffected(Distances(items, p, shift), m.maxX, k, i))
    decreases i
  {
    if i > k {
      var j := i - 1;
      ZoomScanLast(m, items, p, shift, k, base, j);
      ZoomScanCounts(m, items, p, shift, k, base, j);
      LastAffectedStep(Distances(items, p, shift), m.maxX, k, j);
    }
  }

  /** The items after a forward sizing loop from `k`: those before `k`
      untouched, the others zoomed to `sizes` and packed forward from
      `base`. */
  function Forwarded(m: Metrics, items: seq<Item>, sizes: seq<int>, k: int, base: int): (r: seq<Item>)
    requires ItemsFit(items, m.minSize, m.maxSize) && |sizes| == |items| && 0 <= k <= |items|
    ensures SameTables(items, r) && ItemsFit(r, m.minSize, m.maxSize)
    ensures forall j {:trigger r[j]} :: 0 <= j < |items| ==>
      r[j] == if j < k then items[j] else ForwardAt(m, items, sizes, k, base, j)
  {
    seq(|items|, j requires 0 <= j < |items| =>
      if j < k then items[j] else ForwardAt(m, items, sizes, k, base, j))
  }

  /** A sizing loop run to the end leaves the items `Forwarded`. */
  lemma ZoomScanForwarded(m: Metrics, items: seq<Item>, p: int, shift: int, k: int, base: int, n: int)
    requires m.Valid() && ItemsFit(items, m.minSize, m.maxSize) && 0 <= k <= n && n == |items|
    ensures ZoomScan(m, items, p, shift, k, base, n).items ==
      Forwarded(m, items, ZoomSizes(m, Distances(items, p, shift)), k, base)
  {
    var r := ZoomScan(m, items, p, shift, k, base, n).items;
    var target := Forwarded(m, items, ZoomSizes(m, Distances(items, p, shift)), k, base);
    forall j | 0 <= j < n
      ensures r[j] == target[j]
    {
      ZoomScanAt(m, items, p, shift, k, base, n, j);
    }
  }

  /** The sizing loop of `updateLayout(x, y)`: every item sized by its
      distance to the pointer, set flush across the panel and packed forward
      from `spacing/2`; it also finds the first and last magnified items. */
  method ZoomForward(m: Metrics, items: seq<Item>, p: int, shift: int)
    returns (r: seq<Item>, first: int, last: int)
    requires m.Valid() && ItemsFit(items, m.minSize, m.maxSize)
    ensures var ds := Distances(items, p, shift);
      first == FirstAffected(ds, m.maxX, |items|) && last == LastUpdateIndex(ds, m.maxX, 0)
    ensures r == Forwarded(m, items, ZoomSizes(m, Distances(items, p, shift)), 0, m.spacing / 2)
  {
    r := items;
    first := -1;
    last := 0;
    var i := 0;
    while i < |r|
      invariant 0 <= i <= |items|
      invariant ForwardState(r, first, last) == ZoomScan(m, items, p, shift, 0, m.spacing / 2, i)
    {
      var d := Abs(r[i].minCenter - p + shift);
      if d < m.maxX {
        if first == -1 {
          first := i;
        }
        last := i;
      }
      var size := Parabolic(d, m.minSize, m.maxSize, m.maxX);
      // The first item's start is `spacing/2`, set before the loop.
      var start;
      if i == 0 {
        start := m.spacing / 2;
      } else {
        start := Main(m.orientation, r[i - 1].geom) + ExtentAt(m, r[i - 1], r[i - 1].geom.size) + m.spacing;
      }
      ZoomScanStep(m, items, p, shift, 0, m.spacing / 2, i, d, size, start);
      r := r[i := ZoomedItem(m, r[i], size, start)];
      i := i + 1;
    }
    assert i == |items|;
    ZoomScanFirst(m, items, p, shift, m.spacing / 2, i);
    ZoomScanLast(m, items, p, shift, 0, m.spacing / 2, i);
    ZoomScanForwarded(m, items, p, shift, 0, m.spacing / 2, i);
  }

  /** The sizing loop of `resizeTaskManager`: the items from `keep` on are
      sized by their distance to the pointer, set flush across the panel and
      packed forward from `base`; it also finds the last magnified one. */
  method ResizeForward(m: Metrics, items: seq<Item>, keep: int, base: int, p: int, shift: int)
    returns (r: seq<Item>, last: int)
    requires m.Valid() && ItemsFit(items, m.minSize, m.maxSize) && 0 <= keep < |items|
    ensures last == LastUpdateIndex(Distances(items, p, shift), m.maxX, keep)
    ensures r == Forwarded(m, items, ZoomSizes(m, Distances(items, p, shift)), keep, base)
  {
    r := items;
    last := 0;
    var i := keep;
    while i < |items|
      invariant keep <= i <= |items|
      invariant r == ZoomScan(m, items, p, shift, keep, base, i).items
      invariant last == ZoomScan(m, items, p, shift, keep, base, i).last
    {
      var d := Abs(r[i].minCenter - p + shift);
      if d < m.maxX {
        last := i;
      }
      var size := Parabolic(d, m.minSize, m.maxSize, m.maxX);
      // The first re-laid item starts where the caller computed `base`.
      var start;
      if i == keep {
        start := base;
      } else {
        start := Main(m.orientation, r[i - 1].geom) + ExtentAt(m, r[i - 1], r[i - 1].geom.size) + m.spacing;
      }
      ZoomScanStep(m, items, p, shift, keep, base, i, d, size, start);
      r := r[i := ZoomedItem(m, r[i], size, start)];
      i := i + 1;
    }
    assert i == |items|;
    ZoomScanLast(m, items, p, shift, keep, base, i);
    ZoomScanForwarded(m, items, p, shift, keep, base, i);
  }

  /** The items after the trailing loop: those from `low` on packed backward
      at their minimized extents, the last one ending at `end`; the others
      untouched. */
  function Anchored(m: Metrics, items: seq<Item>, low: int, end: int): (r: seq<Item>)
    requires ItemsFit(items, m.minSize, m.maxSize) && 0 <= low <= |items|
    ensures SameTables(items, r) && ItemsFit(r, m.minSize, m.maxSize)
    ensures forall j {:trigger r[j]} :: 0 <= j < |items| ==>
      r[j] == if j < low then items[j]
              else items[j].(geom := WithMain(m.orientation, items[j].geom,
                                              PackedBack(MinExtents(m, items), m.spacing, |items|, end, j)))
  {
    var exts := MinExtents(m, items);
    seq(|items|, j requires 0 <= j < |items| =>
      if j < low then items[j]
      else items[j].(geom := WithMain(m.orientation, items[j].geom, PackedBack(exts, m.spacing, |items|, end, j))))
  }

  /** The trailing loop: from the last item down to item `low`, each item
      is placed at its minimized extent against the next one, the last one
      ending at `end`. */
  method AnchorTrailing(m: Metrics, items: seq<Item>, low: int, end: int) returns (r: seq<Item>)
    requires ItemsFit(items, m.minSize, m.maxSize) && 0 <= low <= |items|
    ensures r == Anchored(m, items, low, end)
  {
    ghost var minExts := MinExtents(m, items);
    var n := |items|;
    var o := m.orientation;
    r := items;
    var i := n - 1;
    while i >= low
      invariant low - 1 <= i <= n - 1 && |r| == n
      invariant forall j :: 0 <= j <= i ==> r[j] == items[j]
      invariant forall j :: i < j < n ==>
        r[j] == items[j].(geom := WithMain(o, items[j].geom, PackedBack(minExts, m.spacing, n, end, j)))
    {
      var start;
      if i == n - 1 {
        start := end - MinExtent(m, r[i]);
      } else {
        start := Main(o, r[i + 1].geom) - MinExtent(m, r[i]) - m.spacing;
      }
      r := r[i := r[i].(geom := WithMain(o, r[i].geom, start))];
      i := i - 1;
    }
    ghost var target := Anchored(m, items, low, end);
    assert forall j :: 0 <= j < n ==> r[j] == target[j];
  }

  /** The items after the backfill loop: those before `hi` packed backward
      at their current extents, the last of them ending one spacing before
      item `hi` starts; the others untouched. */
  function Backpacked(m: Metrics, items: seq<Item>, hi: int): (r: seq<Item>)
    requires ItemsFit(items, m.minSize, m.maxSize) && 0 <= hi < |items|
    ensures SameTables(items, r) && ItemsFit(r, m.minSize, m.maxSize)
    ensures forall j {:trigger r[j]} :: 0 <= j < |items| ==>
      r[j] == if j >= hi then items[j]
              else items[j].(geom := WithMain(m.orientation, items[j].geom,
                               PackedBack(CurrentExtents(m, items), m.spacing, hi,
                                          Main(m.orientation, items[hi].geom) - m.spacing, j)))
  {
    var exts := CurrentExtents(m, items);
    var end := Main(m.orientation, items[hi].geom) - m.spacing;
    seq(|items|, j requires 0 <= j < |items| =>
      if j >= hi then items[j]
      else items[j].(geom := WithMain(m.orientation, items[j].geom, PackedBack(exts, m.spacing, hi, end, j))))
  }

  /** The backfill moves a zoomed item before `hi` to the place the
      backward packing gives it, keeping its size, when the items it packs
      have the extents `exts`. */
  lemma BackpackedMoved(m: Metrics, a: seq<Item>, hi: int, j: int, item: Item, size: int, pf: int,
                        exts: seq<int>, endB: int)
    requires ItemsFit(a, m.minSize, m.maxSize) && 0 <= j < hi < |a| && hi <= |exts|
    requires TableFits(item.icons, m.minSize, m.maxSize) && a[j] == ZoomedItem(m, item, size, pf)
    requires forall t {:trigger CurrentExtents(m, a)[t]} :: j <= t < hi ==> CurrentExtents(m, a)[t] == exts[t]
    requires endB == Main(m.orientation, a[hi].geom) - m.spacing
    ensures Backpacked(m, a, hi)[j] == ZoomedItem(m, item, size, PackedBack(exts, m.spacing, hi, endB, j))
  {
    PackedBackAgree(CurrentExtents(m, a), exts, m.spacing, hi, endB, j);
    ZoomedItemMoved(m, item, size, pf, PackedBack(exts, m.spacing, hi, endB, j));
  }

  /** The backfill loop, one item at a time from item `hi - 1` down to
      item `i`. */
  ghost function BackScan(m: Metrics, items: seq<Item>, hi: int, i: int): (r: seq<Item>)
    requires ItemsFit(items, m.minSize, m.maxSize) && 0 <= i <= hi < |items|
    ensures |r| == |items| && ItemsFit(r, m.minSize, m.maxSize)
    decreases hi - i
  {
    if i == hi then items
    else
      var rr := BackScan(m, items, hi, i + 1);
      var start := Main(m.orientation, rr[i + 1].geom) - ExtentAt(m, rr[i], rr[i].geom.size) - m.spacing;
      rr[i := rr[i].(geom := WithMain(m.orientation, rr[i].geom, start))]
  }

  /** After the items in `[i, hi)` are handled they are packed backward,
      and every other item is untouched. */
  lemma {:induction false} BackScanAt(m: Metrics, items: seq<Item>, hi: int, i: int, j: int)
    requires ItemsFit(items, m.minSize, m.maxSize) && 0 <= i <= hi < |items| && 0 <= j < |items|
    ensures BackScan(m, items, hi, i)[j] ==
      if i <= j < hi then Backpacked(m, items, hi)[j] else items[j]
    decreases hi - i
  {
    if i < hi {
      BackScanAt(m, items, hi, i + 1, j);
      if j == i {
        BackScanAt(m, items, hi, i + 1, i + 1);
        SameTableExtents(m, items[i], BackScan(m, items, hi, i + 1)[i], items[i].geom.size);
      }
    }
  }

  /** The backfill loop: from item `hi - 1` down to the first, each item is
      placed at its current extent one spacing before the next one. */
  method PackBackward(m: Metrics, items: seq<Item>, hi: int) returns (r: seq<Item>)
    requires ItemsFit(items, m.minSize, m.maxSize) && 0 <= hi < |items|
    ensures r == Backpacked(m, items, hi)
  {
    var o := m.orientation;
    r := items;
    var i := hi - 1;
    while i >= 0
      invariant -1 <= i <= hi - 1 && r == BackScan(m, items, hi, i + 1)
    {
      var start := Main(o, r[i + 1].geom) - ExtentAt(m, r[i], r[i].geom.size) - m.spacing;
      r := r[i := r[i].(geom := WithMain(o, r[i].geom, start))];
      i := i - 1;
    }
    ghost var target := Backpacked(m, items, hi);
    forall j | 0 <= j < |items|
      ensures r[j] == target[j]
    {
      BackScanAt(m, items, hi, 0, j);
    }
  }

  /** Past `low`, the trailing loop run after a forward packing from `k`
      moves each packed item to its anchored place. */
  lemma AnchoredForwardAt(m: Metrics, items: seq<Item>, sizes: seq<int>, k: int, base: int, low: int, end: int,
                          j: int)
    requires ItemsFit(items, m.minSize, m.maxSize) && |sizes| == |items| && 0 <= k <= low <= j < |items|
    ensures Anchored(m, Forwarded(m, items, sizes, k, base), low, end)[j] ==
      ZoomedItem(m, items[j], sizes[j], PackedBack(MinExtents(m, items), m.spacing, |items|, end, j))
  {
    var f := Forwarded(m, items, sizes, k, base);
    var pf := PackedFrom(Extents(m, items, sizes), m.spacing, k, base, j);
    SameTablesSameExtents(m, items, f);
    assert f[j] == ZoomedItem(m, items[j], sizes[j], pf);
    ZoomedItemMoved(m, items[j], sizes[j], pf, PackedBack(MinExtents(m, items), m.spacing, |items|, end, j));
  }

  /** An item after the last magnified one ends up where the zoomed layout
      puts it. */
  lemma ZoomedTrailingAt(m: Metrics, items: seq<Item>, sizes: seq<int>, first: int, last: int,
                         maxLength: int, hi: int, end: int, a: seq<Item>, j: int)
    requires ItemsFit(items, m.minSize, m.maxSize) && |sizes| == |items| && 0 <= last < j < |items|
    requires hi == last + 1 && end == maxLength - m.spacing / 2
    requires a == Anchored(m, Forwarded(m, items, sizes, 0, m.spacing / 2), hi, end)
    ensures a[j] == ZoomedAt(m, items, sizes, first, last, maxLength, j)
  {
    AnchoredForwardAt(m, items, sizes, 0, m.spacing / 2, hi, end, j);
  }

  /** Without the backfill, an item up to the last magnified one ends up
      where the zoomed layout puts it. */
  lemma ZoomedLeadingAt(m: Metrics, items: seq<Item>, sizes: seq<int>, first: int, last: int,
                        maxLength: int, hi: int, end: int, a: seq<Item>, j: int)
    requires ItemsFit(items, m.minSize, m.maxSize) && |sizes| == |items| && 0 <= j <= last < |items|
    requires !Backfilled(first, last, |items|) && hi == last + 1
    requires a == Anchored(m, Forwarded(m, items, sizes, 0, m.spacing / 2), hi, end)
    ensures a[j] == ZoomedAt(m, items, sizes, first, last, maxLength, j)
  {
  }

  /** The extents the backfill reads are the zoomed extents. */
  lemma BackfillExtents(m: Metrics, items: seq<Item>, sizes: seq<int>, base: int, a: seq<Item>, hi: int)
    requires ItemsFit(items, m.minSize, m.maxSize) && |sizes| == |items| && 0 <= hi <= |items|
    requires ItemsFit(a, m.minSize, m.maxSize) && |a| == |items|
    requires forall t {:trigger a[t]} :: 0 <= t < hi ==> a[t] == ForwardAt(m, items, sizes, 0, base, t)
    ensures forall t {:trigger CurrentExtents(m, a)[t]} :: 0 <= t < hi ==> CurrentExtents(m, a)[t] == Extents(m, items, sizes)[t]
  {
    forall t | 0 <= t < hi
      ensures CurrentExtents(m, a)[t] == Extents(m, items, sizes)[t]
    {
      var pt := PackedFrom(Extents(m, items, sizes), m.spacing, 0, base, t);
      ZoomedItemPlace(m, items[t], sizes[t], pt);
      SameTableExtents(m, items[t], a[t], sizes[t]);
    }
  }

  /** After a forward packing and the trailing loop from `hi`, the items
      before `hi` are still packed forward and item `hi` starts where the
      trailing loop put it. */
  lemma AnchoredForward(m: Metrics, items: seq<Item>, sizes: seq<int>, base: int, hi: int, end: int,
                        a: seq<Item>)
    requires ItemsFit(items, m.minSize, m.maxSize) && |sizes| == |items| && 0 <= hi < |items|
    requires a == Anchored(m, Forwarded(m, items, sizes, 0, base), hi, end)
    ensures |a| == |items| && ItemsFit(a, m.minSize, m.maxSize)
    ensures forall t {:trigger a[t]} :: 0 <= t < hi ==> a[t] == ForwardAt(m, items, sizes, 0, base, t)
    ensures Main(m.orientation, a[hi].geom) == PackedBack(MinExtents(m, items), m.spacing, |items|, end, hi)
  {
    var f := Forwarded(m, items, sizes, 0, base);
    SameTablesSameExtents(m, items, f);
  }

  /** The backfill run after a forward packing and the trailing loop packs
      the items before `hi` back from the start of item `hi`, at their
      packed sizes. */
  lemma BackfilledForwardAt(m: Metrics, items: seq<Item>, sizes: seq<int>, base: int, hi: int, end: int,
                            a: seq<Item>, exts: seq<int>, endB: int, j: int)
    requires ItemsFit(items, m.minSize, m.maxSize) && |sizes| == |items| && 0 <= j < hi < |items|
    requires |a| == |items| && ItemsFit(a, m.minSize, m.maxSize)
    requires forall t {:trigger a[t]} :: 0 <= t < hi ==> a[t] == ForwardAt(m, items, sizes, 0, base, t)
    requires Main(m.orientation, a[hi].geom) == PackedBack(MinExtents(m, items), m.spacing, |items|, end, hi)
    requires exts == Extents(m, items, sizes)
    requires endB == PackedBack(MinExtents(m, items), m.spacing, |items|, end, hi) - m.spacing
    ensures Backpacked(m, a, hi)[j] == ZoomedItem(m, items[j], sizes[j], PackedBack(exts, m.spacing, hi, endB, j))
  {
    BackfillExtents(m, items, sizes, base, a, hi);
    BackpackedMoved(m, a, hi, j, items[j], sizes[j], PackedFrom(exts, m.spacing, 0, base, j), exts, endB);
  }

  /** With the backfill, an item up to the last magnified one ends up where
      the zoomed layout puts it. */
  lemma ZoomedBackfillAt(m: Metrics, items: seq<Item>, sizes: seq<int>, first: int, last: int,
                         maxLength: int, hi: int, end: int, a: seq<Item>, j: int)
    requires ItemsFit(items, m.minSize, m.maxSize) && |sizes| == |items| && 0 <= j <= last < |items|
    requires Backfilled(first, last, |items|)
    requires hi == last + 1 && end == maxLength - m.spacing / 2
    requires |a| == |items| && ItemsFit(a, m.minSize, m.maxSize)
    requires forall t {:trigger a[t]} :: 0 <= t < hi ==> a[t] == ForwardAt(m, items, sizes, 0, m.spacing / 2, t)
    requires Main(m.orientation, a[hi].geom) == PackedBack(MinExtents(m, items), m.spacing, |items|, end, hi)
    ensures Backpacked(m, a, hi)[j] == ZoomedAt(m, items, sizes, first, last, maxLength, j)
  {
    var endB := PackedBack(MinExtents(m, items), m.spacing, |items|, end, hi) - m.spacing;
    BackfilledForwardAt(m, items, sizes, m.spacing / 2, hi, end, a, Extents(m, items, sizes), endB, j);
  }

  /** The item loops of `updateLayout(x, y)`. */
  method ZoomedPass(m: Metrics, items: seq<Item>, p: int, shift: int, maxLength: int)
    returns (r: seq<Item>)
    requires m.Valid() && ItemsFit(items, m.minSize, m.maxSize) && |items| > 0
    ensures r == Zoomed(m, items, p, shift, maxLength)
  {
    var n := |items|;
    var forward, first, last := ZoomForward(m, items, p, shift);
    var hi := last + 1;
    var end := maxLength - m.spacing / 2;
    r := AnchorTrailing(m, forward, hi, end);
    ghost var anchored := r;
    ghost var sizes := ZoomSizes(m, Distances(items, p, shift));
    if first == 0 && last < n - 1 {
      AnchoredForward(m, items, sizes, m.spacing / 2, hi, end, anchored);
      r := PackBackward(m, r, hi);
    }
    forall j | 0 <= j < n
      ensures r[j] == ZoomedAt(m, items, sizes, first, last, maxLength, j)
    {
      if j > last {
        ZoomedTrailingAt(m, items, sizes, first, last, maxLength, hi, end, anchored, j);
      } else if first == 0 && last < n - 1 {
        ZoomedBackfillAt(m, items, sizes, first, last, maxLength, hi, end, anchored, j);
      } else {
        ZoomedLeadingAt(m, items, sizes, first, last, maxLength, hi, end, anchored, j);
      }
    }
    ghost var target := ZoomedWith(m, items, sizes, first, last, maxLength);
    assert r == target;
  }

  /** The centre loop of `resizeTaskManager`: the items from `keep` on get
      the centre the minimized layout gives them. */
  method Recentre(m: Metrics, items: seq<Item>, keep: int) returns (r: seq<Item>)
    requires ItemsFit(items, m.minSize, m.maxSize) && keep >= 0
    ensures r == Recentred(m, items, keep)
  {
    ghost var minExts := MinExtents(m, items);
    ghost var c := Recentred(m, items, keep);
    var s := m.spacing;
    r := items;
    var start := 0;
    var i := 0;
    while i < |items|
      invariant 0 <= i <= |items| == |r|
      invariant i > 0 ==> start == PackedFrom(minExts, s, 0, s / 2, i - 1)
      invariant forall j :: 0 <= j < i ==> r[j] == c[j]
      invariant forall j :: i <= j < |items| ==> r[j] == items[j]
    {
      start := if i == 0 then s / 2 else start + MinExtent(m, items[i - 1]) + s;
      if i >= keep {
        r := r[i := r[i].(minCenter := start + MinExtent(m, r[i]) / 2)];
      }
      i := i + 1;
    }
  }

  /** After the last magnified item the resize pass starts each item where
      the backward packing from `end` does. */
  lemma ResizeMainTrailing(s: int, zexts: seq<int>, minExts: seq<int>, keep: int, base: int, last: int,
                           maxLength: int, end: int, i: int)
    requires |zexts| == |minExts| && 0 <= keep <= i < |zexts| && Max(keep, last + 1) <= i
    requires end == maxLength - s / 2
    ensures ResizeMain(s, zexts, minExts, keep, base, last, maxLength, i) == PackedBack(minExts, s, |zexts|, end, i)
  {
  }

  /** Item `j` of the resize loops run one after the other is item `j` of
      the resized layout. */
  lemma ResizeCompositionAt(m: Metrics, rc: seq<Item>, sizes: seq<int>, keep: int, base: int, last: int,
                            maxLength: int, lo: int, end: int, j: int)
    requires ItemsFit(rc, m.minSize, m.maxSize) && |sizes| == |rc| && 0 <= keep < |rc| && 0 <= j < |rc|
    requires last < |rc| && lo == Max(keep, last + 1) && end == maxLength - m.spacing / 2
    ensures Anchored(m, Forwarded(m, rc, sizes, keep, base), lo, end)[j] ==
      ResizedWith(m, rc, sizes, keep, base, last, maxLength)[j]
  {
    var r := ResizedWith(m, rc, sizes, keep, base, last, maxLength);
    var zexts := Extents(m, rc, sizes);
    var minExts := MinExtents(m, rc);
    if j >= lo {
      AnchoredForwardAt(m, rc, sizes, keep, base, lo, end, j);
      ResizeMainTrailing(m.spacing, zexts, minExts, keep, base, last, maxLength, end, j);
    }
  }

  /** The item loops of `resizeTaskManager` on a zoomed panel. */
  method ResizePass(m: Metrics, items: seq<Item>, keep: int, p: int, shift: int, maxLength: int)
    returns (r: seq<Item>)
    requires m.Valid() && ItemsFit(items, m.minSize, m.maxSize) && keep >= 0
    ensures r == Resized(m, items, keep, p, shift, maxLength)
  {
    var c := Recentre(m, items, keep);
    r := c;
    if keep < |c| {
      var o := m.orientation;
      // The first re-laid item follows the last kept one, or stays put.
      var base := if keep > 0 then Main(o, c[keep - 1].geom) + ExtentAt(m, c[keep - 1], c[keep - 1].geom.size) + m.spacing
                  else Main(o, c[0].geom);
      assert base == ResizeBase(m, c, keep);
      var forward, last := ResizeForward(m, c, keep, base, p, shift);
      var lo := Max(keep, last + 1);
      var end := maxLength - m.spacing / 2;
      r := AnchorTrailing(m, forward, lo, end);
      ghost var sizes := ZoomSizes(m, Distances(c, p, shift));
      ghost var target := ResizedWith(m, c, sizes, keep, base, last, maxLength);
      forall j | 0 <= j < |items|
        ensures r[j] == target[j]
      {
        ResizeCompositionAt(m, c, sizes, keep, base, last, maxLength, lo, end, j);
      }
    }
  }

  /** The coordinate of the pointer along the panel. */
  function Along(o: Orientation, x: int, y: int): int
  {
    if o == Horizontal then x else y
  }

  /** `findActiveItem`: the index of the last item of the leading run of
      items that start before the pointer, or -1 when the first item does
      not. */
  method FindActiveItem(o: Orientation, items: seq<Item>, x: int, y: int) returns (i: int)
    ensures -1 <= i < |items|
    ensures forall j :: 0 <= j <= i ==> Main(o, items[j].geom) < Along(o, x, y)
    ensures i + 1 < |items| ==> Main(o, items[i + 1].geom) >= Along(o, x, y)
  {
    var k := 0;
    while k < |items| && Main(o, items[k].geom) < Along(o, x, y)
      invariant 0 <= k <= |items|
      invariant forall j :: 0 <= j < k ==> Main(o, items[j].geom) < Along(o, x, y)
    {
      k := k + 1;
    }
    i := k - 1;
  }
}
