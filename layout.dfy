/** The layout passes of the dock panel, as functions from the items before a
    pass to the items after it. Coordinates are taken along the panel
    ("main": `left` on a horizontal panel, `top` on a vertical one) and
    across it ("cross").

    - Minimized: every item at `minSize`, packed from `spacing/2` with
      `spacing` between neighbours; each item records its centre.
    - Zoomed (pointer at `p`): every item sized by its distance to the
      pointer; the items up to the last magnified one packed forward from
      `spacing/2`; the items after it packed backward from the far end of
      the panel at `minSize`; and, when the magnified run starts at the first
      item and ends before the last, that run packed backward too, against
      the trailing items.
    - Task-manager resize: the zoomed pass again, for the items after a
      kept prefix only. */
module Layout {
  import opened Arith
  import opened Zoom
  import opened Icons
  import opened Items

  /** The panel's layout configuration. */
  datatype Metrics = Metrics(
    orientation: Orientation,
    position: Position,
    spacing: int,
    minSize: int,
    maxSize: int,
    maxX: int)
  {
    predicate Valid()
    {
      0 < minSize <= maxSize && spacing >= 0 && maxX > 0 &&
      orientation == OrientationOf(position)
    }
  }

  /** What `initLayoutVars` adds up for the minimized panel length: every
      item's extent plus one spacing each. */
  function Length(exts: seq<int>, s: int): int
  {
    if |exts| == 0 then 0 else Length(exts[..|exts| - 1], s) + exts[|exts| - 1] + s
  }

  function MinExtent(m: Metrics, item: Item): nat
    requires TableFits(item.icons, m.minSize, m.maxSize)
  {
    MainExtentAt(m.orientation, item, m.minSize, m.maxSize, m.minSize)
  }

  function ExtentAt(m: Metrics, item: Item, size: int): nat
    requires TableFits(item.icons, m.minSize, m.maxSize)
  {
    MainExtentAt(m.orientation, item, m.minSize, m.maxSize, size)
  }

  function MinExtents(m: Metrics, items: seq<Item>): (exts: seq<int>)
    requires ItemsFit(items, m.minSize, m.maxSize)
    ensures |exts| == |items|
    ensures forall i {:trigger exts[i]} :: 0 <= i < |items| ==> exts[i] == MinExtent(m, items[i]) >= 0
  {
    seq(|items|, i requires 0 <= i < |items| => MinExtent(m, items[i]))
  }

  /** The extents of the items at the given sizes. */
  function Extents(m: Metrics, items: seq<Item>, sizes: seq<int>): (exts: seq<int>)
    requires ItemsFit(items, m.minSize, m.maxSize) && |sizes| == |items|
    ensures |exts| == |items|
    ensures forall i {:trigger exts[i]} :: 0 <= i < |items| ==> exts[i] == ExtentAt(m, items[i], sizes[i])
  {
    seq(|items|, i requires 0 <= i < |items| => ExtentAt(m, items[i], sizes[i]))
  }

  /** Two items with the same pixmap table have the same extents. */
  lemma SameTableExtents(m: Metrics, a: Item, b: Item, size: int)
    requires TableFits(a.icons, m.minSize, m.maxSize) && a.icons == b.icons
    ensures ExtentAt(m, a, size) == ExtentAt(m, b, size)
    ensures MinExtent(m, a) == MinExtent(m, b)
  {
  }

  /** Two item lists of the same length whose items have the same pixmap
      tables, position by position. */
  predicate SameTables(a: seq<Item>, b: seq<Item>)
  {
    |a| == |b| && forall j {:trigger b[j]} :: 0 <= j < |a| ==> a[j].icons == b[j].icons
  }

  /** Extents depend on the pixmap tables only. */
  lemma SameTablesSameExtents(m: Metrics, a: seq<Item>, b: seq<Item>)
    requires ItemsFit(a, m.minSize, m.maxSize) && SameTables(a, b)
    ensures ItemsFit(b, m.minSize, m.maxSize)
    ensures MinExtents(m, a) == MinExtents(m, b)
    ensures forall sizes :: |sizes| == |a| ==> Extents(m, a, sizes) == Extents(m, b, sizes)
  {
    assert forall j :: 0 <= j < |a| ==> MinExtent(m, a[j]) == MinExtent(m, b[j]);
    forall sizes | |sizes| == |a|
      ensures Extents(m, a, sizes) == Extents(m, b, sizes)
    {
      assert forall j :: 0 <= j < |a| ==> ExtentAt(m, a[j], sizes[j]) == ExtentAt(m, b[j], sizes[j]);
    }
  }

  /** The extent of every item at its current size. */
  function CurrentExtents(m: Metrics, items: seq<Item>): (exts: seq<int>)
    requires ItemsFit(items, m.minSize, m.maxSize)
    ensures |exts| == |items|
    ensures forall i {:trigger exts[i]} :: 0 <= i < |items| ==> exts[i] == ExtentAt(m, items[i], items[i].geom.size)
  {
    seq(|items|, i requires 0 <= i < |items| => ExtentAt(m, items[i], items[i].geom.size))
  }

  /** Forward packing: item `k` starts at `base` and every later item starts
      one spacing after the end of the one before it. */
  function PackedFrom(exts: seq<int>, s: int, k: int, base: int, i: int): int
    requires 0 <= k <= i <= |exts|
    decreases i
  {
    if i == k then base else PackedFrom(exts, s, k, base, i - 1) + exts[i - 1] + s
  }

  /** Backward packing: item `hi - 1` ends at `end` and every earlier item
      ends one spacing before the start of the one after it. */
  function PackedBack(exts: seq<int>, s: int, hi: int, end: int, i: int): int
    requires 0 <= i < hi <= |exts|
    decreases hi - i
  {
    if i == hi - 1 then end - exts[i] else PackedBack(exts, s, hi, end, i + 1) - exts[i] - s
  }

  /** Item `i` of a forward packing starts where the items from `k` before
      it, with their spacings, end. */
  lemma {:induction false} PackedFromLength(exts: seq<int>, s: int, k: int, base: int, i: int)
    requires 0 <= k <= i <= |exts|
    ensures PackedFrom(exts, s, k, base, i) == base + Length(exts[k..i], s)
    decreases i
  {
    if i > k {
      PackedFromLength(exts, s, k, base, i - 1);
      assert exts[k..i][..i - k - 1] == exts[k..i - 1];
    } else {
      assert exts[k..i] == [];
    }
  }

  /** Backward packing reads only the extents of the items it packs. */
  lemma {:induction false} PackedBackAgree(a: seq<int>, b: seq<int>, s: int, hi: int, end: int, i: int)
    requires 0 <= i < hi <= |a| && hi <= |b|
    requires forall t :: i <= t < hi ==> a[t] == b[t]
    ensures PackedBack(a, s, hi, end, i) == PackedBack(b, s, hi, end, i)
    decreases hi - i
  {
    if i < hi - 1 {
      PackedBackAgree(a, b, s, hi, end, i + 1);
    }
  }

  // ---------------------------------------------------------------------
  // Minimized layout

  /** Item placed at `minSize` with its start at `main` along the panel and
      `spacing/2` across it, remembering its centre. */
  function MinimizedItem(m: Metrics, item: Item, main: int): (r: Item)
    requires TableFits(item.icons, m.minSize, m.maxSize)
    ensures r.kind == item.kind && r.icons == item.icons
    ensures r.start == item.start && r.end == item.end
  {
    item.(geom := Place(m.orientation, m.minSize, main, m.spacing / 2),
          minCenter := main + MinExtent(m, item) / 2)
  }

  /** `updateLayout()` on the items. */
  function Minimized(m: Metrics, items: seq<Item>): (r: seq<Item>)
    requires ItemsFit(items, m.minSize, m.maxSize)
    ensures |r| == |items| && ItemsFit(r, m.minSize, m.maxSize)
    ensures forall i {:trigger r[i]} :: 0 <= i < |items| ==>
      r[i] == MinimizedItem(m, items[i], PackedFrom(MinExtents(m, items), m.spacing, 0, m.spacing / 2, i))
  {
    var exts := MinExtents(m, items);
    seq(|items|, i requires 0 <= i < |items| =>
      MinimizedItem(m, items[i], PackedFrom(exts, m.spacing, 0, m.spacing / 2, i)))
  }

  /** In the minimized layout every item has `minSize`, sits `spacing/2`
      across the panel and records as its centre its start plus half its
      extent. */
  lemma MinimizedItems(m: Metrics, items: seq<Item>)
    requires ItemsFit(items, m.minSize, m.maxSize)
    ensures forall i :: 0 <= i < |items| ==>
      Minimized(m, items)[i].geom.size == m.minSize &&
      Cross(m.orientation, Minimized(m, items)[i].geom) == m.spacing / 2 &&
      Minimized(m, items)[i].minCenter ==
        Main(m.orientation, Minimized(m, items)[i].geom) + MinExtent(m, Minimized(m, items)[i]) / 2
  {
  }

  /** The first minimized item starts at `spacing/2` and each next one
      starts one spacing after the previous one ends. */
  lemma MinimizedPacking(m: Metrics, items: seq<Item>)
    requires ItemsFit(items, m.minSize, m.maxSize)
    ensures |items| > 0 ==> Main(m.orientation, Minimized(m, items)[0].geom) == m.spacing / 2
    ensures forall i :: 0 < i < |items| ==>
      Main(m.orientation, Minimized(m, items)[i].geom) ==
        Main(m.orientation, Minimized(m, items)[i - 1].geom) + MinExtent(m, items[i - 1]) + m.spacing
  {
    var exts := MinExtents(m, items);
    forall i | 0 < i < |items|
      ensures Main(m.orientation, Minimized(m, items)[i].geom) ==
        Main(m.orientation, Minimized(m, items)[i - 1].geom) + MinExtent(m, items[i - 1]) + m.spacing
    {
      assert Main(m.orientation, Minimized(m, items)[i].geom) == PackedFrom(exts, m.spacing, 0, m.spacing / 2, i);
    }
  }

  /** The last minimized item ends `spacing - spacing/2` before the panel
      length `initLayoutVars` computes. */
  lemma MinimizedEnd(m: Metrics, items: seq<Item>)
    requires ItemsFit(items, m.minSize, m.maxSize) && |items| > 0
    ensures var n := |items|; var s := m.spacing;
      Main(m.orientation, Minimized(m, items)[n - 1].geom) + MinExtent(m, items[n - 1]) ==
        Length(MinExtents(m, items), s) - (s - s / 2)
  {
    var exts := MinExtents(m, items);
    var n := |items|;
    var s := m.spacing;
    var start := Main(m.orientation, Minimized(m, items)[n - 1].geom);
    assert start == PackedFrom(exts, s, 0, s / 2, n - 1);
    PackedFromLength(exts, s, 0, s / 2, n - 1);
    assert exts[0..n - 1] == exts[..n - 1];
  }

  /** Running the minimized pass twice gives the same items as running it
      once. */
  lemma MinimizedIdempotent(m: Metrics, items: seq<Item>)
    requires ItemsFit(items, m.minSize, m.maxSize)
    ensures Minimized(m, Minimized(m, items)) == Minimized(m, items)
  {
    var s := m.spacing;
    var r := Minimized(m, items);
    var r2 := Minimized(m, r);
    var exts := MinExtents(m, items);
    assert SameTables(items, r);
    SameTablesSameExtents(m, items, r);
    forall i | 0 <= i < |items|
      ensures r2[i] == r[i]
    {
      var main := PackedFrom(exts, s, 0, s / 2, i);
      assert r2[i] == MinimizedItem(m, r[i], main);
      assert r[i] == MinimizedItem(m, items[i], main);
      SameTableExtents(m, items[i], r[i], m.minSize);
    }
  }

  // ---------------------------------------------------------------------
  // Zoomed layout

  /** The distance of every item's minimized centre to the pointer, once
      the pointer is shifted into minimized-layout coordinates. */
  function Distances(items: seq<Item>, p: int, shift: int): (ds: seq<int>)
    ensures |ds| == |items|
    ensures forall i {:trigger ds[i]} :: 0 <= i < |items| ==> ds[i] == Abs(items[i].minCenter - p + shift) >= 0
  {
    seq(|items|, i requires 0 <= i < |items| => Abs(items[i].minCenter - p + shift))
  }

  /** The index of the first magnified item among the first `k`, or -1. */
  function FirstAffected(ds: seq<int>, maxX: int, k: int): (r: int)
    requires 0 <= k <= |ds|
    ensures -1 <= r < k
    ensures r >= 0 ==> ds[r] < maxX
  {
    if k == 0 then -1
    else
      var f := FirstAffected(ds, maxX, k - 1);
      if f == -1 && ds[k - 1] < maxX then k - 1 else f
  }

  /** Looking at one more item: it is the first magnified one when none
      was found before it and it is magnified. */
  lemma FirstAffectedStep(ds: seq<int>, maxX: int, i: int)
    requires 0 <= i < |ds|
    ensures var f := FirstAffected(ds, maxX, i);
      FirstAffected(ds, maxX, i + 1) == if f == -1 && ds[i] < maxX then i else f
  {
  }

  /** No item before the first magnified one is magnified, and with none
      found no item among the first `k` is. */
  lemma {:induction false} FirstAffectedIsFirst(ds: seq<int>, maxX: int, k: int)
    requires 0 <= k <= |ds|
    ensures var r := FirstAffected(ds, maxX, k);
      forall j :: 0 <= j < k && (r == -1 || j < r) ==> ds[j] >= maxX
  {
    if k > 0 {
      FirstAffectedIsFirst(ds, maxX, k - 1);
    }
  }

  /** The index of the last magnified item among those in `[lo, k)`, or -1
      when there is none. */
  function LastAffected(ds: seq<int>, maxX: int, lo: int, k: int): (r: int)
    requires 0 <= lo && 0 <= k <= |ds|
    ensures -1 <= r < k
    ensures r >= 0 ==> lo <= r && ds[r] < maxX
    decreases k
  {
    if k <= lo then -1
    else if ds[k - 1] < maxX then k - 1
    else LastAffected(ds, maxX, lo, k - 1)
  }

  /** Looking at one more item: it is the last magnified one when it is
      magnified, else the last magnified one stays. */
  lemma LastAffectedStep(ds: seq<int>, maxX: int, lo: int, i: int)
    requires 0 <= lo <= i < |ds|
    ensures LastAffected(ds, maxX, lo, i + 1) == if ds[i] < maxX then i else LastAffected(ds, maxX, lo, i)
  {
  }

  /** No item in `[lo, k)` after the last magnified one is magnified. */
  lemma {:induction false} LastAffectedIsLast(ds: seq<int>, maxX: int, lo: int, k: int)
    requires 0 <= lo && 0 <= k <= |ds|
    ensures var r := LastAffected(ds, maxX, lo, k);
      forall j :: lo <= j < k && j > r ==> ds[j] >= maxX
    decreases k
  {
    if k > lo && ds[k - 1] >= maxX {
      LastAffectedIsLast(ds, maxX, lo, k - 1);
    }
  }

  /** `last_update_index` after the loop: the last magnified index, 0 when
      none is. */
  function LastUpdateIndex(ds: seq<int>, maxX: int, lo: int): (r: int)
    requires 0 <= lo
    ensures 0 <= r && (r == 0 || (lo <= r < |ds| && ds[r] < maxX))
  {
    Max(0, LastAffected(ds, maxX, lo, |ds|))
  }

  /** Every item from `lo` on after `last_update_index` is unmagnified. */
  lemma LastUpdateIndexIsLast(ds: seq<int>, maxX: int, lo: int)
    requires 0 <= lo
    ensures forall j :: lo <= j < |ds| && j > LastUpdateIndex(ds, maxX, lo) ==> ds[j] >= maxX
  {
    LastAffectedIsLast(ds, maxX, lo, |ds|);
  }

  /** The sizes the parabola gives for the distances. */
  function ZoomSizes(m: Metrics, ds: seq<int>): (sizes: seq<int>)
    requires m.Valid()
    ensures |sizes| == |ds|
    ensures forall i {:trigger sizes[i]} :: 0 <= i < |ds| ==> sizes[i] == Parabolic(ds[i], m.minSize, m.maxSize, m.maxX)
  {
    seq(|ds|, i requires 0 <= i < |ds| => Parabolic(ds[i], m.minSize, m.maxSize, m.maxX))
  }

  /** Across the panel a zoomed item is flush with the side nearest the
      screen edge: at `spacing/2` on a top or left panel, ending at
      `spacing/2 + maxSize` on a bottom or right one. */
  function CrossAt(m: Metrics, item: Item, size: int): int
    requires TableFits(item.icons, m.minSize, m.maxSize)
  {
    if m.position == Top || m.position == Left then m.spacing / 2
    else m.spacing / 2 + m.maxSize - CrossExtentAt(m.orientation, item, m.minSize, m.maxSize, size)
  }

  function ZoomedItem(m: Metrics, item: Item, size: int, main: int): (r: Item)
    requires TableFits(item.icons, m.minSize, m.maxSize)
    ensures r.kind == item.kind && r.icons == item.icons && r.minCenter == item.minCenter
    ensures r.start == item.start && r.end == item.end
  {
    item.(geom := Place(m.orientation, size, main, CrossAt(m, item, size)))
  }

  /** One step of the scans for the first and the last magnified item. */
  lemma AffectedStep(ds: seq<int>, maxX: int, lo: int, i: int)
    requires 0 <= lo <= i < |ds|
    ensures FirstAffected(ds, maxX, i + 1) ==
      if FirstAffected(ds, maxX, i) == -1 && ds[i] < maxX then i else FirstAffected(ds, maxX, i)
    ensures Max(0, LastAffected(ds, maxX, lo, i + 1)) ==
      if ds[i] < maxX then i else Max(0, LastAffected(ds, maxX, lo, i))
  {
  }

  /** Where a zoomed item is placed. */
  lemma ZoomedItemPlace(m: Metrics, item: Item, size: int, main: int)
    requires TableFits(item.icons, m.minSize, m.maxSize)
    ensures var r := ZoomedItem(m, item, size, main);
      r.geom.size == size && Main(m.orientation, r.geom) == main &&
      Cross(m.orientation, r.geom) == CrossAt(m, item, size)
  {
  }

  /** Moving a zoomed item along the panel gives the item zoomed at the new
      place. */
  lemma ZoomedItemMoved(m: Metrics, item: Item, size: int, a: int, b: int)
    requires TableFits(item.icons, m.minSize, m.maxSize)
    ensures var z := ZoomedItem(m, item, size, a);
      z.(geom := WithMain(m.orientation, z.geom, b)) == ZoomedItem(m, item, size, b)
  {
  }

  /** Whether the zoomed pass packs the magnified run backward as well. */
  predicate Backfilled(first: int, last: int, n: int)
  {
    first == 0 && last < n - 1
  }

  /** Where the zoomed pass starts item `i` along the panel. */
  function ZoomMain(s: int, zexts: seq<int>, minExts: seq<int>, first: int, last: int,
                    maxLength: int, i: int): int
    requires |zexts| == |minExts| && 0 <= i < |zexts| && 0 <= last < |zexts|
  {
    var n := |zexts|;
    if i > last then PackedBack(minExts, s, n, maxLength - s / 2, i)
    else if Backfilled(first, last, n) then
      PackedBack(zexts, s, last + 1, PackedBack(minExts, s, n, maxLength - s / 2, last + 1) - s, i)
    else PackedFrom(zexts, s, 0, s / 2, i)
  }

  /** Item `i` after the zoomed pass, for the zoomed sizes `sizes` and the
      first and last magnified items `first` and `last`. */
  function ZoomedAt(m: Metrics, items: seq<Item>, sizes: seq<int>, first: int, last: int,
                    maxLength: int, i: int): Item
    requires ItemsFit(items, m.minSize, m.maxSize) && |sizes| == |items|
    requires 0 <= last < |items| && 0 <= i < |items|
  {
    ZoomedItem(m, items[i], sizes[i],
               ZoomMain(m.spacing, Extents(m, items, sizes), MinExtents(m, items), first, last, maxLength, i))
  }

  /** The items after the zoomed pass, for given zoomed sizes and magnified
      run. */
  function ZoomedWith(m: Metrics, items: seq<Item>, sizes: seq<int>, first: int, last: int,
                      maxLength: int): (r: seq<Item>)
    requires ItemsFit(items, m.minSize, m.maxSize) && |sizes| == |items| && 0 <= last < |items|
    ensures SameTables(items, r) && ItemsFit(r, m.minSize, m.maxSize)
    ensures forall i {:trigger r[i]} :: 0 <= i < |items| ==>
      r[i] == ZoomedAt(m, items, sizes, first, last, maxLength, i)
  {
    seq(|items|, i requires 0 <= i < |items| => ZoomedAt(m, items, sizes, first, last, maxLength, i))
  }

  /** `updateLayout(x, y)` on the items, with `p` the pointer coordinate
      along the panel, `shift` the offset of the minimized layout inside
      the current window and `maxLength` the zoomed panel length: the
      sizes are the parabolic ones and the magnified run is the one the
      sizing loop finds. */
  function Zoomed(m: Metrics, items: seq<Item>, p: int, shift: int, maxLength: int): seq<Item>
    requires m.Valid() && ItemsFit(items, m.minSize, m.maxSize) && |items| > 0
  {
    var ds := Distances(items, p, shift);
    ZoomedWith(m, items, ZoomSizes(m, ds), FirstAffected(ds, m.maxX, |items|),
               LastUpdateIndex(ds, m.maxX, 0), maxLength)
  }

  /** Item `j` zoomed to `sizes[j]` and packed forward from item `k`, which
      starts at `base`. */
  function ForwardAt(m: Metrics, items: seq<Item>, sizes: seq<int>, k: int, base: int, j: int): Item
    requires ItemsFit(items, m.minSize, m.maxSize) && |sizes| == |items| && 0 <= k <= j < |items|
  {
    ZoomedItem(m, items[j], sizes[j], PackedFrom(Extents(m, items, sizes), m.spacing, k, base, j))
  }

  /** One step of a zoomed forward packing: item `i`, sized by its distance
      to the pointer and started at `base` or one spacing after the previous
      item, is item `i` of the packing. */
  lemma ZoomedStep(m: Metrics, items: seq<Item>, p: int, shift: int, k: int, base: int, i: int)
    requires m.Valid() && ItemsFit(items, m.minSize, m.maxSize) && 0 <= k <= i < |items|
    ensures Distances(items, p, shift)[i] == Abs(items[i].minCenter - p + shift)
    ensures var sizes := ZoomSizes(m, Distances(items, p, shift));
      var size := Parabolic(Abs(items[i].minCenter - p + shift), m.minSize, m.maxSize, m.maxX);
      var start := if i == k then base else
        var x := ForwardAt(m, items, sizes, k, base, i - 1);
        Main(m.orientation, x.geom) + ExtentAt(m, x, x.geom.size) + m.spacing;
      ZoomedItem(m, items[i], size, start) == ForwardAt(m, items, sizes, k, base, i)
  {
    if i > k {
      ForwardStep(m, items, ZoomSizes(m, Distances(items, p, shift)), k, base, i);
    }
  }

  /** In a forward packing each item starts one spacing after the end of
      the one before it, at that item's zoomed size. */
  lemma ForwardStep(m: Metrics, items: seq<Item>, sizes: seq<int>, k: int, base: int, i: int)
    requires ItemsFit(items, m.minSize, m.maxSize) && |sizes| == |items| && 0 <= k < i < |items|
    ensures var x := ForwardAt(m, items, sizes, k, base, i - 1);
      Main(m.orientation, x.geom) + ExtentAt(m, x, x.geom.size) + m.spacing ==
        PackedFrom(Extents(m, items, sizes), m.spacing, k, base, i)
  {
    var exts := Extents(m, items, sizes);
    var x := ForwardAt(m, items, sizes, k, base, i - 1);
    ZoomedItemPlace(m, items[i - 1], sizes[i - 1], PackedFrom(exts, m.spacing, k, base, i - 1));
    SameTableExtents(m, items[i - 1], x, sizes[i - 1]);
  }

  /** Every zoomed size lies in `[minSize, maxSize]`, and the items from
      `lo` on after the last magnified one are at `minSize`. */
  lemma ZoomedSizes(m: Metrics, items: seq<Item>, p: int, shift: int, lo: int)
    requires m.Valid() && lo >= 0
    ensures var ds := Distances(items, p, shift); var sizes := ZoomSizes(m, ds);
      (forall i :: 0 <= i < |items| ==> m.minSize <= sizes[i] <= m.maxSize) &&
      (forall i :: lo <= i < |items| && LastUpdateIndex(ds, m.maxX, lo) < i ==> sizes[i] == m.minSize)
  {
    LastUpdateIndexIsLast(Distances(items, p, shift), m.maxX, lo);
  }

  /** Every zoomed item keeps its kind, pixmaps and minimized centre, and
      takes its zoomed size. */
  lemma ZoomedKeeps(m: Metrics, items: seq<Item>, sizes: seq<int>, first: int, last: int, maxLength: int)
    requires ItemsFit(items, m.minSize, m.maxSize) && |sizes| == |items| && 0 <= last < |items|
    ensures var r := ZoomedWith(m, items, sizes, first, last, maxLength);
      |r| == |items| &&
      forall i :: 0 <= i < |r| ==>
        r[i].kind == items[i].kind && r[i].icons == items[i].icons &&
        r[i].minCenter == items[i].minCenter && r[i].geom.size == sizes[i]
  {
    var r := ZoomedWith(m, items, sizes, first, last, maxLength);
    forall i | 0 <= i < |r|
      ensures r[i].geom.size == sizes[i]
    {
      ZoomedItemPlace(m, items[i], sizes[i],
                      ZoomMain(m.spacing, Extents(m, items, sizes), MinExtents(m, items), first, last, maxLength, i));
    }
  }

  /** Across the panel: flush with `spacing/2` on a top or left panel, and
      ending at `spacing/2 + maxSize` on a bottom or right one. */
  lemma ZoomedCross(m: Metrics, items: seq<Item>, sizes: seq<int>, first: int, last: int, maxLength: int)
    requires ItemsFit(items, m.minSize, m.maxSize) && |sizes| == |items| && 0 <= last < |items|
    ensures var r := ZoomedWith(m, items, sizes, first, last, maxLength); var o := m.orientation;
      forall i :: 0 <= i < |r| ==>
        if m.position == Top || m.position == Left then Cross(o, r[i].geom) == m.spacing / 2
        else Cross(o, r[i].geom) + CrossExtentAt(o, r[i], m.minSize, m.maxSize, r[i].geom.size)
             == m.spacing / 2 + m.maxSize
  {
    var r := ZoomedWith(m, items, sizes, first, last, maxLength);
    forall i | 0 <= i < |r|
      ensures Cross(m.orientation, r[i].geom) == CrossAt(m, items[i], sizes[i]) && r[i].geom.size == sizes[i]
    {
      ZoomedItemPlace(m, items[i], sizes[i],
                      ZoomMain(m.spacing, Extents(m, items, sizes), MinExtents(m, items), first, last, maxLength, i));
    }
  }

  /** Along the panel, in every case: the items after the last magnified
      one are packed against the far end, the last of them ending at
      `maxLength - spacing/2`, each one spacing after the previous. */
  lemma ZoomedTrailing(m: Metrics, items: seq<Item>, sizes: seq<int>, first: int, last: int, maxLength: int)
    requires ItemsFit(items, m.minSize, m.maxSize) && |sizes| == |items| && 0 <= last < |items|
    ensures var r := ZoomedWith(m, items, sizes, first, last, maxLength);
      last < |r| - 1 ==>
        Main(m.orientation, r[|r| - 1].geom) + MinExtent(m, r[|r| - 1]) == maxLength - m.spacing / 2
    ensures var r := ZoomedWith(m, items, sizes, first, last, maxLength);
      forall i :: last < i < |r| - 1 ==>
        Main(m.orientation, r[i + 1].geom) == Main(m.orientation, r[i].geom) + MinExtent(m, r[i]) + m.spacing
  {
    var r := ZoomedWith(m, items, sizes, first, last, maxLength);
    var zexts := Extents(m, items, sizes);
    var minExts := MinExtents(m, items);
    forall i | last < i < |r|
      ensures Main(m.orientation, r[i].geom) ==
                PackedBack(minExts, m.spacing, |r|, maxLength - m.spacing / 2, i)
      ensures MinExtent(m, r[i]) == minExts[i]
    {
      ZoomedItemPlace(m, items[i], sizes[i], ZoomMain(m.spacing, zexts, minExts, first, last, maxLength, i));
    }
  }

  /** Along the panel, when the magnified run does not start at the first
      item, or reaches the last one: the items up to the last magnified one
      are packed forward from `spacing/2`. */
  lemma ZoomedForward(m: Metrics, items: seq<Item>, sizes: seq<int>, first: int, last: int, maxLength: int)
    requires ItemsFit(items, m.minSize, m.maxSize) && |sizes| == |items| && 0 <= last < |items|
    requires !Backfilled(first, last, |items|)
    ensures var r := ZoomedWith(m, items, sizes, first, last, maxLength);
      Main(m.orientation, r[0].geom) == m.spacing / 2
    ensures var r := ZoomedWith(m, items, sizes, first, last, maxLength);
      forall i :: 0 <= i < last ==>
        Main(m.orientation, r[i + 1].geom) ==
          Main(m.orientation, r[i].geom) + ExtentAt(m, r[i], r[i].geom.size) + m.spacing
  {
    var r := ZoomedWith(m, items, sizes, first, last, maxLength);
    var zexts := Extents(m, items, sizes);
    var minExts := MinExtents(m, items);
    forall i | 0 <= i <= last
      ensures Main(m.orientation, r[i].geom) == PackedFrom(zexts, m.spacing, 0, m.spacing / 2, i)
      ensures ExtentAt(m, r[i], r[i].geom.size) == zexts[i]
    {
      ZoomedItemPlace(m, items[i], sizes[i], ZoomMain(m.spacing, zexts, minExts, first, last, maxLength, i));
      SameTableExtents(m, items[i], r[i], sizes[i]);
    }
  }

  /** Along the panel, when the magnified run starts at the first item and
      ends before the last, and the items after it are at `minSize`: every
      item starts exactly one spacing after the previous one ends, up to
      the last one, which ends at `maxLength - spacing/2`. */
  lemma ZoomedBackfilled(m: Metrics, items: seq<Item>, sizes: seq<int>, first: int, last: int,
                         maxLength: int)
    requires ItemsFit(items, m.minSize, m.maxSize) && |sizes| == |items| && 0 <= last < |items|
    requires Backfilled(first, last, |items|)
    requires forall i :: last < i < |items| ==> sizes[i] == m.minSize
    ensures var r := ZoomedWith(m, items, sizes, first, last, maxLength);
      forall i :: 0 <= i < |r| - 1 ==>
        Main(m.orientation, r[i + 1].geom) ==
          Main(m.orientation, r[i].geom) + ExtentAt(m, r[i], r[i].geom.size) + m.spacing
  {
    var r := ZoomedWith(m, items, sizes, first, last, maxLength);
    var n := |items|;
    var s := m.spacing;
    var zexts := Extents(m, items, sizes);
    var minExts := MinExtents(m, items);
    var endB := PackedBack(minExts, s, n, maxLength - s / 2, last + 1) - s;
    forall i | 0 <= i < n
      ensures Main(m.orientation, r[i].geom) ==
        if i > last then PackedBack(minExts, s, n, maxLength - s / 2, i)
        else PackedBack(zexts, s, last + 1, endB, i)
      ensures ExtentAt(m, r[i], r[i].geom.size) == zexts[i]
      ensures i > last ==> zexts[i] == minExts[i]
    {
      ZoomedItemPlace(m, items[i], sizes[i], ZoomMain(s, zexts, minExts, first, last, maxLength, i));
      SameTableExtents(m, items[i], r[i], sizes[i]);
    }
  }

  // ---------------------------------------------------------------------
  // Task-manager resize

  /** The minimized centres `resizeTaskManager` recomputes: those of the
      items from `keep` on, from the minimized packing; the kept ones stay. */
  function Recentred(m: Metrics, items: seq<Item>, keep: int): (r: seq<Item>)
    requires ItemsFit(items, m.minSize, m.maxSize) && keep >= 0
    ensures |r| == |items| && ItemsFit(r, m.minSize, m.maxSize)
    ensures forall i :: 0 <= i < |items| && i < keep ==> r[i] == items[i]
    ensures forall i :: keep <= i < |items| ==>
      r[i] == items[i].(minCenter := Minimized(m, items)[i].minCenter)
  {
    seq(|items|, i requires 0 <= i < |items| =>
      if i < keep then items[i] else items[i].(minCenter := Minimized(m, items)[i].minCenter))
  }

  /** Where the first re-laid item starts: right after the last kept item,
      or, with nothing kept, where the first item already is. */
  function ResizeBase(m: Metrics, items: seq<Item>, keep: int): int
    requires ItemsFit(items, m.minSize, m.maxSize) && 0 <= keep < |items|
  {
    if keep == 0 then Main(m.orientation, items[0].geom)
    else
      Main(m.orientation, items[keep - 1].geom) +
        ExtentAt(m, items[keep - 1], items[keep - 1].geom.size) + m.spacing
  }

  /** Where the resize pass starts item `i >= keep` along the panel. */
  function ResizeMain(s: int, zexts: seq<int>, minExts: seq<int>, keep: int, base: int, last: int,
                      maxLength: int, i: int): int
    requires |zexts| == |minExts| && 0 <= keep <= i < |zexts|
  {
    if i >= Max(keep, last + 1) then PackedBack(minExts, s, |zexts|, maxLength - s / 2, i)
    else PackedFrom(zexts, s, keep, base, i)
  }

  /** Item `i >= keep` after the resize pass, for the recentred items
      `rc`, the zoomed sizes, the start `base` of the first re-laid item and
      the last magnified item `last`. */
  function ResizedAt(m: Metrics, rc: seq<Item>, sizes: seq<int>, keep: int, base: int, last: int,
                     maxLength: int, i: int): Item
    requires ItemsFit(rc, m.minSize, m.maxSize) && |sizes| == |rc| && 0 <= keep <= i < |rc|
  {
    ZoomedItem(m, rc[i], sizes[i],
               ResizeMain(m.spacing, Extents(m, rc, sizes), MinExtents(m, rc), keep, base, last, maxLength, i))
  }

  /** The items after the resize pass, for given recentred items, sizes,
      start and magnified run: the first `keep` are left alone. */
  function ResizedWith(m: Metrics, rc: seq<Item>, sizes: seq<int>, keep: int, base: int, last: int,
                       maxLength: int): (r: seq<Item>)
    requires ItemsFit(rc, m.minSize, m.maxSize) && |sizes| == |rc| && keep >= 0
    ensures SameTables(rc, r) && ItemsFit(r, m.minSize, m.maxSize)
    ensures forall i {:trigger r[i]} :: 0 <= i < |rc| ==>
      r[i] == if i < keep then rc[i] else ResizedAt(m, rc, sizes, keep, base, last, maxLength, i)
  {
    seq(|rc|, i requires 0 <= i < |rc| =>
      if i < keep then rc[i] else ResizedAt(m, rc, sizes, keep, base, last, maxLength, i))
  }

  /** `resizeTaskManager` on the items of a zoomed panel: the first `keep`
      items are left alone; the others get new minimized centres, are sized
      by their distance to the last pointer position `p`, packed forward
      from the end of the kept items up to the last magnified one and
      backward from the far end after it. */
  function Resized(m: Metrics, items: seq<Item>, keep: int, p: int, shift: int, maxLength: int): seq<Item>
    requires m.Valid() && ItemsFit(items, m.minSize, m.maxSize) && keep >= 0
  {
    var rc := Recentred(m, items, keep);
    var ds := Distances(rc, p, shift);
    ResizedWith(m, rc, ZoomSizes(m, ds), keep, if keep < |rc| then ResizeBase(m, rc, keep) else 0,
                LastUpdateIndex(ds, m.maxX, keep), maxLength)
  }

  /** The kept items stay as they are; every re-laid item keeps its kind,
      pixmaps and minimized centre, and takes its zoomed size. */
  lemma ResizedKeeps(m: Metrics, rc: seq<Item>, sizes: seq<int>, keep: int, base: int, last: int,
                     maxLength: int)
    requires ItemsFit(rc, m.minSize, m.maxSize) && |sizes| == |rc| && keep >= 0
    ensures var r := ResizedWith(m, rc, sizes, keep, base, last, maxLength);
      |r| == |rc| &&
      (forall i :: 0 <= i < keep && i < |r| ==> r[i] == rc[i]) &&
      (forall i :: keep <= i < |r| ==>
        r[i].kind == rc[i].kind && r[i].icons == rc[i].icons &&
        r[i].minCenter == rc[i].minCenter && r[i].geom.size == sizes[i])
  {
    var r := ResizedWith(m, rc, sizes, keep, base, last, maxLength);
    forall i | keep <= i < |r|
      ensures r[i].geom.size == sizes[i]
    {
      ZoomedItemPlace(m, rc[i], sizes[i],
        ResizeMain(m.spacing, Extents(m, rc, sizes), MinExtents(m, rc), keep, base, last, maxLength, i));
    }
  }

  /** The first re-laid item starts one spacing after the last kept one
      ends, and every re-laid item up to the last magnified one starts one
      spacing after the previous one ends. */
  lemma ResizedForward(m: Metrics, rc: seq<Item>, sizes: seq<int>, keep: int, last: int, maxLength: int)
    requires ItemsFit(rc, m.minSize, m.maxSize) && |sizes| == |rc| && 0 <= keep < |rc|
    requires last < |rc|
    ensures var r := ResizedWith(m, rc, sizes, keep, ResizeBase(m, rc, keep), last, maxLength);
      forall i :: 0 < i && keep <= i < Max(keep, last + 1) ==>
        Main(m.orientation, r[i].geom) ==
          Main(m.orientation, r[i - 1].geom) + ExtentAt(m, r[i - 1], r[i - 1].geom.size) + m.spacing
  {
    var base := ResizeBase(m, rc, keep);
    var r := ResizedWith(m, rc, sizes, keep, base, last, maxLength);
    var zexts := Extents(m, rc, sizes);
    var minExts := MinExtents(m, rc);
    forall i | keep <= i < Max(keep, last + 1)
      ensures Main(m.orientation, r[i].geom) == PackedFrom(zexts, m.spacing, keep, base, i)
      ensures ExtentAt(m, r[i], r[i].geom.size) == zexts[i]
    {
      ZoomedItemPlace(m, rc[i], sizes[i], ResizeMain(m.spacing, zexts, minExts, keep, base, last, maxLength, i));
      SameTableExtents(m, rc[i], r[i], sizes[i]);
    }
  }

  /** The re-laid items after the last magnified one are packed against
      the far end, each one spacing after the previous, the last of them
      ending at `maxLength - spacing/2`. */
  lemma ResizedTrailing(m: Metrics, rc: seq<Item>, sizes: seq<int>, keep: int, base: int, last: int,
                        maxLength: int)
    requires ItemsFit(rc, m.minSize, m.maxSize) && |sizes| == |rc| && keep >= 0
    ensures var r := ResizedWith(m, rc, sizes, keep, base, last, maxLength);
      Max(keep, last + 1) < |r| ==>
        Main(m.orientation, r[|r| - 1].geom) + MinExtent(m, r[|r| - 1]) == maxLength - m.spacing / 2
    ensures var r := ResizedWith(m, rc, sizes, keep, base, last, maxLength);
      forall i :: Max(keep, last + 1) <= i < |r| - 1 ==>
        Main(m.orientation, r[i + 1].geom) == Main(m.orientation, r[i].geom) + MinExtent(m, r[i]) + m.spacing
  {
    var r := ResizedWith(m, rc, sizes, keep, base, last, maxLength);
    var zexts := Extents(m, rc, sizes);
    var minExts := MinExtents(m, rc);
    forall i | Max(keep, last + 1) <= i < |r|
      ensures Main(m.orientation, r[i].geom) ==
                PackedBack(minExts, m.spacing, |r|, maxLength - m.spacing / 2, i)
      ensures MinExtent(m, r[i]) == minExts[i]
    {
      ZoomedItemPlace(m, rc[i], sizes[i], ResizeMain(m.spacing, zexts, minExts, keep, base, last, maxLength, i));
    }
  }
}
