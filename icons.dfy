/** IconBasedDockItem: an item that shows one pre-scaled pixmap per icon
    size from `minSize` to `maxSize`, kept in the table `icons`. Pixmaps are
    abstract (only their width and height matter to the layout) and the
    scaling of the loaded image is a parameter. */
module Icons {
  import opened Optional

  /** A scaled QPixmap, reduced to its extent. */
  datatype Pixmap = Pixmap(width: nat, height: nat)

  /** The table shape both constructors create: one slot per size. */
  predicate TableFits(icons: seq<Pixmap>, minSize: int, maxSize: int)
  {
    minSize <= maxSize && |icons| == maxSize - minSize + 1
  }

  /** The size `getIcon` actually looks up: `size` clamped into
      `[minSize, maxSize]`. */
  function ClampSize(size: int, minSize: int, maxSize: int): (s: int)
    requires minSize <= maxSize
    ensures minSize <= s <= maxSize
    ensures minSize <= size <= maxSize ==> s == size
    ensures size < minSize ==> s == minSize
    ensures size > maxSize ==> s == maxSize
  {
    if size < minSize then minSize else if size > maxSize then maxSize else size
  }

  /** `getIcon(size)`: never reads outside the table, whatever the size. */
  function IconAt(icons: seq<Pixmap>, minSize: int, maxSize: int, size: int): (p: Pixmap)
    requires TableFits(icons, minSize, maxSize)
    ensures p in icons
    ensures minSize <= size <= maxSize ==> p == icons[size - minSize]
    ensures size <= minSize ==> p == icons[0]
    ensures size >= maxSize ==> p == icons[|icons| - 1]
  {
    icons[ClampSize(size, minSize, maxSize) - minSize]
  }

  /** What `draw(painter, x, y, size)` paints: the pixmap for `size` when
      the size is within the table, nothing otherwise. */
  function DrawnIcon(icons: seq<Pixmap>, minSize: int, maxSize: int, size: int): (r: Option<Pixmap>)
    requires TableFits(icons, minSize, maxSize)
    ensures r.Some? <==> minSize <= size <= maxSize
    ensures r.Some? ==> r.value == IconAt(icons, minSize, maxSize, size)
  {
    if size >= minSize && size <= maxSize then Some(icons[size - minSize]) else None
  }

  /** The table `generateIcons` produces from a scaling of the loaded image
      (`scaledToHeight` on a horizontal panel, `scaledToWidth` on a vertical
      one): slot `k` holds the image scaled to size `minSize + k`. */
  function GeneratedIcons(scale: int -> Pixmap, minSize: int, maxSize: int): (icons: seq<Pixmap>)
    requires minSize <= maxSize
    ensures TableFits(icons, minSize, maxSize)
    ensures forall size :: minSize <= size <= maxSize ==>
      IconAt(icons, minSize, maxSize, size) == scale(size)
  {
    seq(maxSize - minSize + 1, k => scale(minSize + k))
  }

  /** `clear()` followed by `reserve(n)`: `reserve` changes the capacity
      only, so the vector is left empty. */
  function ClearAndReserve(icons: seq<Pixmap>, capacity: nat): (r: seq<Pixmap>)
    ensures |r| == 0
  {
    []
  }

  /** `setIcon` as written: after `clear()` and `reserve()`, the first store
      of `generateIcons`, `icons_[minSize_ - minSize_]`, is already past the
      end of the vector. */
  lemma SetIconAsWrittenStoresPastEnd(icons: seq<Pixmap>, minSize: int, maxSize: int)
    requires TableFits(icons, minSize, maxSize)
    ensures !TableFits(ClearAndReserve(icons, maxSize - minSize + 1), minSize, maxSize)
    ensures !(0 <= minSize - minSize < |ClearAndReserve(icons, maxSize - minSize + 1)|)
  {
  }

  class IconBasedDockItem {
    var minSize: int
    var maxSize: int
    var icons: seq<Pixmap>

    ghost predicate Valid()
      reads this
    {
      TableFits(icons, minSize, maxSize)
    }

    /** Both constructors: size the table to `maxSize - minSize + 1` null
        pixmaps, then fill it with `generateIcons`. */
    constructor (scale: int -> Pixmap, minSize: int, maxSize: int)
      requires minSize <= maxSize
      ensures Valid()
      ensures this.minSize == minSize && this.maxSize == maxSize
      ensures icons == GeneratedIcons(scale, minSize, maxSize)
    {
      this.minSize := minSize;
      this.maxSize := maxSize;
      icons := seq(maxSize - minSize + 1, _ => Pixmap(0, 0));
      new;
      var _ := GenerateIcons(scale);
    }

    /** Fills slot `size - minSize` with the image scaled to `size`, for
        each size in increasing order; `order` records the slots written. */
    method GenerateIcons(scale: int -> Pixmap) returns (ghost order: seq<int>)
      requires Valid()
      modifies this
      ensures Valid() && minSize == old(minSize) && maxSize == old(maxSize)
      ensures icons == GeneratedIcons(scale, minSize, maxSize)
      ensures order == seq(maxSize - minSize + 1, k => k)
    {
      var table := icons;
      var size := minSize;
      order := [];
      while size <= maxSize
        invariant minSize <= size <= maxSize + 1
        invariant |table| == maxSize - minSize + 1
        invariant forall k :: 0 <= k < size - minSize ==> table[k] == scale(minSize + k)
        invariant order == seq(size - minSize, k => k)
      {
        table := table[size - minSize := scale(size)];
        order := order + [size - minSize];
        size := size + 1;
      }
      icons := table;
    }

    /** `setIcon` as intended: the table is given its full length again
        before `generateIcons` writes into it. */
    method SetIcon(scale: int -> Pixmap)
      requires Valid()
      modifies this
      ensures Valid() && minSize == old(minSize) && maxSize == old(maxSize)
      ensures icons == GeneratedIcons(scale, minSize, maxSize)
    {
      icons := seq(maxSize - minSize + 1, _ => Pixmap(0, 0));
      var _ := GenerateIcons(scale);
    }

    function GetIcon(size: int): Pixmap
      reads this
      requires Valid()
    {
      IconAt(icons, minSize, maxSize, size)
    }

    function GetWidth(size: int): nat
      reads this
      requires Valid()
    {
      GetIcon(size).width
    }

    function GetHeight(size: int): nat
      reads this
      requires Valid()
    {
      GetIcon(size).height
    }

    function GetMinWidth(): (w: nat)
      reads this
      requires Valid()
      ensures forall size :: size <= minSize ==> GetWidth(size) == w
    {
      GetWidth(minSize)
    }

    function GetMaxWidth(): (w: nat)
      reads this
      requires Valid()
      ensures forall size :: size >= maxSize ==> GetWidth(size) == w
    {
      GetWidth(maxSize)
    }

    function GetMinHeight(): (h: nat)
      reads this
      requires Valid()
      ensures forall size :: size <= minSize ==> GetHeight(size) == h
    {
      GetHeight(minSize)
    }

    function GetMaxHeight(): (h: nat)
      reads this
      requires Valid()
      ensures forall size :: size >= maxSize ==> GetHeight(size) == h
    {
      GetHeight(maxSize)
    }

    function Draw(size: int): Option<Pixmap>
      reads this
      requires Valid()
    {
      DrawnIcon(icons, minSize, maxSize, size)
    }
  }
}
