/**
 * The detail browser's paging logic, as values: which item is current as the
 * pages scroll by (with a hit cache that avoids asking the collection view),
 * and the from/to/percent triple that keeps the thumbnail indicator in step
 * (with memoised index-path lookups). Coordinates are exact reals.
 */
module BrowserPaging {
  import opened Wrappers

  datatype IndexPath = IndexPath(section: int, item: int)

  datatype Point = Point(x: real, y: real)

  /** Layout attributes of one item: its frame's horizontal span and its index path. */
  datatype Attributes = Attributes(minX: real, maxX: real, indexPath: IndexPath)

  /**
   * What the model asks of the collection view: the width of its bounds, the
   * item under a point (`indexPathForItem(at:)`) and an item's layout
   * attributes (`layoutAttributesForItem(at:)`).
   */
  datatype Grid = Grid(width: real, itemAt: Point -> Option<IndexPath>, attributesOf: IndexPath -> Option<Attributes>)

  // ---------------------------------------------------------------------------
  // Current item

  /** The horizontal centre of the viewport at content offset `offset`. */
  function CenterX(offset: Point, width: real): real
  {
    offset.x + width / 2.0
  }

  /** The cached item's horizontal span contains `x` (left edge in, right edge out). */
  predicate Hit(item: Option<Attributes>, x: real)
  {
    item.Some? && item.value.minX <= x < item.value.maxX
  }

  /** The current item and index path after an update, and how many lookups it issued. */
  datatype Located = Located(item: Option<Attributes>, indexPath: Option<IndexPath>, lookups: nat)

  /**
   * Updating the current item for a viewport centred at `x`. A cache hit keeps
   * everything and asks the collection view nothing. A miss issues one lookup
   * at (x, 0): if no item is there, the old item and index path stay; otherwise
   * both are replaced from that item's attributes (both become nil when the
   * attributes are missing).
   */
  function LocateCurrent(item: Option<Attributes>, indexPath: Option<IndexPath>, x: real, grid: Grid): (r: Located)
    ensures r.lookups == 0 <==> Hit(item, x)
    ensures r.lookups <= 1
    ensures Hit(item, x) || grid.itemAt(Point(x, 0.0)).None? ==> r.item == item && r.indexPath == indexPath
    ensures !Hit(item, x) && grid.itemAt(Point(x, 0.0)).Some? ==>
              r.item == grid.attributesOf(grid.itemAt(Point(x, 0.0)).value) &&
              (r.item.None? ==> r.indexPath.None?) &&
              (r.item.Some? ==> r.indexPath == Some(r.item.value.indexPath))
  {
    if Hit(item, x) then Located(item, indexPath, 0)
    else
      match grid.itemAt(Point(x, 0.0))
      case None => Located(item, indexPath, 1)
      case Some(found) =>
        var attributes := grid.attributesOf(found);
        Located(attributes, if attributes.Some? then Some(attributes.value.indexPath) else None, 1)
  }

  /**
   * The cache-hit fast path: once an update has cached an item, every later
   * update whose centre lies within that item's span issues no lookup and
   * changes nothing, however often it is repeated.
   */
  lemma CachedSpanNeedsNoLookup(item: Option<Attributes>, indexPath: Option<IndexPath>, x: real, y: real, grid: Grid)
    requires LocateCurrent(item, indexPath, x, grid).item.Some?
    requires var cached := LocateCurrent(item, indexPath, x, grid).item.value; cached.minX <= y < cached.maxX
    ensures var first := LocateCurrent(item, indexPath, x, grid);
            LocateCurrent(first.item, first.indexPath, y, grid) == Located(first.item, first.indexPath, 0)
  {
  }

  // ---------------------------------------------------------------------------
  // Indicator interpolation

  function Floor(v: real): (n: int)
    ensures n as real <= v < n as real + 1.0
  {
    v.Floor
  }

  function Ceil(v: real): (n: int)
    ensures n as real - 1.0 < v <= n as real
  {
    -((-v).Floor)
  }

  /** An integer within one below `v` is its floor. */
  lemma FloorUnique(v: real, n: int)
    requires n as real <= v < n as real + 1.0
    ensures Floor(v) == n
  {
    var m := Floor(v);
    assert (m - n) as real < 1.0 && (n - m) as real < 1.0;
  }

  /** An integer within one above `v` is its ceiling. */
  lemma CeilUnique(v: real, n: int)
    requires n as real - 1.0 < v <= n as real
    ensures Ceil(v) == n
  {
    var m := Ceil(v);
    assert (m - n) as real < 1.0 && (n - m) as real < 1.0;
  }

  /** Floor and ceiling agree on integers and are one apart elsewhere. */
  lemma FloorCeil(v: real)
    ensures Floor(v) <= Ceil(v) <= Floor(v) + 1
    ensures Ceil(v) == Floor(v) <==> v == Floor(v) as real
  {
    var f, c := Floor(v), Ceil(v);
    assert (c - f) as real < 2.0 && (f - c) as real <= 0.0;
    if v == f as real {
      CeilUnique(v, f);
    }
  }

  /** Truncation toward zero, the integral part `modf` splits off. */
  function Trunc(v: real): (n: int)
    ensures v >= 0.0 ==> n == Floor(v)
    ensures v < 0.0 ==> n == Ceil(v)
  {
    if v >= 0.0 then v.Floor else -((-v).Floor)
  }

  /** The fractional part `modf` returns: the same sign as `v`, the magnitude below 1. */
  function Frac(v: real): (f: real)
    ensures v >= 0.0 ==> 0.0 <= f < 1.0
    ensures v < 0.0 ==> -1.0 < f <= 0.0
  {
    v - Trunc(v) as real
  }

  /** The fractional part of `v + 1`, in terms of the floor and ceiling of `v`. */
  lemma ShiftedFrac(v: real)
    ensures v >= -1.0 ==> Frac(v + 1.0) == v - Floor(v) as real
    ensures v < -1.0 ==> Frac(v + 1.0) == v - Ceil(v) as real
  {
    if v >= -1.0 {
      FloorUnique(v + 1.0, Floor(v) + 1);
    } else {
      CeilUnique(v + 1.0, Ceil(v) + 1);
    }
  }

  /** The indicator's position between two pages: page `from`, page `to`, and how far along. */
  datatype Interpolation = Interpolation(from: int, to: int, percent: real)

  /**
   * With `value` the content offset in page widths: `to` is its ceiling, `from`
   * its floor and `percent` the fractional part of `value + 1`. So `to` is
   * `from` on a page boundary and `from + 1` between pages; from one page to
   * the left of the first onwards the percent is the distance past `from`, in
   * [0, 1); further left it is minus the distance short of `to`.
   */
  function Interpolate(value: real): (r: Interpolation)
    ensures r.from as real <= value < r.from as real + 1.0
    ensures r.to as real - 1.0 < value <= r.to as real
    ensures r.from <= r.to <= r.from + 1
    ensures r.to == r.from <==> value == r.from as real
    ensures value >= -1.0 ==> r.percent == value - r.from as real && 0.0 <= r.percent < 1.0
    ensures value < -1.0 ==> r.percent == value - r.to as real && -1.0 < r.percent <= 0.0
  {
    FloorCeil(value);
    ShiftedFrac(value);
    Interpolation(Floor(value), Ceil(value), Frac(value + 1.0))
  }

  lemma InterpolationExamples()
    ensures Interpolate(1.5) == Interpolation(1, 2, 0.5)
    ensures Interpolate(0.0) == Interpolation(0, 0, 0.0)
    ensures Interpolate(3.0) == Interpolation(3, 3, 0.0)
  {
  }

  // ---------------------------------------------------------------------------
  // Memoised indicator sync

  /** The last `from`/`to` page numbers and the index paths looked up for them. */
  datatype Memo = Memo(fromIndex: Option<int>, fromIndexPath: Option<IndexPath>,
                       toIndex: Option<int>, toIndexPath: Option<IndexPath>)

  const NoMemo: Memo := Memo(None, None, None, None)

  /** The point the collection view is asked about for page `page`: its horizontal centre. */
  function PageCenter(page: int, width: real): Point
  {
    Point((page as real + 0.5) * width, 0.0)
  }

  /** The memo after a sync, the lookups it issued, and what it tells the indicator. */
  datatype Sync = Sync(memo: Memo, lookups: nat, from: Option<IndexPath>, to: Option<IndexPath>, percent: real)

  /**
   * Syncing the indicator to horizontal offset `offsetX`. A page number equal to
   * the memoised one reuses the memoised index path; a different one (or none
   * memoised) is looked up at the page's centre and memoised. The indicator is
   * told the memoised paths and the percent every time.
   */
  function SyncIndicator(m: Memo, offsetX: real, grid: Grid): (r: Sync)
    requires grid.width != 0.0
    ensures var s := Interpolate(offsetX / grid.width);
            && r.memo.fromIndex == Some(s.from) && r.memo.toIndex == Some(s.to)
            && (m.fromIndex == Some(s.from) ==> r.memo.fromIndexPath == m.fromIndexPath)
            && (m.fromIndex != Some(s.from) ==> r.memo.fromIndexPath == grid.itemAt(PageCenter(s.from, grid.width)))
            && (m.toIndex == Some(s.to) ==> r.memo.toIndexPath == m.toIndexPath)
            && (m.toIndex != Some(s.to) ==> r.memo.toIndexPath == grid.itemAt(PageCenter(s.to, grid.width)))
            && r.lookups == (if m.fromIndex == Some(s.from) then 0 else 1) + (if m.toIndex == Some(s.to) then 0 else 1)
            && r.from == r.memo.fromIndexPath && r.to == r.memo.toIndexPath && r.percent == s.percent
  {
    var s := Interpolate(offsetX / grid.width);
    var (fromIndex, fromIndexPath, fromLookups) :=
      if m.fromIndex != Some(s.from) then (Some(s.from), grid.itemAt(PageCenter(s.from, grid.width)), 1)
      else (m.fromIndex, m.fromIndexPath, 0);
    var (toIndex, toIndexPath, toLookups) :=
      if m.toIndex != Some(s.to) then (Some(s.to), grid.itemAt(PageCenter(s.to, grid.width)), 1)
      else (m.toIndex, m.toIndexPath, 0);
    Sync(Memo(fromIndex, fromIndexPath, toIndex, toIndexPath), fromLookups + toLookups,
         fromIndexPath, toIndexPath, s.percent)
  }

  /** Nothing memoised yet: the first sync always looks up both pages. */
  lemma FirstSyncLooksUp(offsetX: real, grid: Grid)
    requires grid.width != 0.0
    ensures SyncIndicator(NoMemo, offsetX, grid).lookups == 2
  {
  }

  /**
   * Syncing twice at offsets on the same pair of pages: the second sync issues
   * no lookup and tells the indicator the same index paths.
   */
  lemma SyncMemoised(m: Memo, x: real, y: real, grid: Grid)
    requires grid.width != 0.0
    requires Interpolate(x / grid.width).from == Interpolate(y / grid.width).from
    requires Interpolate(x / grid.width).to == Interpolate(y / grid.width).to
    ensures var first := SyncIndicator(m, x, grid);
            var second := SyncIndicator(first.memo, y, grid);
            second.lookups == 0 && second.memo == first.memo &&
            second.from == first.from && second.to == first.to
  {
  }

  // ---------------------------------------------------------------------------
  // Calls on collaborators

  /**
   * The calls the detail controller makes on the objects around it, as they
   * are logged: the indicator's interpolated update, a programmatic scroll
   * (with whether content-offset changes were being ignored at the time), the
   * request to pop or dismiss the controller, and the percent-update and
   * completion signals sent to a transition context.
   */
  datatype Event =
    | IndicatorUpdate(from: Option<IndexPath>, to: Option<IndexPath>, percent: real)
    | ScrollTo(indexPath: IndexPath, suppressed: bool)
    | DismissRequested
    | ContextUpdate(context: nat, percent: real, offset: Point)
    | ContextComplete(context: nat, completed: bool)
}
