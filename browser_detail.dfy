/**
 * The photo browser's detail controller: the state it keeps while the pages
 * scroll (the current item and its index path, the memoised indicator pages,
 * the flag that ignores content-offset changes) and while an interactive
 * dismiss runs (the interactive flag, the start location, the transition
 * context). The collection view is a `Grid`, absent before the view loads;
 * calls on the indicator, the transition context and the navigation stack are
 * appended to `events`, and every `indexPathForItem(at:)` call is counted in
 * `lookups`.
 */
module BrowserDetail {
  import opened Wrappers
  import opened BrowserPaging
  import opened DismissGesture

  class BrowserDetailController {
    var currentItem: Option<Attributes>
    var currentIndexPath: Option<IndexPath>
    var interactivingFromIndex: Option<int>
    var interactivingFromIndexPath: Option<IndexPath>
    var interactivingToIndex: Option<int>
    var interactivingToIndexPath: Option<IndexPath>
    var transitionIsInteractiving: bool
    var transitionAtLocation: Point
    var transitionContext: Option<nat>
    var ignoreContentOffsetChange: bool
    /** How many `indexPathForItem(at:)` queries the controller has issued. */
    var lookups: nat
    /** The calls made on collaborators, in order. */
    var events: seq<Event>

    /** The memoised indicator pages held in the four `interactiving` fields. */
    function IndicatorMemo(): Memo
      reads this
    {
      Memo(interactivingFromIndex, interactivingFromIndexPath, interactivingToIndex, interactivingToIndexPath)
    }

    /** The interactive-dismiss state held in the three `transition` fields. */
    function DismissSession(): Session
      reads this
    {
      Session(transitionIsInteractiving, transitionAtLocation, transitionContext)
    }

    constructor (indexPath: IndexPath)
      ensures currentIndexPath == Some(indexPath) && currentItem == None
      ensures IndicatorMemo() == NoMemo
      ensures DismissSession() == Session(false, Point(0.0, 0.0), None)
      ensures !ignoreContentOffsetChange && lookups == 0 && events == []
    {
      currentItem := None;
      currentIndexPath := Some(indexPath);
      interactivingFromIndex, interactivingFromIndexPath := None, None;
      interactivingToIndex, interactivingToIndexPath := None, None;
      transitionIsInteractiving := false;
      transitionAtLocation := Point(0.0, 0.0);
      transitionContext := None;
      ignoreContentOffsetChange := false;
      lookups := 0;
      events := [];
    }

    /** Keeping the current item in step with the viewport centre, asking the collection view only on a cache miss. */
    method UpdateCurrentItem(offset: Point, grid: Option<Grid>)
      modifies this`currentItem, this`currentIndexPath, this`lookups
      ensures grid.None? ==>
                currentItem == old(currentItem) && currentIndexPath == old(currentIndexPath) && lookups == old(lookups)
      ensures grid.Some? ==>
                var r := LocateCurrent(old(currentItem), old(currentIndexPath), CenterX(offset, grid.value.width), grid.value);
                currentItem == r.item && currentIndexPath == r.indexPath && lookups == old(lookups) + r.lookups
    {
      if grid.None? {
        return;
      }
      var collectionView := grid.value;
      var x := offset.x + collectionView.width / 2.0;
      if currentItem.Some? && currentItem.value.minX <= x && x < currentItem.value.maxX {
        return;
      }
      var found := collectionView.itemAt(Point(x, 0.0));
      lookups := lookups + 1;
      if found.None? {
        return;
      }
      var newValue := collectionView.attributesOf(found.value);
      currentItem := newValue;
      currentIndexPath := if newValue.Some? then Some(newValue.value.indexPath) else None;
    }

    /** Telling the indicator where between which pages the offset lies, looking pages up only when they change. */
    method UpdateCurrentIndexForIndicator(offset: Point, grid: Option<Grid>)
      requires grid.Some? ==> grid.value.width != 0.0
      modifies this`interactivingFromIndex, this`interactivingFromIndexPath,
               this`interactivingToIndex, this`interactivingToIndexPath, this`lookups, this`events
      ensures grid.None? ==>
                IndicatorMemo() == old(IndicatorMemo()) && lookups == old(lookups) && events == old(events)
      ensures grid.Some? ==>
                var r := SyncIndicator(old(IndicatorMemo()), offset.x, grid.value);
                IndicatorMemo() == r.memo && lookups == old(lookups) + r.lookups &&
                events == old(events) + [IndicatorUpdate(r.from, r.to, r.percent)]
    {
      if grid.None? {
        return;
      }
      var collectionView := grid.value;
      var value := offset.x / collectionView.width;
      var to := Ceil(value);
      var from := Floor(value);
      var percent := Frac(value + 1.0);
      if interactivingFromIndex != Some(from) {
        var indexPath := collectionView.itemAt(PageCenter(from, collectionView.width));
        lookups := lookups + 1;
        interactivingFromIndex := Some(from);
        interactivingFromIndexPath := indexPath;
      }
      if interactivingToIndex != Some(to) {
        var indexPath := collectionView.itemAt(PageCenter(to, collectionView.width));
        lookups := lookups + 1;
        interactivingToIndex := Some(to);
        interactivingToIndexPath := indexPath;
      }
      events := events + [IndicatorUpdate(interactivingFromIndexPath, interactivingToIndexPath, percent)];
    }

    /**
     * The scroll notification: ignored for other scroll views and while
     * content-offset changes are ignored; otherwise the current item and then
     * the indicator are brought up to date.
     */
    method ScrollViewDidScroll(isCollectionView: bool, offset: Point, grid: Option<Grid>)
      requires isCollectionView && !ignoreContentOffsetChange && grid.Some? ==> grid.value.width != 0.0
      modifies this`currentItem, this`currentIndexPath,
               this`interactivingFromIndex, this`interactivingFromIndexPath,
               this`interactivingToIndex, this`interactivingToIndexPath, this`lookups, this`events
      ensures !isCollectionView || ignoreContentOffsetChange || grid.None? ==>
                currentItem == old(currentItem) && currentIndexPath == old(currentIndexPath) &&
                IndicatorMemo() == old(IndicatorMemo()) && lookups == old(lookups) && events == old(events)
      ensures isCollectionView && !ignoreContentOffsetChange && grid.Some? ==>
                var located := LocateCurrent(old(currentItem), old(currentIndexPath), CenterX(offset, grid.value.width), grid.value);
                var sync := SyncIndicator(old(IndicatorMemo()), offset.x, grid.value);
                currentItem == located.item && currentIndexPath == located.indexPath &&
                IndicatorMemo() == sync.memo && lookups == old(lookups) + located.lookups + sync.lookups &&
                events == old(events) + [IndicatorUpdate(sync.from, sync.to, sync.percent)]
    {
      if !isCollectionView {
        return;
      }
      if ignoreContentOffsetChange {
        return;
      }
      UpdateCurrentItem(offset, grid);
      UpdateCurrentIndexForIndicator(offset, grid);
    }

    /**
     * A programmatic scroll to `indexPath` with content-offset changes ignored:
     * the flag is set for the scroll and the scroll notification it delivers
     * (at `landing`), and cleared afterwards. The notification finds the flag
     * set, so no lookup is issued and the paging state stays as it was.
     */
    method PerformWithoutContentOffsetChange(indexPath: IndexPath, grid: Option<Grid>, landing: Point)
      modifies this`ignoreContentOffsetChange, this`currentItem, this`currentIndexPath,
               this`interactivingFromIndex, this`interactivingFromIndexPath,
               this`interactivingToIndex, this`interactivingToIndexPath, this`lookups, this`events
      ensures !ignoreContentOffsetChange
      ensures currentItem == old(currentItem) && currentIndexPath == old(currentIndexPath)
      ensures IndicatorMemo() == old(IndicatorMemo()) && lookups == old(lookups)
      ensures events == old(events) + if grid.Some? then [ScrollTo(indexPath, true)] else []
    {
      ignoreContentOffsetChange := true;
      if grid.Some? {
        events := events + [ScrollTo(indexPath, ignoreContentOffsetChange)];
        ScrollViewDidScroll(true, landing, grid);
      }
      ignoreContentOffsetChange := false;
    }

    /**
     * The indicator selected `indexPath`. Selecting the current index path does
     * nothing; any other becomes current (with its layout attributes) and is
     * scrolled to without feeding back into the scroll handling.
     */
    method IndicatorDidSelectItem(indexPath: IndexPath, grid: Option<Grid>, landing: Point)
      modifies this`ignoreContentOffsetChange, this`currentItem, this`currentIndexPath,
               this`interactivingFromIndex, this`interactivingFromIndexPath,
               this`interactivingToIndex, this`interactivingToIndexPath, this`lookups, this`events
      ensures old(currentIndexPath) == Some(indexPath) ==>
                ignoreContentOffsetChange == old(ignoreContentOffsetChange) &&
                currentItem == old(currentItem) && currentIndexPath == old(currentIndexPath) &&
                IndicatorMemo() == old(IndicatorMemo()) && lookups == old(lookups) && events == old(events)
      ensures old(currentIndexPath) != Some(indexPath) ==>
                && !ignoreContentOffsetChange
                && currentIndexPath == Some(indexPath)
                && currentItem == (if grid.Some? then grid.value.attributesOf(indexPath) else None)
                && IndicatorMemo() == old(IndicatorMemo()) && lookups == old(lookups)
                && events == old(events) + if grid.Some? then [ScrollTo(indexPath, true)] else []
    {
      if currentIndexPath == Some(indexPath) {
        return;
      }
      currentItem := if grid.Some? then grid.value.attributesOf(indexPath) else None;
      currentIndexPath := Some(indexPath);
      PerformWithoutContentOffsetChange(indexPath, grid, landing);
    }

    /** The dismiss pan's action: one step of the interactive-dismiss state machine. */
    method Dismiss(sender: PanSample, lastCell: VisibleCell, viewHeight: real, screenHeight: real)
      requires screenHeight > 0.0
      modifies this`transitionIsInteractiving, this`transitionAtLocation, this`transitionContext, this`events
      ensures var r := DismissStep(old(DismissSession()), sender, lastCell, viewHeight, screenHeight);
              DismissSession() == r.session && events == old(events) + r.events
    {
      if !transitionIsInteractiving {
        var velocity := sender.velocityInView;
        if !(velocity.y > 0.0 && SteepEnough(velocity)) {
          return;
        }
        if !lastCell.DetailCell? || lastCell.detailViewHeight.None? {
          return;
        }
        var detailHeight := lastCell.detailViewHeight.value;
        var mh := sender.locationInView.y;
        var point := sender.locationInDetail;
        if !(point.y - mh < 0.0 || detailHeight <= viewHeight) {
          return;
        }
        transitionAtLocation := sender.locationInWindow;
        transitionIsInteractiving := true;
        events := events + [DismissRequested];
      } else if sender.state == Changed {
        var origin := transitionAtLocation;
        var current := sender.locationInWindow;
        var offset := Point(current.x - origin.x, current.y - origin.y);
        var percent := offset.y / (screenHeight * 3.0 / 5.0);
        if transitionContext.Some? {
          events := events + [ContextUpdate(transitionContext.value, Clamp(percent), offset)];
        }
      } else {
        var complete := sender.state == Ended && sender.velocityInWindow.y >= 0.0;
        if transitionContext.Some? {
          events := events + [ContextComplete(transitionContext.value, complete)];
        }
        transitionContext := None;
        transitionIsInteractiving := false;
      }
    }

    /** A transition may always start; the animator is pointed at the current index path. */
    method TransitionShouldStart() returns (ok: bool, animatorIndexPath: Option<IndexPath>)
      ensures ok
      ensures animatorIndexPath == currentIndexPath
    {
      animatorIndexPath := currentIndexPath;
      ok := true;
    }

    /** The transition attaches its context. */
    method TransitionDidStart(context: nat)
      modifies this`transitionContext
      ensures DismissSession() == Feed(old(DismissSession()), Input.TransitionDidStart(context)).session
      ensures transitionContext == Some(context)
    {
      transitionContext := Some(context);
    }

    /** The transition ended, completed or not: its context is detached. */
    method TransitionDidEnd(transitionCompleted: bool)
      modifies this`transitionContext
      ensures DismissSession() == Feed(old(DismissSession()), Input.TransitionDidEnd).session
      ensures transitionContext == None
    {
      transitionContext := None;
    }
  }
}
