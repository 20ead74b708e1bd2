/**
 * The interactive-dismiss gesture of the detail browser, as values: the gating
 * predicates consulted by the gesture-recognizer delegate callbacks, and the
 * three-branch state machine the pan gesture's action drives (start, changed,
 * end), with the transition context it reports to.
 */
module DismissGesture {
  import opened Wrappers
  import opened BrowserPaging

  datatype GestureState = Possible | Began | Changed | Ended | Cancelled | Failed

  function Abs(r: real): (a: real)
    ensures a >= 0.0 && (a == r || a == -r)
  {
    if r < 0.0 then -r else r
  }

  /**
   * The vertical component dominates: |vx / vy| < 1.5, written without the
   * division. A zero vertical velocity is refused, as the comparison of an
   * infinite or NaN ratio refuses it in floating point.
   */
  predicate SteepEnough(v: Point)
  {
    Abs(v.x) < 1.5 * Abs(v.y)
  }

  lemma ScaleLess(a: real, b: real, k: real)
    requires k > 0.0
    ensures a < b <==> a * k < b * k
  {
    assert (b - a) * k == b * k - a * k;
    if a < b {
      assert (b - a) * k > 0.0;
    } else {
      assert (a - b) * k >= 0.0;
    }
  }

  lemma AbsOfQuotient(x: real, y: real)
    requires y != 0.0
    ensures Abs(x) == Abs(x / y) * Abs(y)
  {
    var q := x / y;
    assert x == q * y;
    if q < 0.0 && y < 0.0 {
      assert x == (-q) * (-y);
    } else if q < 0.0 {
      assert -x == (-q) * y;
    } else if y < 0.0 {
      assert -x == q * (-y);
    }
  }

  lemma CompareScaled(ax: real, aq: real, ay: real)
    requires ax == aq * ay
    requires (aq < 1.5) == (aq * ay < 1.5 * ay)
    ensures (ax < 1.5 * ay) == (aq < 1.5)
  {
  }

  /** The division-free test is the ratio test wherever the ratio is defined. */
  lemma SteepEnoughIsRatio(v: Point)
    ensures v.y == 0.0 ==> !SteepEnough(v)
    ensures v.y != 0.0 ==> (SteepEnough(v) <==> Abs(v.x / v.y) < 1.5)
  {
    if v.y != 0.0 {
      AbsOfQuotient(v.x, v.y);
      ScaleLess(Abs(v.x / v.y), 1.5, Abs(v.y));
      CompareScaled(Abs(v.x), Abs(v.x / v.y), Abs(v.y));
    }
  }

  /** The last visible cell: not a detail cell, or a detail cell with (the height of) its detail view if it has one. */
  datatype VisibleCell = NoDetailCell | DetailCell(detailViewHeight: Option<real>)

  /**
   * Whether a gesture may begin. Gestures other than the dismiss pan always
   * may. The dismiss pan needs a steep velocity (in the collection view), a
   * detail cell as the last visible cell, and its location `pointY` (in the
   * detail view's container) not below the bottom of the controller's view.
   */
  function ShouldBegin(isDismissGesture: bool, velocity: Point, lastCell: VisibleCell, pointY: real, viewHeight: real): (ok: bool)
    ensures !isDismissGesture ==> ok
    ensures isDismissGesture && !SteepEnough(velocity) ==> !ok
    ensures isDismissGesture && lastCell.NoDetailCell? ==> !ok
    ensures isDismissGesture && pointY > viewHeight ==> !ok
    ensures isDismissGesture && SteepEnough(velocity) && lastCell.DetailCell? && pointY <= viewHeight ==> ok
  {
    if isDismissGesture then
      if !SteepEnough(velocity) then false
      else if !lastCell.DetailCell? then false
      else if pointY - viewHeight > 0.0 then false
      else true
    else true
  }

  lemma ShouldBeginExamples(viewHeight: real)
    ensures ShouldBegin(true, Point(0.0, 10.0), DetailCell(Some(viewHeight)), viewHeight, viewHeight)
    ensures !ShouldBegin(true, Point(20.0, 10.0), DetailCell(Some(viewHeight)), viewHeight, viewHeight)
    ensures !ShouldBegin(true, Point(0.0, 0.0), DetailCell(Some(viewHeight)), viewHeight, viewHeight)
  {
  }

  /** The other gesture in a simultaneous-recognition query: not a pan, or a pan whose view sits in a canvas view (`onCanvas`). */
  datatype OtherGesture = NotPan | Pan(onCanvas: bool)

  /**
   * Whether the dismiss pan may recognize together with another gesture: never
   * for a gesture other than the dismiss pan, never while an interactive
   * session runs; otherwise with any non-pan gesture, and with a pan only when
   * that pan belongs to a canvas view.
   */
  function RecognizeSimultaneously(isDismissGesture: bool, interactive: bool, other: OtherGesture): (ok: bool)
    ensures ok ==> isDismissGesture && !interactive
    ensures isDismissGesture && !interactive && other.NotPan? ==> ok
    ensures isDismissGesture && !interactive && other.Pan? ==> (ok <==> other.onCanvas)
  {
    if isDismissGesture then
      if interactive then false
      else match other
        case NotPan => true
        case Pan(onCanvas) => if !onCanvas then false else true
    else false
  }

  /** A transition may run interactively only while the dismiss pan has begun or is changing. */
  function ShouldStartInteractive(state: GestureState): (ok: bool)
    ensures ok <==> state == Began || state == Changed
  {
    match state
    case Changed => true
    case Began => true
    case _ => false
  }

  /**
   * One event of the dismiss pan: its state, its velocity in the controller's
   * view and in the window, and its location in the controller's view, in the
   * window and in the container of the last visible cell's detail view.
   */
  datatype PanSample = PanSample(state: GestureState,
                                 velocityInView: Point, velocityInWindow: Point,
                                 locationInView: Point, locationInWindow: Point, locationInDetail: Point)

  /**
   * Whether a pan event starts an interactive dismiss: moving down and steep,
   * a detail cell with a detail view last on screen, and either the touch is
   * above its place in the view (the detail is scrolled up) or the detail view
   * is no taller than the view, so that dragging cannot bounce it.
   */
  function MayStart(g: PanSample, lastCell: VisibleCell, viewHeight: real): (ok: bool)
    ensures ok ==> g.velocityInView.y > 0.0 && SteepEnough(g.velocityInView)
    ensures ok ==> lastCell.DetailCell? && lastCell.detailViewHeight.Some?
    ensures ok <==> g.velocityInView.y > 0.0 && SteepEnough(g.velocityInView) &&
                    lastCell.DetailCell? && lastCell.detailViewHeight.Some? &&
                    (g.locationInDetail.y < g.locationInView.y || lastCell.detailViewHeight.value <= viewHeight)
  {
    if !(g.velocityInView.y > 0.0 && SteepEnough(g.velocityInView)) then false
    else match lastCell
      case NoDetailCell => false
      case DetailCell(height) =>
        match height
        case None => false
        case Some(h) => g.locationInDetail.y - g.locationInView.y < 0.0 || h <= viewHeight
  }

  lemma MayStartExamples(g: PanSample, viewHeight: real)
    requires g.locationInDetail.y < g.locationInView.y
    ensures MayStart(g.(velocityInView := Point(0.0, 10.0)), DetailCell(Some(2.0 * viewHeight)), viewHeight)
    ensures !MayStart(g.(velocityInView := Point(20.0, 10.0)), DetailCell(Some(viewHeight)), viewHeight)
    ensures !MayStart(g.(velocityInView := Point(0.0, -10.0)), DetailCell(Some(viewHeight)), viewHeight)
  {
  }

  function Clamp(p: real): (c: real)
    ensures 0.0 <= c <= 1.0
    ensures 0.0 <= p <= 1.0 ==> c == p
  {
    if p < 0.0 then 0.0 else if p > 1.0 then 1.0 else p
  }

  /**
   * The completion percent of a dismiss dragged `dy` points down: a full
   * dismiss takes three fifths of the screen height; upward drags count as 0
   * and drags past the full distance as 1.
   */
  function DismissPercent(dy: real, screenHeight: real): (p: real)
    requires screenHeight > 0.0
    ensures 0.0 <= p <= 1.0
    ensures dy <= 0.0 ==> p == 0.0
    ensures dy >= screenHeight * 3.0 / 5.0 ==> p == 1.0
    ensures 0.0 <= dy <= screenHeight * 3.0 / 5.0 ==> p * (screenHeight * 3.0 / 5.0) == dy
  {
    var full := screenHeight * 3.0 / 5.0;
    var q := dy / full;
    assert q * full == dy;
    Clamp(q)
  }

  /** The controller's interactive-dismiss state: the interactive flag, where the drag started, and the attached transition context. */
  datatype Session = Session(interactive: bool, atLocation: Point, context: Option<nat>)

  datatype Stepped = Stepped(session: Session, events: seq<Event>)

  /**
   * The pan gesture's action. When no session is interactive, any event that
   * passes MayStart starts one at the event's window location and requests the
   * pop or dismissal; any other is ignored. While interactive, a changed event
   * reports the clamped percent and the drag offset to the attached context,
   * and every other event completes the context (when the gesture ended with
   * a non-negative vertical velocity) or cancels it, detaches it, and ends the
   * session.
   */
  function DismissStep(s: Session, g: PanSample, lastCell: VisibleCell, viewHeight: real, screenHeight: real): (r: Stepped)
    requires screenHeight > 0.0
    ensures !s.interactive && MayStart(g, lastCell, viewHeight) ==>
              r == Stepped(Session(true, g.locationInWindow, s.context), [DismissRequested])
    ensures !s.interactive && !MayStart(g, lastCell, viewHeight) ==> r == Stepped(s, [])
    ensures s.interactive && g.state == Changed ==>
              var offset := Point(g.locationInWindow.x - s.atLocation.x, g.locationInWindow.y - s.atLocation.y);
              && r.session == s
              && (s.context.None? ==> r.events == [])
              && (s.context.Some? ==> r.events == [ContextUpdate(s.context.value, DismissPercent(offset.y, screenHeight), offset)])
    ensures s.interactive && g.state != Changed ==>
              && r.session == Session(false, s.atLocation, None)
              && (s.context.None? ==> r.events == [])
              && (s.context.Some? ==> r.events == [ContextComplete(s.context.value, g.state == Ended && g.velocityInWindow.y >= 0.0)])
  {
    if !s.interactive then
      if MayStart(g, lastCell, viewHeight) then Stepped(s.(interactive := true, atLocation := g.locationInWindow), [DismissRequested])
      else Stepped(s, [])
    else if g.state == Changed then
      var offset := Point(g.locationInWindow.x - s.atLocation.x, g.locationInWindow.y - s.atLocation.y);
      var percent := DismissPercent(offset.y, screenHeight);
      Stepped(s, if s.context.Some? then [ContextUpdate(s.context.value, percent, offset)] else [])
    else
      var complete := g.state == Ended && g.velocityInWindow.y >= 0.0;
      Stepped(s.(interactive := false, context := None),
              if s.context.Some? then [ContextComplete(s.context.value, complete)] else [])
  }

  // ---------------------------------------------------------------------------
  // Sessions over time

  /** What reaches the controller: pan events, and the transition attaching or detaching its context. */
  datatype Input =
    | PanEvent(sample: PanSample, lastCell: VisibleCell, viewHeight: real, screenHeight: real)
    | TransitionDidStart(context: nat)
    | TransitionDidEnd

  predicate WellFormed(inputs: seq<Input>)
  {
    forall i :: 0 <= i < |inputs| && inputs[i].PanEvent? ==> inputs[i].screenHeight > 0.0
  }

  function Feed(s: Session, input: Input): Stepped
    requires input.PanEvent? ==> input.screenHeight > 0.0
  {
    match input
    case PanEvent(g, cell, viewHeight, screenHeight) => DismissStep(s, g, cell, viewHeight, screenHeight)
    case TransitionDidStart(c) => Stepped(s.(context := Some(c)), [])
    case TransitionDidEnd => Stepped(s.(context := None), [])
  }

  function Drive(s: Session, inputs: seq<Input>): Stepped
    requires WellFormed(inputs)
    decreases |inputs|
  {
    if inputs == [] then Stepped(s, [])
    else
      var first := Feed(s, inputs[0]);
      var rest := Drive(first.session, inputs[1..]);
      Stepped(rest.session, first.events + rest.events)
  }

  /** The contexts the inputs attach. */
  function Started(inputs: seq<Input>): set<nat>
  {
    set i | 0 <= i < |inputs| && inputs[i].TransitionDidStart? :: inputs[i].context
  }

  /** Every attach brings a context never attached before. */
  predicate FreshStarts(inputs: seq<Input>)
  {
    forall i, j :: 0 <= i < j < |inputs| && inputs[i].TransitionDidStart? && inputs[j].TransitionDidStart? ==>
      inputs[i].context != inputs[j].context
  }

  predicate CompletesContext(e: Event, c: nat)
  {
    e.ContextComplete? && e.context == c
  }

  /** How many completion signals context `c` receives in `events`. */
  function Completions(events: seq<Event>, c: nat): nat
  {
    if events == [] then 0
    else (if CompletesContext(events[0], c) then 1 else 0) + Completions(events[1..], c)
  }

  lemma {:induction false} CompletionsAppend(xs: seq<Event>, ys: seq<Event>, c: nat)
    ensures Completions(xs + ys, c) == Completions(xs, c) + Completions(ys, c)
    decreases |xs|
  {
    if xs == [] {
      assert xs + ys == ys;
    } else {
      assert (xs + ys)[0] == xs[0];
      assert (xs + ys)[1..] == xs[1..] + ys;
      CompletionsAppend(xs[1..], ys, c);
    }
  }

  lemma StartedTail(inputs: seq<Input>)
    requires inputs != []
    ensures Started(inputs[1..]) <= Started(inputs)
    ensures inputs[0].TransitionDidStart? && FreshStarts(inputs) ==> inputs[0].context !in Started(inputs[1..])
    ensures FreshStarts(inputs) ==> FreshStarts(inputs[1..])
  {
    var tail := inputs[1..];
    forall c | c in Started(tail) ensures c in Started(inputs) {
      var i :| 0 <= i < |tail| && tail[i].TransitionDidStart? && tail[i].context == c;
      assert inputs[i + 1] == tail[i];
    }
    if inputs[0].TransitionDidStart? && FreshStarts(inputs) {
      forall i | 0 <= i < |tail| && tail[i].TransitionDidStart? ensures tail[i].context != inputs[0].context {
        assert inputs[i + 1] == tail[i];
      }
    }
    if FreshStarts(inputs) {
      forall i, j | 0 <= i < j < |tail| && tail[i].TransitionDidStart? && tail[j].TransitionDidStart?
        ensures tail[i].context != tail[j].context
      {
        assert inputs[i + 1] == tail[i] && inputs[j + 1] == tail[j];
      }
    }
  }

  /**
   * Each transition context is completed (or cancelled) at most once: as long
   * as every attach brings a new context, no context receives two completion
   * signals, and a context never attached receives none.
   */
  lemma {:induction false} CompletedAtMostOnce(s: Session, inputs: seq<Input>, c: nat)
    requires WellFormed(inputs) && FreshStarts(inputs)
    requires s.context.Some? ==> s.context.value !in Started(inputs)
    ensures Completions(Drive(s, inputs).events, c) <= 1
    ensures c !in Started(inputs) && s.context != Some(c) ==> Completions(Drive(s, inputs).events, c) == 0
    decreases |inputs|
  {
    if inputs != [] {
      var first := Feed(s, inputs[0]);
      var tail := inputs[1..];
      StartedTail(inputs);
      assert WellFormed(tail) by {
        forall i | 0 <= i < |tail| && tail[i].PanEvent? ensures tail[i].screenHeight > 0.0 {
          assert inputs[i + 1] == tail[i];
        }
      }
      if inputs[0].TransitionDidStart? {
        assert inputs[0].context in Started(inputs);
      }
      CompletedAtMostOnce(first.session, tail, c);
      CompletionsAppend(first.events, Drive(first.session, tail).events, c);
      if first.events != [] && CompletesContext(first.events[0], c) {
        assert first.session.context.None? && s.context == Some(c);
        CompletedAtMostOnce(first.session, tail, c);
      }
    }
  }
}
