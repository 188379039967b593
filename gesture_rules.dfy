/**
 * The value-level rules of the multi-touch gesture controller
 * (aframe/reactjs/src/gesture-control.js): deriving a gesture snapshot
 * from the active touches, classifying an event against the stored
 * snapshot, the state transition of one touch event, and the arithmetic of
 * the rotation and scale effectors.
 *
 * Numbers are exact reals: there is no NaN or Infinity, and the order in
 * which the source's `reduce` adds up the touches does not matter.
 * `Math.sqrt(dx*dx + dy*dy)` is not available in Dafny; the derivation takes
 * it as the parameter `norm`, and the lemmas that need its properties ask for
 * them with `IsLength`.
 */
module GestureRules {
  import opened Wrappers
  import opened JsMath

  datatype Point = Point(x: real, y: real)

  /** One active touch point, in device pixels. */
  datatype Touch = Touch(clientX: real, clientY: real)

  /** `window.innerWidth` and `window.innerHeight` when the event arrives. */
  datatype Viewport = Viewport(innerWidth: real, innerHeight: real)

  /** The fields stamped on the snapshot that opens an episode. */
  datatype Anchor = Anchor(startTime: real, startPosition: Point, startSpread: Option<real>)

  /**
   * A gesture snapshot. `spread` is absent for a single touch (the source
   * never sets the property), and `start` is absent until the snapshot
   * opens an episode.
   */
  datatype Snapshot = Snapshot(
    touchCount: nat,
    positionRaw: Point,
    position: Point,
    spread: Option<real>,
    start: Option<Anchor>)

  /** A snapshot counts at least one touch and has a spread exactly when it counts two or more. */
  predicate Consistent(s: Snapshot) {
    s.touchCount >= 1 && (s.spread.Some? <==> s.touchCount >= 2)
  }

  /** A snapshot as the derivation returns it: consistent and not yet anchored. */
  predicate Derived(s: Snapshot) {
    Consistent(s) && s.start.None?
  }

  /** What `norm` must satisfy for the spread to behave as a mean distance. */
  ghost predicate IsLength(norm: (real, real) -> real) {
    (forall dx, dy :: 0.0 <= norm(dx, dy)) && norm(0.0, 0.0) == 0.0
  }

  // ---------------------------------------------------------------------
  // Snapshot derivation (deriveGestureControl)
  // ---------------------------------------------------------------------

  /** The source divides by `innerWidth + innerHeight` without a guard. */
  predicate ScreenSized(view: Viewport) {
    view.innerWidth + view.innerHeight != 0.0
  }

  function ScreenScale(view: Viewport): real
    requires ScreenSized(view)
  {
    2.0 / (view.innerWidth + view.innerHeight)
  }

  function SumX(ts: seq<Touch>): real {
    if |ts| == 0 then 0.0 else ts[0].clientX + SumX(ts[1..])
  }

  function SumY(ts: seq<Touch>): real {
    if |ts| == 0 then 0.0 else ts[0].clientY + SumY(ts[1..])
  }

  /** The sum of the distances from (cx, cy) to every touch, `norm(dx, dy)` being the length of (dx, dy). */
  function SumDistance(ts: seq<Touch>, cx: real, cy: real, norm: (real, real) -> real): real {
    if |ts| == 0 then 0.0
    else norm(cx - ts[0].clientX, cy - ts[0].clientY) + SumDistance(ts[1..], cx, cy, norm)
  }

  /** The sums grow by the last touch's terms when a touch is appended, as `reduce` adds them left to right. */
  lemma {:induction false} SumsAppend(ts: seq<Touch>, t: Touch, cx: real, cy: real, norm: (real, real) -> real)
    ensures SumX(ts + [t]) == SumX(ts) + t.clientX
    ensures SumY(ts + [t]) == SumY(ts) + t.clientY
    ensures SumDistance(ts + [t], cx, cy, norm) == SumDistance(ts, cx, cy, norm) + norm(cx - t.clientX, cy - t.clientY)
  {
    if |ts| > 0 {
      assert (ts + [t])[1..] == ts[1..] + [t];
      SumsAppend(ts[1..], t, cx, cy, norm);
    } else {
      assert (ts + [t])[1..] == [];
    }
  }

  /** The arithmetic mean of the touch coordinates. */
  function Centroid(ts: seq<Touch>): Point
    requires |ts| > 0
  {
    Point(SumX(ts) / (|ts| as real), SumY(ts) / (|ts| as real))
  }

  /** The mean distance from `c` to the touches. */
  function MeanDistance(ts: seq<Touch>, c: Point, norm: (real, real) -> real): real
    requires |ts| > 0
  {
    SumDistance(ts, c.x, c.y, norm) / (|ts| as real)
  }

  function Scaled(p: Point, f: real): Point {
    Point(p.x * f, p.y * f)
  }

  /**
   * The snapshot of one touch event, or None when no touch is active.
   * The centroid is the mean of the touches, `position` is the centroid
   * scaled by 2 / (innerWidth + innerHeight), and the spread, for two or
   * more touches only, is the mean distance to the centroid in the same
   * scaled units.
   */
  function DeriveGestureControl(touches: seq<Touch>, view: Viewport, norm: (real, real) -> real): (r: Option<Snapshot>)
    requires |touches| > 0 ==> ScreenSized(view)
    ensures r.None? <==> |touches| == 0
    ensures r.Some? ==> Derived(r.value) && r.value.touchCount == |touches|
  {
    if |touches| == 0 then None
    else
      var center := Centroid(touches);
      Some(Snapshot(|touches|, center, Scaled(center, ScreenScale(view)), SpreadOf(touches, view, norm), None))
  }

  /** A product, kept as a term of its own so that equal factors give equal products without arithmetic. */
  function Times(a: real, b: real): real {
    a * b
  }

  /** The spread of a non-empty touch list: present from two touches on, in scaled units. */
  function SpreadOf(touches: seq<Touch>, view: Viewport, norm: (real, real) -> real): (r: Option<real>)
    requires ScreenSized(view) && |touches| > 0
    ensures r.Some? <==> |touches| >= 2
  {
    if |touches| >= 2 then Some(Times(MeanDistance(touches, Centroid(touches), norm), ScreenScale(view)))
    else None
  }

  lemma {:induction false} SumXBounds(ts: seq<Touch>, lo: real, hi: real)
    requires forall i | 0 <= i < |ts| :: lo <= ts[i].clientX <= hi
    ensures (|ts| as real) * lo <= SumX(ts) <= (|ts| as real) * hi
  {
    if |ts| > 0 {
      assert lo <= ts[0].clientX <= hi;
      SumXBounds(ts[1..], lo, hi);
    }
  }

  lemma {:induction false} SumYBounds(ts: seq<Touch>, lo: real, hi: real)
    requires forall i | 0 <= i < |ts| :: lo <= ts[i].clientY <= hi
    ensures (|ts| as real) * lo <= SumY(ts) <= (|ts| as real) * hi
  {
    if |ts| > 0 {
      assert lo <= ts[0].clientY <= hi;
      SumYBounds(ts[1..], lo, hi);
    }
  }

  lemma MeanBounds(sum: real, n: real, lo: real, hi: real)
    requires 0.0 < n && n * lo <= sum <= n * hi
    ensures lo <= sum / n <= hi
  {
    var q := sum / n;
    assert q * n == sum;
    assert (q - lo) * n >= 0.0;
    assert (hi - q) * n >= 0.0;
  }

  /** The raw centroid lies in every box that holds all the touches. */
  lemma CentroidWithinTouches(touches: seq<Touch>, view: Viewport, norm: (real, real) -> real,
                              minX: real, maxX: real, minY: real, maxY: real)
    requires ScreenSized(view) && |touches| > 0
    requires forall i | 0 <= i < |touches| ::
      minX <= touches[i].clientX <= maxX && minY <= touches[i].clientY <= maxY
    ensures var s := DeriveGestureControl(touches, view, norm).value;
      minX <= s.positionRaw.x <= maxX && minY <= s.positionRaw.y <= maxY
  {
    CentroidBounds(touches, minX, maxX, minY, maxY);
    assert DeriveGestureControl(touches, view, norm).value.positionRaw == Centroid(touches);
  }

  lemma CentroidBounds(ts: seq<Touch>, minX: real, maxX: real, minY: real, maxY: real)
    requires |ts| > 0
    requires forall i | 0 <= i < |ts| :: minX <= ts[i].clientX <= maxX && minY <= ts[i].clientY <= maxY
    ensures minX <= Centroid(ts).x <= maxX && minY <= Centroid(ts).y <= maxY
  {
    CentroidXBounds(ts, minX, maxX);
    CentroidYBounds(ts, minY, maxY);
  }

  lemma CentroidXBounds(ts: seq<Touch>, lo: real, hi: real)
    requires |ts| > 0
    requires forall i | 0 <= i < |ts| :: lo <= ts[i].clientX <= hi
    ensures lo <= Centroid(ts).x <= hi
  {
    SumXBounds(ts, lo, hi);
    MeanOfSumBounds(SumX(ts), |ts|, lo, hi);
  }

  lemma CentroidYBounds(ts: seq<Touch>, lo: real, hi: real)
    requires |ts| > 0
    requires forall i | 0 <= i < |ts| :: lo <= ts[i].clientY <= hi
    ensures lo <= Centroid(ts).y <= hi
  {
    SumYBounds(ts, lo, hi);
    MeanOfSumBounds(SumY(ts), |ts|, lo, hi);
  }

  lemma MeanOfSumBounds(sum: real, count: nat, lo: real, hi: real)
    requires count > 0 && (count as real) * lo <= sum <= (count as real) * hi
    ensures lo <= sum / (count as real) <= hi
  {
    MeanBounds(sum, count as real, lo, hi);
  }

  /** Every touch moved by (dx, dy). */
  function Shift(ts: seq<Touch>, dx: real, dy: real): (r: seq<Touch>)
    ensures |r| == |ts|
  {
    if |ts| == 0 then []
    else [Touch(ts[0].clientX + dx, ts[0].clientY + dy)] + Shift(ts[1..], dx, dy)
  }

  lemma {:induction false} SumsShift(ts: seq<Touch>, dx: real, dy: real)
    ensures SumX(Shift(ts, dx, dy)) == SumX(ts) + (|ts| as real) * dx
    ensures SumY(Shift(ts, dx, dy)) == SumY(ts) + (|ts| as real) * dy
  {
    if |ts| > 0 {
      var r := Shift(ts, dx, dy);
      assert r[1..] == Shift(ts[1..], dx, dy);
      SumsShift(ts[1..], dx, dy);
    }
  }

  lemma {:induction false} SumDistanceShift(ts: seq<Touch>, cx: real, cy: real, dx: real, dy: real,
                                            norm: (real, real) -> real)
    ensures SumDistance(Shift(ts, dx, dy), cx + dx, cy + dy, norm) == SumDistance(ts, cx, cy, norm)
  {
    if |ts| > 0 {
      var r := Shift(ts, dx, dy);
      assert r[1..] == Shift(ts[1..], dx, dy);
      assert (cx + dx) - r[0].clientX == cx - ts[0].clientX;
      assert (cy + dy) - r[0].clientY == cy - ts[0].clientY;
      SumDistanceShift(ts[1..], cx, cy, dx, dy, norm);
    }
  }

  lemma MeanShift(sum: real, n: real, d: real)
    requires 0.0 < n
    ensures (sum + n * d) / n == sum / n + d
  {
  }

  lemma CentroidShift(ts: seq<Touch>, dx: real, dy: real)
    requires |ts| > 0
    ensures Centroid(Shift(ts, dx, dy)) == Point(Centroid(ts).x + dx, Centroid(ts).y + dy)
  {
    var n := |ts| as real;
    SumsShift(ts, dx, dy);
    MeanShift(SumX(ts), n, dx);
    MeanShift(SumY(ts), n, dy);
  }

  lemma MeanDistanceShift(ts: seq<Touch>, dx: real, dy: real, norm: (real, real) -> real)
    requires |ts| > 0
    ensures MeanDistance(Shift(ts, dx, dy), Centroid(Shift(ts, dx, dy)), norm) == MeanDistance(ts, Centroid(ts), norm)
  {
    CentroidShift(ts, dx, dy);
    var c := Centroid(ts);
    SumDistanceShift(ts, c.x, c.y, dx, dy, norm);
  }

  /** Moving every finger by the same amount leaves the touch count and the spread as they were. */
  lemma TranslationKeepsSpread(touches: seq<Touch>, view: Viewport, norm: (real, real) -> real,
                               dx: real, dy: real)
    requires ScreenSized(view) && |touches| > 0
    ensures var s := DeriveGestureControl(touches, view, norm).value;
            var t := DeriveGestureControl(Shift(touches, dx, dy), view, norm).value;
      t.touchCount == s.touchCount && t.spread == s.spread
  {
    var moved := Shift(touches, dx, dy);
    MeanDistanceShift(touches, dx, dy, norm);
    SameMeanSameSpread(moved, touches, view, norm);
  }

  /** Two touch lists of one size with one mean distance to their centroids have one spread. */
  lemma SameMeanSameSpread(ts: seq<Touch>, us: seq<Touch>, view: Viewport, norm: (real, real) -> real)
    requires ScreenSized(view) && |ts| == |us| > 0
    requires MeanDistance(ts, Centroid(ts), norm) == MeanDistance(us, Centroid(us), norm)
    ensures SpreadOf(ts, view, norm) == SpreadOf(us, view, norm)
  {
  }

  /** Moving every finger by (dx, dy) moves the raw centroid by (dx, dy) and the scaled one by the scaled amount. */
  lemma TranslationMovesCentroid(touches: seq<Touch>, view: Viewport, norm: (real, real) -> real,
                                 dx: real, dy: real)
    requires ScreenSized(view) && |touches| > 0
    ensures var s := DeriveGestureControl(touches, view, norm).value;
            var t := DeriveGestureControl(Shift(touches, dx, dy), view, norm).value;
      && t.positionRaw == Point(s.positionRaw.x + dx, s.positionRaw.y + dy)
      && t.position == Point(s.position.x + dx * ScreenScale(view), s.position.y + dy * ScreenScale(view))
  {
    var moved := Shift(touches, dx, dy);
    CentroidShift(touches, dx, dy);
    var c, scale := Centroid(touches), ScreenScale(view);
    assert Centroid(moved) == Point(c.x + dx, c.y + dy);
    assert (c.x + dx) * scale == c.x * scale + dx * scale;
    assert (c.y + dy) * scale == c.y * scale + dy * scale;
  }

  lemma {:induction false} SumDistanceNonNegative(ts: seq<Touch>, cx: real, cy: real, norm: (real, real) -> real)
    requires IsLength(norm)
    ensures 0.0 <= SumDistance(ts, cx, cy, norm)
  {
    if |ts| > 0 {
      assert 0.0 <= norm(cx - ts[0].clientX, cy - ts[0].clientY);
      SumDistanceNonNegative(ts[1..], cx, cy, norm);
    }
  }

  lemma NonNegativeProduct(a: real, b: real)
    requires 0.0 <= a && 0.0 <= b
    ensures 0.0 <= a * b
  {
  }

  /** On a viewport of positive size the spread is never negative. */
  lemma SpreadNonNegative(touches: seq<Touch>, view: Viewport, norm: (real, real) -> real)
    requires view.innerWidth + view.innerHeight > 0.0 && IsLength(norm)
    ensures var r := DeriveGestureControl(touches, view, norm);
      r.Some? && r.value.spread.Some? ==> 0.0 <= r.value.spread.value
  {
    if |touches| >= 2 {
      var n := |touches| as real;
      var c := Centroid(touches);
      SumDistanceNonNegative(touches, c.x, c.y, norm);
      var d := SumDistance(touches, c.x, c.y, norm);
      NonNegativeProduct(d / n, ScreenScale(view));
    }
  }

  lemma {:induction false} SumDistanceAtTheTouch(ts: seq<Touch>, p: Touch, norm: (real, real) -> real)
    requires norm(0.0, 0.0) == 0.0
    requires forall i | 0 <= i < |ts| :: ts[i] == p
    ensures SumDistance(ts, p.clientX, p.clientY, norm) == 0.0
  {
    if |ts| > 0 {
      assert ts[0] == p;
      SumDistanceAtTheTouch(ts[1..], p, norm);
    }
  }

  /** Fingers that all rest on one point have that point as centroid and no spread. */
  lemma CoincidentTouches(touches: seq<Touch>, view: Viewport, norm: (real, real) -> real, p: Touch)
    requires ScreenSized(view) && |touches| > 0 && norm(0.0, 0.0) == 0.0
    requires forall i | 0 <= i < |touches| :: touches[i] == p
    ensures var s := DeriveGestureControl(touches, view, norm).value;
      && s.positionRaw == Point(p.clientX, p.clientY)
      && (|touches| >= 2 ==> s.spread == Some(0.0))
  {
    var n := |touches| as real;
    SumXBounds(touches, p.clientX, p.clientX);
    SumYBounds(touches, p.clientY, p.clientY);
    MeanBounds(SumX(touches), n, p.clientX, p.clientX);
    MeanBounds(SumY(touches), n, p.clientY, p.clientY);
    assert Centroid(touches) == Point(p.clientX, p.clientY);
    SumDistanceAtTheTouch(touches, p, norm);
    assert MeanDistance(touches, Point(p.clientX, p.clientY), norm) == 0.0;
    assert 0.0 * ScreenScale(view) == 0.0;
  }

  /** Two fingers 100 pixels apart on a 1000 x 1000 viewport. */
  lemma TwoTouchExample(norm: (real, real) -> real)
    requires norm(50.0, 0.0) == 50.0 && norm(-50.0, 0.0) == 50.0
    ensures DeriveGestureControl([Touch(0.0, 0.0), Touch(100.0, 0.0)], Viewport(1000.0, 1000.0), norm)
         == Some(Snapshot(2, Point(50.0, 0.0), Point(0.05, 0.0), Some(0.05), None))
  {
    var ts := [Touch(0.0, 0.0), Touch(100.0, 0.0)];
    assert ts[1..][1..] == [];
    assert SumX(ts) == 100.0;
    assert SumY(ts) == 0.0;
    assert SumDistance(ts, 50.0, 0.0, norm) == 100.0;
  }

  // ---------------------------------------------------------------------
  // Classification and event names (processGestureEvent, getControlName)
  // ---------------------------------------------------------------------

  /** The three control flags the handler sets on every event. */
  datatype Flags = Flags(starts: bool, moves: bool, ends: bool)

  /**
   * The flags of lines 81-86: a Move never starts or ends anything, every
   * current snapshot either continues the stored one or starts, and every
   * stored snapshot either continues or ends.
   */
  function Classify(previous: Option<Snapshot>, current: Option<Snapshot>): (f: Flags)
    ensures f.moves ==> !f.starts && !f.ends
    ensures f.starts || f.moves <==> current.Some?
    ensures f.ends || f.moves <==> previous.Some?
    ensures f.moves ==> previous.value.touchCount == current.value.touchCount
  {
    var moves := previous.Some? && current.Some? && current.value.touchCount == previous.value.touchCount;
    Flags(current.Some? && !moves, moves, previous.Some? && !moves)
  }

  /** The five situations an event can meet, and the flags each one raises. */
  lemma ClassifyCases(previous: Option<Snapshot>, current: Option<Snapshot>)
    ensures var f := Classify(previous, current);
      && (previous.None? && current.None? ==> f == Flags(false, false, false))
      && (previous.None? && current.Some? ==> f == Flags(true, false, false))
      && (previous.Some? && current.None? ==> f == Flags(false, false, true))
      && ((previous.Some? && current.Some? && previous.value.touchCount == current.value.touchCount)
            ==> f == Flags(false, true, false))
      && ((previous.Some? && current.Some? && previous.value.touchCount != current.value.touchCount)
            ==> f == Flags(true, false, true))
      && (f.moves ==> !f.starts && !f.ends)
  {
  }

  /** `numberNames[Math.min(touchCount, 2) - 1]`. */
  function ControlName(touchCount: nat): (name: string)
    requires touchCount >= 1
    ensures name == (if touchCount == 1 then "rotateControl" else "zoomControl")
  {
    var numberNames := ["rotateControl", "zoomControl"];
    numberNames[(if touchCount < 2 then touchCount else 2) - 1]
  }

  datatype Phase = Start | Move | End

  function PhaseSuffix(phase: Phase): string {
    match phase
    case Start => "Start"
    case Move => "Move"
    case End => "End"
  }

  function EventName(touchCount: nat, phase: Phase): string
    requires touchCount >= 1
  {
    ControlName(touchCount) + PhaseSuffix(phase)
  }

  /** One finger drives rotation; two or more drive zoom. */
  predicate IsZoom(touchCount: nat) {
    touchCount >= 2
  }

  /** The six event names, written out. */
  function LiteralName(zoom: bool, phase: Phase): string {
    match phase
    case Start => if zoom then "zoomControlStart" else "rotateControlStart"
    case Move => if zoom then "zoomControlMove" else "rotateControlMove"
    case End => if zoom then "zoomControlEnd" else "rotateControlEnd"
  }

  lemma EventNameLiteral(touchCount: nat, phase: Phase)
    requires touchCount >= 1
    ensures EventName(touchCount, phase) == LiteralName(IsZoom(touchCount), phase)
  {
    var name := EventName(touchCount, phase);
    var literal := LiteralName(IsZoom(touchCount), phase);
    assert |name| == |literal|;
    forall i | 0 <= i < |name| ensures name[i] == literal[i] {
    }
  }

  /** An event name tells the kind and the phase apart, and nothing else. */
  lemma EventNamesDistinguish(a: nat, p: Phase, b: nat, q: Phase)
    requires a >= 1 && b >= 1
    ensures EventName(a, p) == EventName(b, q) <==> IsZoom(a) == IsZoom(b) && p == q
  {
    EventNameLiteral(a, p);
    EventNameLiteral(b, q);
    var x, y := LiteralName(IsZoom(a), p), LiteralName(IsZoom(b), q);
    if IsZoom(a) != IsZoom(b) || p != q {
      // the names differ in their length or in their first character
      assert |x| != |y| || x[0] != y[0];
    }
  }

  // ---------------------------------------------------------------------
  // One touch event (processGestureEvent)
  // ---------------------------------------------------------------------

  /** The payload of an emitted event: a snapshot, or for Move the changes and the merged snapshot. */
  datatype Payload =
    | StatePayload(state: Snapshot)
    | MoveDetail(positionChange: Point, spreadChange: Option<real>, state: Snapshot)

  datatype Event = Event(name: string, payload: Payload)

  /** The handler's own state: the stored snapshot, the three flags, the move counter, the click suppression flag, and the number of 100 ms clear timers not yet fired. */
  datatype EngineState = EngineState(
    previousState: Option<Snapshot>,
    flags: Flags,
    movesCount: nat,
    isGestureControlOn: bool,
    pendingClears: nat)

  datatype Outcome = Outcome(state: EngineState, events: seq<Event>)

  /** A stored snapshot is consistent and carries the anchor of the Start that stored it. */
  predicate WellFormed(e: EngineState) {
    e.previousState.Some? ==> Consistent(e.previousState.value) && e.previousState.value.start.Some?
  }

  const Idle := EngineState(None, Flags(false, false, false), 0, false, 0)

  /** The fields written on the snapshot that opens an episode. */
  function Stamp(s: Snapshot, now: real): (r: Snapshot)
    ensures r.start == Some(Anchor(now, s.position, s.spread))
    ensures r.(start := s.start) == s
    ensures Consistent(s) ==> Consistent(r)
  {
    s.(start := Some(Anchor(now, s.position, s.spread)))
  }

  /** `Object.assign(previous, current)`: the properties `current` has overwrite those of `previous`. */
  function Merge(previous: Snapshot, current: Snapshot): (r: Snapshot)
    ensures r.touchCount == current.touchCount && r.positionRaw == current.positionRaw && r.position == current.position
    ensures current.spread.Some? ==> r.spread == current.spread
    ensures current.spread.None? ==> r.spread == previous.spread
    ensures current.start.None? ==> r.start == previous.start
    ensures Consistent(previous) && Consistent(current) && previous.touchCount == current.touchCount
            ==> Consistent(r)
  {
    Snapshot(current.touchCount, current.positionRaw, current.position,
             if current.spread.Some? then current.spread else previous.spread,
             if current.start.Some? then current.start else previous.start)
  }

  function Delta(a: Point, b: Point): Point {
    Point(a.x - b.x, a.y - b.y)
  }

  /** Present only when the current spread is truthy, that is present and non-zero. */
  function SpreadChange(previous: Snapshot, current: Snapshot): (r: Option<real>)
    requires current.spread.Some? ==> previous.spread.Some?
    ensures r.Some? <==> current.spread.Some? && current.spread.value != 0.0
    ensures r.Some? ==> previous.spread.value + r.value == current.spread.value
  {
    if current.spread.Some? && current.spread.value != 0.0 then
      Some(current.spread.value - previous.spread.value)
    else None
  }

  /**
   * The state and the emitted events after one touch event, stated case by
   * case: a Move replaces nothing and emits one event; otherwise a Start is
   * emitted first when a current snapshot exists, an End of the stored
   * snapshot after it when one was stored, and the stored snapshot is the
   * stamped current one only when nothing ended.
   */
  function Step(e: EngineState, current: Option<Snapshot>, now: real): (o: Outcome)
    requires WellFormed(e)
    requires current.Some? ==> Derived(current.value)
    ensures WellFormed(o.state)
  {
    var f := Classify(e.previousState, current);
    if f.moves then
      var previous, cur := e.previousState.value, current.value;
      var merged := Merge(previous, cur);
      var count := e.movesCount + 1;
      Outcome(
        EngineState(Some(merged), f, count, e.isGestureControlOn || count > 2, e.pendingClears),
        [Event(EventName(cur.touchCount, Move),
               MoveDetail(Delta(cur.position, previous.position), SpreadChange(previous, cur), merged))])
    else
      var starts :=
        if f.starts then [Event(EventName(current.value.touchCount, Start), StatePayload(Stamp(current.value, now)))]
        else [];
      var ends :=
        if f.ends then [Event(EventName(e.previousState.value.touchCount, End), StatePayload(e.previousState.value))]
        else [];
      Outcome(
        EngineState(
          if f.starts && !f.ends then Some(Stamp(current.value, now)) else None,
          f,
          if f.starts then 0 else e.movesCount,
          e.isGestureControlOn,
          if f.ends then e.pendingClears + 1 else e.pendingClears),
        starts + ends)
  }

  /** A first touch opens an episode: one Start carrying the stamped snapshot, which is stored. */
  lemma StepOnStart(e: EngineState, current: Snapshot, now: real)
    requires WellFormed(e) && e.previousState.None? && Derived(current)
    ensures var o := Step(e, Some(current), now);
      && o.events == [Event(EventName(current.touchCount, Start), StatePayload(Stamp(current, now)))]
      && o.state.previousState == Some(Stamp(current, now))
      && o.state.previousState.value.start == Some(Anchor(now, current.position, current.spread))
      && o.state.movesCount == 0
      && o.state.isGestureControlOn == e.isGestureControlOn
      && o.state.pendingClears == e.pendingClears
  {
  }

  /** Lifting every finger ends the episode, clears the snapshot and arms one clear timer. */
  lemma StepOnRelease(e: EngineState, now: real)
    requires WellFormed(e) && e.previousState.Some?
    ensures var o := Step(e, None, now);
      && o.events == [Event(EventName(e.previousState.value.touchCount, End), StatePayload(e.previousState.value))]
      && o.state.previousState.None?
      && o.state.movesCount == e.movesCount
      && o.state.isGestureControlOn == e.isGestureControlOn
      && o.state.pendingClears == e.pendingClears + 1
  {
  }

  /** No touch before and none now: nothing is emitted and nothing but the flags changes. */
  lemma StepWhileIdle(e: EngineState, now: real)
    requires WellFormed(e) && e.previousState.None?
    ensures Step(e, None, now) == Outcome(e.(flags := Flags(false, false, false)), [])
  {
  }

  /**
   * A change of touch count with a snapshot stored emits the new kind's
   * Start and then the old kind's End, resets the move counter, and leaves
   * no snapshot stored: the Start just emitted is forgotten.
   */
  lemma StepOnCountChange(e: EngineState, current: Snapshot, now: real)
    requires WellFormed(e) && e.previousState.Some? && Derived(current)
    requires current.touchCount != e.previousState.value.touchCount
    ensures var o := Step(e, Some(current), now);
      && o.events == [Event(EventName(current.touchCount, Start), StatePayload(Stamp(current, now))),
                      Event(EventName(e.previousState.value.touchCount, End), StatePayload(e.previousState.value))]
      && o.state.previousState.None?
      && o.state.movesCount == 0
      && o.state.pendingClears == e.pendingClears + 1
  {
  }

  /** Because the Start of a count change is forgotten, the next event with the same count emits a Start again. */
  lemma CountChangeStartsTwice(e: EngineState, first: Snapshot, second: Snapshot, t1: real, t2: real)
    requires WellFormed(e) && e.previousState.Some? && Derived(first) && Derived(second)
    requires first.touchCount != e.previousState.value.touchCount
    requires second.touchCount == first.touchCount
    ensures var o1 := Step(e, Some(first), t1);
            var o2 := Step(o1.state, Some(second), t2);
      && o1.events[0].name == EventName(first.touchCount, Start)
      && o2.events == [Event(EventName(second.touchCount, Start), StatePayload(Stamp(second, t2)))]
      && o2.state.previousState == Some(Stamp(second, t2))
  {
  }

  /** Going from three fingers to two emits a zoom Start and a zoom End on the same event. */
  lemma ThreeToTwoFingersStartsAndEndsZoom(e: EngineState, current: Snapshot, now: real)
    requires WellFormed(e) && e.previousState.Some? && e.previousState.value.touchCount == 3
    requires Derived(current) && current.touchCount == 2
    ensures Step(e, Some(current), now).events == [
      Event("zoomControlStart", StatePayload(Stamp(current, now))),
      Event("zoomControlEnd", StatePayload(e.previousState.value))]
  {
    EventNameLiteral(2, Start);
    EventNameLiteral(3, End);
  }

  /**
   * A Move reports the change of position and, when the current spread is
   * non-zero, of spread; the stored snapshot takes the current fields and
   * keeps the Start's anchor; the counter rises by one and suppression is
   * switched on once it passes two.
   */
  lemma StepOnMove(e: EngineState, current: Snapshot, now: real)
    requires WellFormed(e) && e.previousState.Some? && Derived(current)
    requires current.touchCount == e.previousState.value.touchCount
    ensures var previous := e.previousState.value;
            var o := Step(e, Some(current), now);
      && |o.events| == 1
      && o.events[0].name == EventName(current.touchCount, Move)
      && o.events[0].payload.MoveDetail?
      && o.events[0].payload.positionChange == Point(current.position.x - previous.position.x,
                                                     current.position.y - previous.position.y)
      && (o.events[0].payload.spreadChange.Some? <==> current.spread.Some? && current.spread.value != 0.0)
      && (o.events[0].payload.spreadChange.Some? ==>
            o.events[0].payload.spreadChange.value == current.spread.value - previous.spread.value)
      && o.state.previousState.Some?
      && o.events[0].payload.state == o.state.previousState.value
      && o.state.previousState.value.touchCount == current.touchCount
      && o.state.previousState.value.position == current.position
      && o.state.previousState.value.spread == current.spread
      && o.state.previousState.value.start == previous.start
      && o.state.movesCount == e.movesCount + 1
      && o.state.isGestureControlOn == (e.isGestureControlOn || e.movesCount + 1 > 2)
      && o.state.pendingClears == e.pendingClears
  {
  }

  // ---------------------------------------------------------------------
  // Runs of touch events
  // ---------------------------------------------------------------------

  /** One touch event: its derived snapshot and the value of `performance.now()`. */
  datatype Input = Input(current: Option<Snapshot>, now: real)

  predicate AllDerived(inputs: seq<Input>) {
    forall i | 0 <= i < |inputs| :: inputs[i].current.Some? ==> Derived(inputs[i].current.value)
  }

  /** The handler applied to the events one after another, and everything they emit in order. */
  function Run(e: EngineState, inputs: seq<Input>): (o: Outcome)
    requires WellFormed(e) && AllDerived(inputs)
    ensures WellFormed(o.state)
    decreases |inputs|
  {
    if |inputs| == 0 then Outcome(e, [])
    else
      var first := Step(e, inputs[0].current, inputs[0].now);
      var rest := Run(first.state, inputs[1..]);
      Outcome(rest.state, first.events + rest.events)
  }

  /** Every event holds a snapshot with the given touch count. */
  predicate SameCount(inputs: seq<Input>, count: nat) {
    forall i | 0 <= i < |inputs| ::
      inputs[i].current.Some? && Derived(inputs[i].current.value) && inputs[i].current.value.touchCount == count
  }

  /** The horizontal position changes reported by the Move events, added up. */
  function TotalPositionChangeX(events: seq<Event>): real {
    if |events| == 0 then 0.0
    else (if events[0].payload.MoveDetail? then events[0].payload.positionChange.x else 0.0)
         + TotalPositionChangeX(events[1..])
  }

  /**
   * While the touch count stays the same every event is a Move: the anchor
   * of the Start survives, the counter counts the Moves, suppression is on
   * exactly when the counter has passed two, and the reported horizontal
   * changes add up to the distance from the first stored position to the
   * last.
   */
  lemma {:induction false} MoveRun(e: EngineState, inputs: seq<Input>)
    requires WellFormed(e) && e.previousState.Some?
    requires SameCount(inputs, e.previousState.value.touchCount)
    ensures AllDerived(inputs)
    ensures var o := Run(e, inputs);
      && |o.events| == |inputs|
      && (forall i | 0 <= i < |o.events| ::
            o.events[i].name == EventName(e.previousState.value.touchCount, Move) && o.events[i].payload.MoveDetail?)
      && o.state.previousState.Some?
      && o.state.previousState.value.touchCount == e.previousState.value.touchCount
      && o.state.previousState.value.start == e.previousState.value.start
      && (|inputs| > 0 ==> o.state.previousState.value.position == inputs[|inputs| - 1].current.value.position)
      && o.state.movesCount == e.movesCount + |inputs|
      && o.state.isGestureControlOn == (e.isGestureControlOn || (|inputs| > 0 && e.movesCount + |inputs| > 2))
      && o.state.pendingClears == e.pendingClears
      && TotalPositionChangeX(o.events) == o.state.previousState.value.position.x - e.previousState.value.position.x
    decreases |inputs|
  {
    if |inputs| > 0 {
      var first := Step(e, inputs[0].current, inputs[0].now);
      StepOnMove(e, inputs[0].current.value, inputs[0].now);
      assert SameCount(inputs[1..], e.previousState.value.touchCount) by {
        forall i | 0 <= i < |inputs[1..]|
          ensures inputs[1..][i].current.Some? && Derived(inputs[1..][i].current.value)
               && inputs[1..][i].current.value.touchCount == e.previousState.value.touchCount
        {
          assert inputs[1..][i] == inputs[i + 1];
        }
      }
      MoveRun(first.state, inputs[1..]);
      var rest := Run(first.state, inputs[1..]);
      var all := first.events + rest.events;
      assert all[1..] == rest.events;
      assert forall i | 1 <= i < |all| :: all[i] == rest.events[i - 1];
      if |inputs| > 1 {
        assert inputs[1..][|inputs[1..]| - 1] == inputs[|inputs| - 1];
      }
    }
  }

  /** Clicks go to the interaction callback only when no gesture suppresses them and a callback was given. */
  predicate ClickInvokes(isGestureControlOn: bool, hasCallback: bool) {
    !isGestureControlOn && hasCallback
  }

  /**
   * From a stored-nothing state, one touch event that opens an episode followed
   * by same-count events switches suppression on exactly at the third Move,
   * after which a click reaches no callback.
   */
  lemma SuppressionFromThirdMove(e: EngineState, inputs: seq<Input>, hasCallback: bool)
    requires WellFormed(e) && e.previousState.None? && !e.isGestureControlOn
    requires |inputs| >= 1 && inputs[0].current.Some? && Derived(inputs[0].current.value)
    requires SameCount(inputs[1..], inputs[0].current.value.touchCount)
    ensures AllDerived(inputs)
    ensures var o := Run(e, inputs);
      && o.state.movesCount == |inputs| - 1
      && (o.state.isGestureControlOn <==> |inputs| - 1 >= 3)
      && (|inputs| - 1 >= 3 ==> !ClickInvokes(o.state.isGestureControlOn, hasCallback))
  {
    var first := Step(e, inputs[0].current, inputs[0].now);
    StepOnStart(e, inputs[0].current.value, inputs[0].now);
    MoveRun(first.state, inputs[1..]);
    assert AllDerived(inputs) by {
      forall i | 0 <= i < |inputs| && inputs[i].current.Some? ensures Derived(inputs[i].current.value) {
        if i > 0 { assert inputs[i] == inputs[1..][i - 1]; }
      }
    }
  }

  /** The pending 100 ms timer of an earlier End firing: suppression is switched off. */
  function TimerFires(e: EngineState): (r: EngineState)
    requires e.pendingClears > 0
    ensures r.pendingClears < e.pendingClears && !r.isGestureControlOn
    ensures r.previousState == e.previousState && r.movesCount == e.movesCount
  {
    e.(isGestureControlOn := false, pendingClears := e.pendingClears - 1)
  }

  /**
   * The source never cancels the clear timer: if an End's timer fires while a
   * later episode is in progress, clicks pass again until the next Move.
   */
  lemma StaleTimerReenablesClicksMidGesture(e: EngineState, current: Snapshot, now: real)
    requires WellFormed(e) && e.previousState.Some? && e.pendingClears > 0 && Derived(current)
    requires current.touchCount == e.previousState.value.touchCount && e.movesCount >= 2
    ensures var cleared := TimerFires(e);
      && cleared.previousState.Some?
      && ClickInvokes(cleared.isGestureControlOn, true)
      && !ClickInvokes(Step(cleared, Some(current), now).state.isGestureControlOn, true)
  {
    StepOnMove(TimerFires(e), current, now);
  }

  // ---------------------------------------------------------------------
  // Effector arithmetic (controlRotation, controlScale)
  // ---------------------------------------------------------------------

  datatype Vec3 = Vec3(x: real, y: real, z: real)

  /** Each axis of `v` multiplied by `f`. */
  function ScaledBy(f: real, v: Vec3): Vec3 {
    Vec3(f * v.x, f * v.y, f * v.z)
  }

  /**
   * `Math.min(hi, Math.max(x, lo))`: within the bounds when they are ordered
   * (and `x` itself when it already lies between them), `hi` when they are not.
   */
  function Clamp(x: real, lo: real, hi: real): (r: real)
    ensures lo <= hi ==> lo <= r <= hi
    ensures lo <= x <= hi ==> r == x
    ensures lo <= hi && x < lo ==> r == lo
    ensures x > hi ==> r == hi
    ensures hi < lo ==> r == hi
  {
    MathMin(hi, MathMax(x, lo))
  }

  /** The scale factor after one zoom Move: multiplied by 1 + spreadChange / startSpread, then clamped. */
  function NextScaleFactor(factor: real, spreadChange: real, startSpread: real, lo: real, hi: real): (r: real)
    requires startSpread != 0.0
    ensures lo <= hi ==> lo <= r <= hi
    ensures hi < lo ==> r == hi
  {
    Clamp(factor * (1.0 + spreadChange / startSpread), lo, hi)
  }

  /** A pinch from a start spread of 0.05 to a spread of 0.06 scales by 1.2. */
  lemma PinchExample(previous: Snapshot, current: Snapshot)
    requires previous.spread == Some(0.05) && current.spread == Some(0.06)
    ensures SpreadChange(previous, current) == Some(0.01)
    ensures NextScaleFactor(1.0, 0.01, 0.05, 0.5, 10.0) == 1.2
  {
  }

  /** The spread change and start spread a zoom Move hands to the scale effector. */
  datatype ZoomStep = ZoomStep(spreadChange: real, startSpread: real)

  predicate NonZeroStarts(steps: seq<ZoomStep>) {
    forall i | 0 <= i < |steps| :: steps[i].startSpread != 0.0
  }

  function ScaleAfter(factor: real, steps: seq<ZoomStep>, lo: real, hi: real): real
    requires NonZeroStarts(steps)
    decreases |steps|
  {
    if |steps| == 0 then factor
    else ScaleAfter(NextScaleFactor(factor, steps[0].spreadChange, steps[0].startSpread, lo, hi), steps[1..], lo, hi)
  }

  /** Whatever zoom Moves arrive, the scale factor ends between the bounds once one has been applied. */
  lemma {:induction false} ScaleStaysInBounds(factor: real, steps: seq<ZoomStep>, lo: real, hi: real)
    requires NonZeroStarts(steps) && lo <= hi
    requires |steps| > 0 || lo <= factor <= hi
    ensures lo <= ScaleAfter(factor, steps, lo, hi) <= hi
    decreases |steps|
  {
    if |steps| > 0 {
      var next := NextScaleFactor(factor, steps[0].spreadChange, steps[0].startSpread, lo, hi);
      assert NonZeroStarts(steps[1..]) by {
        forall i | 0 <= i < |steps[1..]| ensures steps[1..][i].startSpread != 0.0 {
          assert steps[1..][i] == steps[i + 1];
        }
      }
      ScaleStaysInBounds(next, steps[1..], lo, hi);
    }
  }

  /** The y angle after the rotation effector has seen `events`: each rotate Move adds positionChange.x * factor. */
  function RotationAfter(angle: real, events: seq<Event>, factor: real): real
    decreases |events|
  {
    if |events| == 0 then angle
    else
      var next :=
        if events[0].name == "rotateControlMove" && events[0].payload.MoveDetail? then
          angle + events[0].payload.positionChange.x * factor
        else angle;
      RotationAfter(next, events[1..], factor)
  }

  lemma {:induction false} RotationAfterMoves(angle: real, events: seq<Event>, factor: real)
    requires forall i | 0 <= i < |events| :: events[i].name == "rotateControlMove" && events[i].payload.MoveDetail?
    ensures RotationAfter(angle, events, factor) == angle + TotalPositionChangeX(events) * factor
    decreases |events|
  {
    if |events| > 0 {
      var next := angle + events[0].payload.positionChange.x * factor;
      RotationAfterMoves(next, events[1..], factor);
    }
  }

  /**
   * A one-finger drag turns the target by the horizontal distance the
   * finger travelled times the rotation factor, however the drag was split
   * into events.
   */
  lemma DragRotation(e: EngineState, inputs: seq<Input>, angle: real, factor: real)
    requires WellFormed(e) && e.previousState.Some? && e.previousState.value.touchCount == 1
    requires SameCount(inputs, 1) && |inputs| > 0
    ensures AllDerived(inputs)
    ensures RotationAfter(angle, Run(e, inputs).events, factor)
         == angle + (inputs[|inputs| - 1].current.value.position.x - e.previousState.value.position.x) * factor
  {
    MoveRun(e, inputs);
    var o := Run(e, inputs);
    assert EventName(1, Move) == "rotateControlMove";
    RotationAfterMoves(angle, o.events, factor);
  }
}
