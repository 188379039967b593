/**
 * The GestureControl object: the touch handler and its three receivers as
 * a class whose fields the handler updates in place. Every method is tied to
 * the value-level rules of GestureRules.
 */
module Gestures {
  import opened Wrappers
  import opened GestureRules
  import opened JsMath

  /** The parts of an entity's `object3D` the receivers write. */
  class Object3D {
    var rotation: Vec3
    var scale: Vec3

    constructor (rotation: Vec3, scale: Vec3)
      ensures this.rotation == rotation && this.scale == scale
    {
      this.rotation := rotation;
      this.scale := scale;
    }
  }

  class GestureControl {
    /** The length of a vector, `Math.sqrt` of the sum of the squares. */
    const norm: (real, real) -> real

    var rotationFactor: real
    var gestureScaleMin: real
    var gestureScaleMax: real
    /** Whether an interaction callback was given. */
    var hasInteractionCallback: bool

    var previousState: Option<Snapshot>
    var controlStarts: bool
    var controlMoves: bool
    var controlEnds: bool
    var movesCount: nat
    var isGestureControlOn: bool
    /** The 100 ms timers armed by an End and not yet fired. */
    var pendingClears: nat
    /** Every event emitted on the scene, in order. */
    ghost var emitted: seq<Event>

    /** The gesture receiver's entity, once one is attached. */
    var target: Object3D?
    var initialScale: Vec3
    var scaleFactor: real

    /** The handler's state as a value. */
    function State(): EngineState
      reads this
    {
      EngineState(previousState, Flags(controlStarts, controlMoves, controlEnds), movesCount,
                  isGestureControlOn, pendingClears)
    }

    /** A stored snapshot is well formed, and a Move never also starts or ends anything. */
    predicate Valid()
      reads this
    {
      WellFormed(State()) && (controlMoves ==> !controlStarts && !controlEnds)
    }

    /** The object as built: no flag set, no move counted, no callback, no snapshot stored. */
    constructor (norm: (real, real) -> real)
      ensures Valid()
      ensures this.norm == norm
      ensures State() == Idle && emitted == []
      ensures !hasInteractionCallback && target == null
    {
      this.norm := norm;
      previousState := None;
      controlStarts, controlMoves, controlEnds := false, false, false;
      movesCount := 0;
      isGestureControlOn := false;
      pendingClears := 0;
      emitted := [];
      hasInteractionCallback := false;
      target := null;
      rotationFactor, gestureScaleMin, gestureScaleMax := 5.0, 0.5, 10.0;
      initialScale := Vec3(1.0, 1.0, 1.0);
      scaleFactor := 1.0;
    }

    /** `initialize`: the settings, with the source's defaults. */
    method Initialize(rotationFactor: real := 5.0, gestureScaleMin: real := 0.5, gestureScaleMax: real := 10.0,
                      hasInteractionCallback: bool := false)
      modifies this`rotationFactor, this`gestureScaleMin, this`gestureScaleMax, this`hasInteractionCallback
      ensures this.rotationFactor == rotationFactor
      ensures this.gestureScaleMin == gestureScaleMin && this.gestureScaleMax == gestureScaleMax
      ensures this.hasInteractionCallback == hasInteractionCallback
    {
      this.rotationFactor := rotationFactor;
      this.gestureScaleMin := gestureScaleMin;
      this.gestureScaleMax := gestureScaleMax;
      this.hasInteractionCallback := hasInteractionCallback;
    }

    /** The init of the `gesture-control` component: the stored snapshot is reset, nothing else. */
    method AttachGestureControl()
      requires Valid()
      modifies this`previousState
      ensures Valid()
      ensures previousState == None
    {
      previousState := None;
    }

    /**
     * `deriveGestureControl`: the sums are folded left to right over the
     * touches as the `reduce` calls do, and the result is the snapshot the
     * rules define.
     */
    method DeriveSnapshot(touches: seq<Touch>, view: Viewport) returns (r: Option<Snapshot>)
      requires |touches| > 0 ==> ScreenSized(view)
      ensures r == DeriveGestureControl(touches, view, norm)
    {
      if |touches| == 0 {
        return None;
      }
      var positionRaw := CenterPositionRaw(touches);
      var screenScale := 2.0 / (view.innerWidth + view.innerHeight);
      assert screenScale == ScreenScale(view);
      var position := Point(positionRaw.x * screenScale, positionRaw.y * screenScale);
      var spread: Option<real> := None;
      if |touches| >= 2 {
        var mean := MeanDistanceTo(touches, positionRaw);
        spread := Some(mean * screenScale);
      }
      assert position == Scaled(Centroid(touches), ScreenScale(view));
      assert spread == SpreadOf(touches, view, norm) by {
        if |touches| >= 2 {
          assert spread.value == Times(MeanDistance(touches, Centroid(touches), norm), ScreenScale(view));
        }
      }
      r := Some(Snapshot(|touches|, positionRaw, position, spread, None));
    }

    /** The mean of the touch coordinates, each coordinate summed left to right. */
    method CenterPositionRaw(touches: seq<Touch>) returns (c: Point)
      requires |touches| > 0
      ensures c == Centroid(touches)
    {
      var sumX, sumY := 0.0, 0.0;
      var i := 0;
      while i < |touches|
        invariant 0 <= i <= |touches|
        invariant sumX == SumX(touches[..i]) && sumY == SumY(touches[..i])
      {
        SumsAppend(touches[..i], touches[i], 0.0, 0.0, norm);
        assert touches[..i + 1] == touches[..i] + [touches[i]];
        sumX, sumY := sumX + touches[i].clientX, sumY + touches[i].clientY;
        i := i + 1;
      }
      assert touches[..i] == touches;
      c := Point(sumX / (|touches| as real), sumY / (|touches| as real));
    }

    /** The mean distance from `center` to the touches, the distances summed left to right. */
    method MeanDistanceTo(touches: seq<Touch>, center: Point) returns (mean: real)
      requires |touches| > 0
      ensures mean == MeanDistance(touches, center, norm)
    {
      var sum := 0.0;
      var i := 0;
      while i < |touches|
        invariant 0 <= i <= |touches|
        invariant sum == SumDistance(touches[..i], center.x, center.y, norm)
      {
        SumsAppend(touches[..i], touches[i], center.x, center.y, norm);
        assert touches[..i + 1] == touches[..i] + [touches[i]];
        sum := sum + norm(center.x - touches[i].clientX, center.y - touches[i].clientY);
        i := i + 1;
      }
      assert touches[..i] == touches;
      mean := sum / (|touches| as real);
    }

    /** `processGestureEvent`: the snapshot of the event, then its handling. */
    method ProcessGestureEvent(touches: seq<Touch>, view: Viewport, now: real)
      requires Valid() && (|touches| > 0 ==> ScreenSized(view))
      modifies this`previousState, this`controlStarts, this`controlMoves, this`controlEnds, this`movesCount,
               this`isGestureControlOn, this`pendingClears, this`emitted
      ensures Valid()
      ensures var o := Step(old(State()), DeriveGestureControl(touches, view, norm), now);
        State() == o.state && emitted == old(emitted) + o.events
    {
      var currentState := DeriveSnapshot(touches, view);
      HandleSnapshot(currentState, now);
    }

    /**
     * The body of `processGestureEvent` after the snapshot is derived: the
     * three flags are set, then a Start, a Move and an End are handled in
     * that order, each when its flag is set. The new state and the emitted
     * events are those of one `Step`.
     */
    method HandleSnapshot(currentState: Option<Snapshot>, now: real)
      requires Valid() && (currentState.Some? ==> Derived(currentState.value))
      modifies this`previousState, this`controlStarts, this`controlMoves, this`controlEnds, this`movesCount,
               this`isGestureControlOn, this`pendingClears, this`emitted
      ensures Valid()
      ensures var o := Step(old(State()), currentState, now);
        State() == o.state && emitted == old(emitted) + o.events
    {
      var previous := previousState;

      controlMoves := previous.Some? && currentState.Some? && currentState.value.touchCount == previous.value.touchCount;
      controlEnds := previous.Some? && !controlMoves;
      controlStarts := currentState.Some? && !controlMoves;

      if controlStarts {
        EmitStart(currentState.value, now);
      }
      if controlMoves {
        EmitMove(previous.value, currentState.value);
      }
      if controlEnds {
        EmitEnd(previous.value);
      }
    }

    /** The Start block: the snapshot gets its anchor, is emitted and stored, and the move counter restarts. */
    method EmitStart(current: Snapshot, now: real)
      requires Derived(current)
      modifies this`previousState, this`movesCount, this`emitted
      ensures previousState == Some(Stamp(current, now)) && movesCount == 0
      ensures emitted == old(emitted) + [Event(EventName(current.touchCount, Start), StatePayload(Stamp(current, now)))]
    {
      var stamped := current.(start := Some(Anchor(now, current.position, current.spread)));
      emitted := emitted + [Event(EventName(stamped.touchCount, Start), StatePayload(stamped))];
      previousState := Some(stamped);
      movesCount := 0;
    }

    /**
     * The Move block: the counter rises and past two switches suppression
     * on; the changes are reported with the merged snapshot, which is stored.
     */
    method EmitMove(previous: Snapshot, current: Snapshot)
      requires Consistent(previous) && Derived(current) && current.touchCount == previous.touchCount
      modifies this`previousState, this`movesCount, this`isGestureControlOn, this`emitted
      ensures movesCount == old(movesCount) + 1
      ensures isGestureControlOn == (old(isGestureControlOn) || movesCount > 2)
      ensures previousState == Some(Merge(previous, current))
      ensures emitted == old(emitted) + [Event(EventName(current.touchCount, Move),
        MoveDetail(Delta(current.position, previous.position), SpreadChange(previous, current), Merge(previous, current)))]
    {
      movesCount := movesCount + 1;
      if movesCount > 2 {
        isGestureControlOn := true;
      }
      var positionChange := Point(current.position.x - previous.position.x, current.position.y - previous.position.y);
      var spreadChange: Option<real> := None;
      if current.spread.Some? && current.spread.value != 0.0 {
        spreadChange := Some(current.spread.value - previous.spread.value);
      }
      var merged := Merge(previous, current);
      previousState := Some(merged);
      emitted := emitted + [Event(EventName(current.touchCount, Move), MoveDetail(positionChange, spreadChange, merged))];
    }

    /** The End block: the stored snapshot is emitted and dropped, and a clear timer is armed. */
    method EmitEnd(previous: Snapshot)
      requires Consistent(previous)
      modifies this`previousState, this`pendingClears, this`emitted
      ensures previousState == None && pendingClears == old(pendingClears) + 1
      ensures emitted == old(emitted) + [Event(EventName(previous.touchCount, End), StatePayload(previous))]
    {
      emitted := emitted + [Event(EventName(previous.touchCount, End), StatePayload(previous))];
      previousState := None;
      pendingClears := pendingClears + 1;
    }

    /** One pending 100 ms timer fires: clicks are no longer suppressed. */
    method FireClearTimer()
      requires Valid() && pendingClears > 0
      modifies this`isGestureControlOn, this`pendingClears
      ensures Valid()
      ensures State() == TimerFires(old(State()))
    {
      isGestureControlOn := false;
      pendingClears := pendingClears - 1;
    }

    /** The `interact-receiver` click handler: the callback gets the clicked element unless a gesture suppresses it. */
    method Click(element: nat) returns (invokedWith: Option<nat>)
      ensures invokedWith.Some? <==> ClickInvokes(isGestureControlOn, hasInteractionCallback)
      ensures invokedWith.Some? ==> invokedWith.value == element
    {
      invokedWith := None;
      if !isGestureControlOn {
        if hasInteractionCallback {
          invokedWith := Some(element);
        }
      }
    }

    /** The init of the `gesture-receiver` component: the entity becomes the target and its scale the initial one. */
    method AttachReceiver(el: Object3D)
      requires Valid()
      modifies this`target, this`initialScale, this`scaleFactor
      ensures Valid()
      ensures target == el && initialScale == el.scale && scaleFactor == 1.0
    {
      target := el;
      initialScale := el.scale;
      scaleFactor := 1.0;
    }

    /** `controlRotation`: the target turns about y by the horizontal change times the rotation factor. */
    method ControlRotation(positionChangeX: real)
      requires target != null
      modifies target
      ensures target.rotation == old(target.rotation).(y := old(target.rotation.y) + positionChangeX * rotationFactor)
      ensures target.scale == old(target.scale)
    {
      target.rotation := target.rotation.(y := target.rotation.y + positionChangeX * rotationFactor);
    }

    /** `controlScale`: the factor is multiplied by the relative spread change, clamped, and applied to the initial scale. */
    method ControlScale(spreadChange: real, startSpread: real)
      requires target != null && startSpread != 0.0
      modifies this`scaleFactor, target
      ensures scaleFactor == NextScaleFactor(old(scaleFactor), spreadChange, startSpread, gestureScaleMin, gestureScaleMax)
      ensures gestureScaleMin <= gestureScaleMax ==> gestureScaleMin <= scaleFactor <= gestureScaleMax
      ensures target.scale == ScaledBy(scaleFactor, initialScale)
      ensures target.rotation == old(target.rotation)
    {
      scaleFactor := scaleFactor * (1.0 + spreadChange / startSpread);
      scaleFactor := MathMin(gestureScaleMax, MathMax(scaleFactor, gestureScaleMin));
      var t := target;
      t.scale := t.scale.(x := scaleFactor * initialScale.x);
      t.scale := t.scale.(y := scaleFactor * initialScale.y);
      t.scale := t.scale.(z := scaleFactor * initialScale.z);
    }
  }
}
