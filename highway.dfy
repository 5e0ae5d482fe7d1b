/**
 * The highway scene of autopista/highway.js: a car is dragged, or driven
 * with the keyboard or a gamepad, along a road lined with houses; touching a
 * house opens its information pop-up, and the single `activeCasita` slot
 * says which house's pop-up is open. Rectangles are given in the scroll
 * container's content coordinates: the browser reports client coordinates,
 * which differ from these by the container's origin and scroll offset, the
 * same shift for the car and the houses, so the overlap tests agree.
 */
module Highway {
  import opened Options
  import opened Geometry
  import opened Input
  import opened Search

  /** The drivable band of road1.png, in container pixels from the top. */
  const RoadMinY: real := 340.0
  const RoadMaxY: real := 550.0
  const SpeedMultiplier: real := 5.0
  /** A stick or key delta below this magnitude on both axes is no movement. */
  const MoveThreshold: real := 0.1
  /** axes[5] above this counts as R2 pressed. */
  const TriggerThreshold: real := 0.5
  /** Where the car is put when the scene starts. */
  const StartLeft: real := 50.0
  const StartTop: real := 400.0

  datatype RoadLimits = RoadLimits(minY: real, maxY: real)

  /** getRoadLimits: the band's top, and its bottom less the car's height, so the whole car stays on the road. */
  function GetRoadLimits(carHeight: real): (r: RoadLimits)
    ensures r.minY == RoadMinY
    ensures r.maxY + carHeight == RoadMaxY
  {
    RoadLimits(RoadMinY, RoadMaxY - carHeight)
  }

  /** The layout reads a move needs: the container's scrollable width and the car's size. */
  datatype Layout = Layout(scrollWidth: real, carWidth: real, carHeight: real)

  /** The car's style.left / style.top. */
  datatype Pos = Pos(left: real, top: real)

  /** The car fits in the scene: it is no wider than the scrollable width and no taller than the road band. */
  predicate Fits(layout: Layout)
  {
    layout.carWidth <= layout.scrollWidth && 0.0 <= layout.carHeight <= RoadMaxY - RoadMinY
  }

  /** The whole car lies inside the scene horizontally and on the road vertically. */
  predicate OnRoad(p: Pos, layout: Layout)
  {
    && 0.0 <= p.left && p.left + layout.carWidth <= layout.scrollWidth
    && RoadMinY <= p.top && p.top + layout.carHeight <= RoadMaxY
  }

  /** Both clamps applied by drag and by the game loop's move. */
  function ClampToRoad(left: real, top: real, layout: Layout): (r: Pos)
    ensures Fits(layout) ==> OnRoad(r, layout)
    ensures OnRoad(Pos(left, top), layout) ==> r == Pos(left, top)
  {
    var limits := GetRoadLimits(layout.carHeight);
    Pos(Clamp(left, 0.0, layout.scrollWidth - layout.carWidth), Clamp(top, limits.minY, limits.maxY))
  }

  /** The car's rectangle at a position. */
  function CarRect(p: Pos, layout: Layout): (r: Rect)
    ensures layout.carWidth >= 0.0 && layout.carHeight >= 0.0 ==> r.WellFormed()
  {
    Rect(p.left, p.top, p.left + layout.carWidth, p.top + layout.carHeight)
  }

  /**
   * What checkCollision leaves in the slot: nothing when no house overlaps;
   * otherwise the house already open, or else the first overlapping house.
   */
  function NextActive(active: Option<string>, ids: seq<string>, flags: seq<bool>): (r: Option<string>)
    requires |flags| == |ids|
    ensures r.Some? <==> Any(flags)
    ensures Any(flags) && active.Some? ==> r == active
    ensures Any(flags) && active.None? ==>
      exists k :: 0 <= k < |ids| && flags[k] && r == Some(ids[k]) && forall j :: 0 <= j < k ==> !flags[j]
  {
    if !Any(flags) then None
    else if active.Some? then active
    else Some(ids[FirstTrue(flags).value])
  }

  /** A displacement for one frame. */
  datatype Delta = Delta(dx: real, dy: real)

  /**
   * One axis of a pair of opposite controls: one speed step towards the held
   * one, nothing when both or neither are held.
   */
  predicate OneStep(v: real, minus: bool, plus: bool)
  {
    v == (if plus && !minus then SpeedMultiplier else if minus && !plus then -SpeedMultiplier else 0.0)
  }

  /** The gamepad's share of a frame's movement: the stick scaled by the speed, and the D-pad (buttons 14, 15, 12, 13 for left, right, up, down). */
  function PadDelta(pad: Option<Gamepad>): (r: Delta)
    ensures pad.None? ==> r == Delta(0.0, 0.0)
    ensures pad.Some? ==>
      && OneStep(r.dx - pad.value.stickX * SpeedMultiplier, Button(pad.value, 14), Button(pad.value, 15))
      && OneStep(r.dy - pad.value.stickY * SpeedMultiplier, Button(pad.value, 12), Button(pad.value, 13))
  {
    if pad.None? then Delta(0.0, 0.0)
    else
      var g := pad.value;
      Delta(g.stickX * SpeedMultiplier
              - (if Button(g, 14) then SpeedMultiplier else 0.0) + (if Button(g, 15) then SpeedMultiplier else 0.0),
            g.stickY * SpeedMultiplier
              - (if Button(g, 12) then SpeedMultiplier else 0.0) + (if Button(g, 13) then SpeedMultiplier else 0.0))
  }

  /** The keyboard's share: A and D, W and S, one speed step each. */
  function KeyDelta(keys: map<string, bool>): (r: Delta)
    ensures OneStep(r.dx, Held(keys, "a"), Held(keys, "d"))
    ensures OneStep(r.dy, Held(keys, "w"), Held(keys, "s"))
  {
    Delta((if Held(keys, "d") then SpeedMultiplier else 0.0) - (if Held(keys, "a") then SpeedMultiplier else 0.0),
          (if Held(keys, "s") then SpeedMultiplier else 0.0) - (if Held(keys, "w") then SpeedMultiplier else 0.0))
  }

  /** The gameLoop's input sum for one frame: the gamepad's share plus the keyboard's. */
  function MoveDelta(pad: Option<Gamepad>, keys: map<string, bool>): (r: Delta)
    ensures pad.None? ==> r == KeyDelta(keys)
    ensures pad.Some? ==> r.dx - KeyDelta(keys).dx - pad.value.stickX * SpeedMultiplier in {-SpeedMultiplier, 0.0, SpeedMultiplier}
    ensures pad.Some? ==> r.dy - KeyDelta(keys).dy - pad.value.stickY * SpeedMultiplier in {-SpeedMultiplier, 0.0, SpeedMultiplier}
  {
    Delta(PadDelta(pad).dx + KeyDelta(keys).dx, PadDelta(pad).dy + KeyDelta(keys).dy)
  }

  /** Whether the frame's delta is large enough to move the car. */
  predicate Moves(d: Delta)
  {
    Abs(d.dx) > MoveThreshold || Abs(d.dy) > MoveThreshold
  }

  /**
   * Without a gamepad the car moves exactly when some axis has one of its two
   * keys held and not the other: opposite keys cancel, axis by axis.
   */
  lemma KeyboardMoves(keys: map<string, bool>)
    ensures Moves(MoveDelta(None, keys)) <==> Held(keys, "a") != Held(keys, "d") || Held(keys, "w") != Held(keys, "s")
  {
    var d := MoveDelta(None, keys);
    assert OneStep(d.dx, Held(keys, "a"), Held(keys, "d"));
    assert OneStep(d.dy, Held(keys, "w"), Held(keys, "s"));
  }

  /**
   * Input that closes an open pop-up: WASD, a deflected stick or any gamepad
   * button. Every keyboard input that would move the car, and every D-pad
   * press, is among it.
   */
  predicate CloseInput(keys: map<string, bool>, pad: Option<Gamepad>)
    ensures pad.None? && Moves(MoveDelta(pad, keys)) ==> CloseInput(keys, pad)
    ensures pad.Some? && (Button(pad.value, 12) || Button(pad.value, 13) || Button(pad.value, 14) || Button(pad.value, 15))
            ==> CloseInput(keys, pad)
  {
    Held(keys, "a") || Held(keys, "d") || Held(keys, "w") || Held(keys, "s")
    || (pad.Some? && (StickMoved(pad.value) || AnyPressed(pad.value.buttons)))
  }

  /** The slot after the close-on-input part of the game loop. */
  function AfterCloseInput(active: Option<string>, keys: map<string, bool>, pad: Option<Gamepad>): (r: Option<string>)
    ensures r.Some? ==> r == active
    ensures active.Some? && CloseInput(keys, pad) ==> r.None?
    ensures !CloseInput(keys, pad) ==> r == active
  {
    if active.Some? && CloseInput(keys, pad) then None else active
  }

  /**
   * Closing input empties the slot, but the same frame's collision check
   * fills it again: a pop-up is open after the frame exactly while some house
   * overlaps the car, and input on an open pop-up hands the slot to the first
   * overlapping house, whose pop-up opens anew.
   */
  lemma PopupReopensWhileOverlapping(active: Option<string>, keys: map<string, bool>, pad: Option<Gamepad>,
                                     ids: seq<string>, flags: seq<bool>)
    requires |flags| == |ids|
    ensures NextActive(AfterCloseInput(active, keys, pad), ids, flags).Some? <==> Any(flags)
    ensures active.Some? && CloseInput(keys, pad) && Any(flags) ==>
      NextActive(AfterCloseInput(active, keys, pad), ids, flags) == Some(ids[FirstTrue(flags).value])
  {
  }

  /**
   * The R2 latch: with a gamepad whose axes[5] exists, it follows the trigger
   * through the edge detector; otherwise both comparisons of the code are
   * false and nothing happens.
   */
  function R2Step(down: bool, pad: Option<Gamepad>): (e: Edge)
    ensures e.fire ==> pad.Some? && pad.value.trigger.Some? && pad.value.trigger.value > TriggerThreshold && !down
    ensures pad.None? || pad.value.trigger.None? ==> e == Edge(false, down)
  {
    if pad.Some? && pad.value.trigger.Some? then EdgeStep(down, pad.value.trigger.value > TriggerThreshold)
    else Edge(false, down)
  }

  /** Trigger values over frames with a gamepad connected. */
  function TriggerPresses(values: seq<real>): (r: seq<bool>)
    ensures |r| == |values| && forall k :: 0 <= k < |values| ==> r[k] == (values[k] > TriggerThreshold)
  {
    seq(|values|, k requires 0 <= k < |values| => values[k] > TriggerThreshold)
  }

  /** How often the rev cue fires over a run of trigger values. */
  function R2Cues(down: bool, g: Gamepad, values: seq<real>): nat
    decreases |values|
  {
    if values == [] then 0
    else
      var e := R2Step(down, Some(g.(trigger := Some(values[0]))));
      (if e.fire then 1 else 0) + R2Cues(e.down, g, values[1..])
  }

  /** The R2 cue fires once per press of the trigger past 0.5: once per rising edge. */
  lemma {:induction false} R2CuesOncePerPress(down: bool, g: Gamepad, values: seq<real>)
    ensures R2Cues(down, g, values) == RisingEdges(down, TriggerPresses(values))
    decreases |values|
  {
    if values != [] {
      var e := R2Step(down, Some(g.(trigger := Some(values[0]))));
      R2CuesOncePerPress(e.down, g, values[1..]);
      assert TriggerPresses(values)[1..] == TriggerPresses(values[1..]);
    }
  }

  /** Holding the trigger down over any number of frames fires the cue at most once. */
  lemma HeldTriggerCuesOnce(down: bool, g: Gamepad, values: seq<real>)
    requires forall k :: 0 <= k < |values| ==> values[k] > TriggerThreshold
    ensures R2Cues(down, g, values) == if values == [] || down then 0 else 1
  {
    R2CuesOncePerPress(down, g, values);
    FiresOncePerPress(down, TriggerPresses(values));
    HeldFiresOnce(down, TriggerPresses(values));
  }

  /** Part 3a of gameLoop: the frame's input sum, gamepad first, then WASD. */
  method InputDelta(pad: Option<Gamepad>, keys: map<string, bool>) returns (d: Delta)
    ensures d == MoveDelta(pad, keys)
    ensures pad.None? ==> OneStep(d.dx, Held(keys, "a"), Held(keys, "d")) && OneStep(d.dy, Held(keys, "w"), Held(keys, "s"))
    ensures pad.None? ==> (Moves(d) <==> Held(keys, "a") != Held(keys, "d") || Held(keys, "w") != Held(keys, "s"))
  {
    var deltaX := 0.0;
    var deltaY := 0.0;
    if pad.Some? {
      var g := pad.value;
      deltaX := deltaX + g.stickX * SpeedMultiplier;
      deltaY := deltaY + g.stickY * SpeedMultiplier;
      if Button(g, 14) { deltaX := deltaX - SpeedMultiplier; }
      if Button(g, 15) { deltaX := deltaX + SpeedMultiplier; }
      assert deltaX == PadDelta(pad).dx;
      if Button(g, 12) { deltaY := deltaY - SpeedMultiplier; }
      if Button(g, 13) { deltaY := deltaY + SpeedMultiplier; }
    }
    assert Delta(deltaX, deltaY) == PadDelta(pad);
    if Held(keys, "a") { deltaX := deltaX - SpeedMultiplier; }
    if Held(keys, "d") { deltaX := deltaX + SpeedMultiplier; }
    assert deltaX == PadDelta(pad).dx + KeyDelta(keys).dx;
    if Held(keys, "w") { deltaY := deltaY - SpeedMultiplier; }
    if Held(keys, "s") { deltaY := deltaY + SpeedMultiplier; }
    d := Delta(deltaX, deltaY);
    KeyboardMoves(keys);
  }

  /** Part 3b of gameLoop on the car's position: move with both clamps if the input is large enough. */
  method MoveCar(p: Pos, pad: Option<Gamepad>, keys: map<string, bool>, layout: Layout) returns (r: Pos)
    ensures r == if Moves(MoveDelta(pad, keys)) then ClampToRoad(p.left + MoveDelta(pad, keys).dx, p.top + MoveDelta(pad, keys).dy, layout) else p
  {
    var limits := GetRoadLimits(layout.carHeight);
    var d := InputDelta(pad, keys);
    var deltaX, deltaY := d.dx, d.dy;
    r := p;
    if Abs(deltaX) > MoveThreshold || Abs(deltaY) > MoveThreshold {
      var newLeft := p.left + deltaX;
      var newTop := p.top + deltaY;
      var maxLeft := layout.scrollWidth - layout.carWidth;
      newLeft := Max(0.0, Min(newLeft, maxLeft));
      newTop := Max(limits.minY, Min(newTop, limits.maxY));
      r := Pos(newLeft, newTop);
    }
  }

  /**
   * `e.clientX || e.touches[0].clientX` as written in startDrag and drag.
   * Every caller passes either a MouseEvent or a single Touch, neither of
   * which has a `touches` list, so a coordinate of exactly 0 falls through to
   * a property read on `undefined`: None is that TypeError.
   */
  function PointerCoordAsWritten(coord: real): (r: Option<real>)
    ensures r.Some? <==> coord != 0.0
    ensures r.Some? ==> r.value == coord
  {
    if coord != 0.0 then Some(coord) else None
  }

  /** A press or a move aborts the handler exactly at the screen's left (or top) edge. */
  lemma EdgePointerAborts(coord: real)
    ensures PointerCoordAsWritten(coord).None? <==> coord == 0.0
  {
  }

  /** The coordinate the handlers evidently mean: the event's own, at every position. */
  function PointerCoord(coord: real): (r: real)
    ensures PointerCoordAsWritten(coord).Some? ==> r == PointerCoordAsWritten(coord).value
  {
    coord
  }

  /** The slot after the forEach of checkCollision has visited the first i houses. */
  function ScanSlot(active: Option<string>, ids: seq<string>, flags: seq<bool>, i: nat): Option<string>
    requires i <= |flags| == |ids|
  {
    if active.Some? then active
    else if Any(flags[..i]) then Some(ids[FirstTrue(flags[..i]).value])
    else None
  }

  /** One more house: it takes an empty slot when it overlaps, and raises the "some house collides" flag. */
  lemma ScanSlotStep(active: Option<string>, ids: seq<string>, flags: seq<bool>, i: nat)
    requires i < |flags| == |ids|
    ensures Any(flags[..i + 1]) == (Any(flags[..i]) || flags[i])
    ensures ScanSlot(active, ids, flags, i + 1)
            == if flags[i] && ScanSlot(active, ids, flags, i).None? then Some(ids[i]) else ScanSlot(active, ids, flags, i)
  {
    AnyExtend(flags, i);
    FirstTrueExtend(flags, i);
  }

  class HighwayScene {
    /** The ids of the `.casita` elements, in page order. */
    const ids: seq<string>
    var activeCasita: Option<string>
    var isDragging: bool
    var offsetX: real
    var offsetY: real
    var isR2Down: bool
    var keys: map<string, bool>
    var carLeft: real
    var carTop: real

    /** The open pop-up, if any, belongs to one of the page's houses. */
    ghost predicate Valid()
      reads this`activeCasita
    {
      activeCasita.Some? ==> activeCasita.value in ids
    }

    function Position(): Pos
      reads this`carLeft, this`carTop
    {
      Pos(carLeft, carTop)
    }

    /** The scene as the page starts it: the car at (50, 400), nothing open or held. */
    constructor (houseIds: seq<string>)
      ensures Valid() && ids == houseIds
      ensures activeCasita == None && !isDragging && !isR2Down && keys == map[]
      ensures Position() == Pos(StartLeft, StartTop) && offsetX == 0.0 && offsetY == 0.0
    {
      ids := houseIds;
      activeCasita := None;
      isDragging := false;
      offsetX, offsetY := 0.0, 0.0;
      isR2Down := false;
      keys := map[];
      carLeft, carTop := StartLeft, StartTop;
    }

    /** activateCollision: open a house's pop-up unless one is already open. */
    method ActivateCollision(id: string)
      requires Valid() && id in ids
      modifies this`activeCasita
      ensures Valid()
      ensures activeCasita == if old(activeCasita).None? then Some(id) else old(activeCasita)
    {
      if activeCasita != None {
        return;
      }
      activeCasita := Some(id);
    }

    /** deactivateCollision: close the open pop-up, if any. */
    method DeactivateCollision()
      modifies this`activeCasita
      ensures Valid() && activeCasita == None
    {
      if activeCasita == None {
        return;
      }
      activeCasita := None;
    }

    /**
     * checkCollision: every overlapping house raises isCollidingNow and, while
     * the slot is empty, takes it; when nothing overlaps, the slot is emptied.
     */
    method CheckCollision(car: Rect, zoneRects: seq<Rect>)
      requires Valid() && |zoneRects| == |ids|
      modifies this`activeCasita
      ensures Valid()
      ensures activeCasita == NextActive(old(activeCasita), ids, OverlapFlags(car, zoneRects))
    {
      ghost var flags := OverlapFlags(car, zoneRects);
      var isCollidingNow := false;
      var i := 0;
      while i < |ids|
        invariant 0 <= i <= |ids| && Valid()
        invariant isCollidingNow == Any(flags[..i])
        invariant activeCasita == ScanSlot(old(activeCasita), ids, flags, i)
      {
        ScanSlotStep(old(activeCasita), ids, flags, i);
        var collision := PaddedOverlap(car, zoneRects[i], Padding);
        assert collision == flags[i];
        if collision {
          isCollidingNow := true;
          if activeCasita == None {
            ActivateCollision(ids[i]);
          }
        }
        i := i + 1;
      }
      assert flags[..i] == flags;
      if activeCasita != None && !isCollidingNow {
        DeactivateCollision();
      }
    }

    /** startDrag: close any open pop-up, start dragging and remember where the car was grabbed. */
    method StartDrag(clientX: real, clientY: real, carClientRect: Rect)
      modifies this`activeCasita, this`isDragging, this`offsetX, this`offsetY
      ensures Valid() && activeCasita == None && isDragging
      ensures offsetX == clientX - carClientRect.left && offsetY == clientY - carClientRect.top
    {
      if activeCasita != None {
        DeactivateCollision();
      }
      isDragging := true;
      var x, y := PointerCoord(clientX), PointerCoord(clientY);
      offsetX := x - carClientRect.left;
      offsetY := y - carClientRect.top;
    }

    /**
     * drag: while dragging, the car follows the pointer less the grab offset,
     * clamped to the scene and the road; then the collisions are checked.
     */
    method Drag(clientX: real, clientY: real, containerLeft: real, containerTop: real, scrollLeft: real,
                layout: Layout, zoneRects: seq<Rect>)
      requires Valid() && |zoneRects| == |ids|
      modifies this`activeCasita, this`carLeft, this`carTop
      ensures Valid()
      ensures !isDragging ==> unchanged(this`activeCasita, this`carLeft, this`carTop)
      ensures isDragging ==>
        && Position() == ClampToRoad(clientX - offsetX - containerLeft + scrollLeft, clientY - offsetY - containerTop, layout)
        && activeCasita == NextActive(old(activeCasita), ids, OverlapFlags(CarRect(Position(), layout), zoneRects))
    {
      if !isDragging {
        return;
      }
      var limits := GetRoadLimits(layout.carHeight);
      var x, y := PointerCoord(clientX), PointerCoord(clientY);
      var newLeft := x - offsetX - containerLeft + scrollLeft;
      var newTop := y - offsetY - containerTop;
      var maxLeft := layout.scrollWidth - layout.carWidth;
      newLeft := Max(0.0, Min(newLeft, maxLeft));
      newTop := Max(limits.minY, Min(newTop, limits.maxY));
      carLeft, carTop := newLeft, newTop;
      CheckCollision(CarRect(Position(), layout), zoneRects);
    }

    /**
     * drag as the page calls it. The touchmove listener passes `e.touches[0]`,
     * a Touch, and `e.preventDefault()` on it throws before anything moves;
     * a mouse event at coordinate 0 throws at the coordinate fallback.
     */
    method DragAsWritten(touch: bool, clientX: real, clientY: real, containerLeft: real, containerTop: real,
                         scrollLeft: real, layout: Layout, zoneRects: seq<Rect>)
      requires Valid() && |zoneRects| == |ids|
      modifies this`activeCasita, this`carLeft, this`carTop
      ensures Valid()
      ensures !isDragging || touch || PointerCoordAsWritten(clientX).None? || PointerCoordAsWritten(clientY).None?
              ==> unchanged(this`activeCasita, this`carLeft, this`carTop)
      ensures isDragging && !touch && clientX != 0.0 && clientY != 0.0 ==>
        && Position() == ClampToRoad(clientX - offsetX - containerLeft + scrollLeft, clientY - offsetY - containerTop, layout)
        && activeCasita == NextActive(old(activeCasita), ids, OverlapFlags(CarRect(Position(), layout), zoneRects))
    {
      if !isDragging || touch {
        return;
      }
      var x, y := PointerCoordAsWritten(clientX), PointerCoordAsWritten(clientY);
      if x.None? || y.None? {
        return;
      }
      Drag(x.value, y.value, containerLeft, containerTop, scrollLeft, layout, zoneRects);
    }

    /** endDrag: release the car. */
    method EndDrag()
      modifies this`isDragging
      ensures !isDragging
    {
      isDragging := false;
    }

    /** Keyboard key-down: every key is recorded; `key` is `e.key` lower-cased. */
    method KeyDown(key: string)
      modifies this`keys
      ensures keys == old(keys)[key := true]
    {
      keys := keys[key := true];
    }

    /** Keyboard key-up; `key` is `e.key` lower-cased. */
    method KeyUp(key: string)
      modifies this`keys
      ensures keys == old(keys)[key := false]
    {
      keys := keys[key := false];
    }

    /** Part 1 of gameLoop: an open pop-up closes on WASD, a deflected stick or any gamepad button. */
    method CloseOnInput(pad: Option<Gamepad>)
      requires Valid()
      modifies this`activeCasita
      ensures Valid() && activeCasita == AfterCloseInput(old(activeCasita), keys, pad)
    {
      if activeCasita != None {
        var inputDetectedToClose := false;
        if Held(keys, "a") || Held(keys, "d") || Held(keys, "w") || Held(keys, "s") {
          inputDetectedToClose := true;
        }
        if pad.Some? {
          var g := pad.value;
          if Abs(g.stickX) > 0.1 || Abs(g.stickY) > 0.1 {
            inputDetectedToClose := true;
          }
          var anyButton := AnyButtonPressed(g.buttons);
          if anyButton {
            inputDetectedToClose := true;
          }
        }
        if inputDetectedToClose {
          DeactivateCollision();
        }
      }
    }

    /** Part 2 of gameLoop: the R2 latch; the result says whether the rev sound's start was cued. */
    method R2Latch(pad: Option<Gamepad>) returns (revCue: bool)
      modifies this`isR2Down
      ensures revCue == R2Step(old(isR2Down), pad).fire && isR2Down == R2Step(old(isR2Down), pad).down
    {
      revCue := false;
      if pad.Some? && pad.value.trigger.Some? {
        var r2Axis := pad.value.trigger.value;
        if r2Axis > TriggerThreshold && !isR2Down {
          revCue := true;
          isR2Down := true;
        } else if r2Axis <= TriggerThreshold && isR2Down {
          isR2Down := false;
        }
      }
    }

    /**
     * One frame of gameLoop: close an open pop-up on any input, follow the R2
     * latch (the result says whether the rev sound's start was cued), move the
     * car when no pop-up is open, no drag is in progress and the input is
     * large enough, then check collisions.
     */
    method GameLoop(pad: Option<Gamepad>, layout: Layout, zoneRects: seq<Rect>) returns (revCue: bool)
      requires Valid() && |zoneRects| == |ids|
      modifies this`activeCasita, this`isR2Down, this`carLeft, this`carTop
      ensures Valid()
      ensures revCue == R2Step(old(isR2Down), pad).fire && isR2Down == R2Step(old(isR2Down), pad).down
      ensures
        var open := AfterCloseInput(old(activeCasita), keys, pad);
        var d := MoveDelta(pad, keys);
        && Position() == (if open.None? && !isDragging && Moves(d)
                          then ClampToRoad(old(carLeft) + d.dx, old(carTop) + d.dy, layout)
                          else old(Position()))
        && activeCasita == NextActive(open, ids, OverlapFlags(CarRect(Position(), layout), zoneRects))
      ensures activeCasita.Some? <==> Any(OverlapFlags(CarRect(Position(), layout), zoneRects))
    {
      CloseOnInput(pad);
      revCue := R2Latch(pad);
      if activeCasita == None && !isDragging {
        var p := MoveCar(Position(), pad, keys, layout);
        carLeft, carTop := p.left, p.top;
      }
      CheckCollision(CarRect(Position(), layout), zoneRects);
    }
  }
}
