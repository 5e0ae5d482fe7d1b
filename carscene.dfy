/**
 * The draggable car of script.js: the car follows the mouse while the button
 * is held, the scene scrolls when the pointer nears either screen edge, and
 * every house remembers in the `isColliding` dictionary whether the car is on
 * it, so that its collision sound plays once per arrival and its information
 * shows exactly while the car is there. Layout reads (rectangles, sizes, the
 * window width) are parameters.
 */
module CarScene {
  import opened Geometry
  import opened Input

  /** Scroll pixels per pixel of pointer travel into an edge band. */
  const ScrollSpeed: real := 0.5
  /** Each edge band is this fraction of the window width. */
  const ScrollBand: real := 0.3

  /** The houses' ids, in page order, are pairwise different (as element ids are). */
  predicate Distinct(ids: seq<string>)
  {
    forall j, k :: 0 <= j < k < |ids| ==> ids[j] != ids[k]
  }

  /** `isColliding[id]` is truthy: an id never written reads as `undefined`. */
  predicate Was(m: map<string, bool>, id: string)
  {
    id in m && m[id]
  }

  /** One house's turn in checkCollision's forEach. */
  function Visit(m: map<string, bool>, id: string, overlap: bool): (r: map<string, bool>)
    ensures id in r && Was(r, id) == overlap
  {
    if overlap then (if !Was(m, id) then m[id := true] else m)
    else m[id := false]
  }

  /** The forEach of checkCollision over the given houses and their overlap results, as the code runs it. */
  function Sweep(m: map<string, bool>, ids: seq<string>, flags: seq<bool>): (r: map<string, bool>)
    requires |flags| == |ids|
    ensures m.Keys <= r.Keys
    decreases |ids|
  {
    if ids == [] then m
    else Visit(Sweep(m, ids[..|ids| - 1], flags[..|ids| - 1]), ids[|ids| - 1], flags[|ids| - 1])
  }

  /** Entries for ids the sweep does not visit are left alone. */
  lemma {:induction false} SweepElsewhere(m: map<string, bool>, ids: seq<string>, flags: seq<bool>, id: string)
    requires |flags| == |ids| && id !in ids
    ensures id in Sweep(m, ids, flags) <==> id in m
    ensures id in m ==> Sweep(m, ids, flags)[id] == m[id]
    decreases |ids|
  {
    if ids != [] {
      var n := |ids| - 1;
      assert id !in ids[..n];
      SweepElsewhere(m, ids[..n], flags[..n], id);
    }
  }

  /** With distinct ids, the dictionary records every house's overlap result of this frame. */
  lemma {:induction false} SweepRecords(m: map<string, bool>, ids: seq<string>, flags: seq<bool>)
    requires |flags| == |ids| && Distinct(ids)
    ensures forall k :: 0 <= k < |ids| ==> ids[k] in Sweep(m, ids, flags) && Sweep(m, ids, flags)[ids[k]] == flags[k]
    decreases |ids|
  {
    if ids != [] {
      var n := |ids| - 1;
      var before := Sweep(m, ids[..n], flags[..n]);
      SweepRecords(m, ids[..n], flags[..n]);
      forall k | 0 <= k < n
        ensures ids[k] in Sweep(m, ids, flags) && Sweep(m, ids, flags)[ids[k]] == flags[k]
      {
        assert ids[..n][k] == ids[k] && ids[k] != ids[n];
      }
    }
  }

  /** The houses whose collision sound a frame plays: overlapping now, and not marked colliding before. */
  function Entered(m: map<string, bool>, ids: seq<string>, flags: seq<bool>): (r: seq<bool>)
    requires |flags| == |ids|
    ensures |r| == |ids|
    ensures forall k :: 0 <= k < |ids| ==> r[k] == (flags[k] && !Was(m, ids[k]))
  {
    seq(|ids|, k requires 0 <= k < |ids| => flags[k] && !Was(m, ids[k]))
  }

  /** A second sweep with the same overlap results plays no sound. */
  lemma RepeatedFrameIsSilent(m: map<string, bool>, ids: seq<string>, flags: seq<bool>)
    requires |flags| == |ids| && Distinct(ids)
    ensures forall k :: 0 <= k < |ids| ==> !Entered(Sweep(m, ids, flags), ids, flags)[k]
  {
    SweepRecords(m, ids, flags);
  }

  /** The overlap results of one house over a run of frames. */
  function Column(frames: seq<seq<bool>>, k: nat): (r: seq<bool>)
    requires forall f :: 0 <= f < |frames| ==> k < |frames[f]|
    ensures |r| == |frames| && forall f :: 0 <= f < |frames| ==> r[f] == frames[f][k]
  {
    seq(|frames|, f requires 0 <= f < |frames| => frames[f][k])
  }

  /** How often house k's sound plays over a run of frames. */
  function Entries(m: map<string, bool>, ids: seq<string>, frames: seq<seq<bool>>, k: nat): nat
    requires forall f :: 0 <= f < |frames| ==> |frames[f]| == |ids|
    requires k < |ids|
    decreases |frames|
  {
    if frames == [] then 0
    else (if Entered(m, ids, frames[0])[k] then 1 else 0) + Entries(Sweep(m, ids, frames[0]), ids, frames[1..], k)
  }

  /** A house's sound plays exactly on the frames where it starts overlapping: once per arrival. */
  lemma {:induction false} EntriesOncePerArrival(m: map<string, bool>, ids: seq<string>, frames: seq<seq<bool>>, k: nat)
    requires forall f :: 0 <= f < |frames| ==> |frames[f]| == |ids|
    requires k < |ids| && Distinct(ids)
    ensures Entries(m, ids, frames, k) == RisingEdges(Was(m, ids[k]), Column(frames, k))
    decreases |frames|
  {
    if frames != [] {
      var m' := Sweep(m, ids, frames[0]);
      SweepRecords(m, ids, frames[0]);
      assert Was(m', ids[k]) == frames[0][k];
      EntriesOncePerArrival(m', ids, frames[1..], k);
      assert Column(frames, k)[1..] == Column(frames[1..], k);
    }
  }

  /** Keeping the car on a house over any number of frames plays its sound at most once. */
  lemma SustainedOverlapEntersOnce(m: map<string, bool>, ids: seq<string>, frames: seq<seq<bool>>, k: nat)
    requires forall f :: 0 <= f < |frames| ==> |frames[f]| == |ids|
    requires k < |ids| && Distinct(ids)
    requires forall f :: 0 <= f < |frames| ==> frames[f][k]
    ensures Entries(m, ids, frames, k) == if frames == [] || Was(m, ids[k]) then 0 else 1
  {
    EntriesOncePerArrival(m, ids, frames, k);
    FiresOncePerPress(Was(m, ids[k]), Column(frames, k));
    HeldFiresOnce(Was(m, ids[k]), Column(frames, k));
  }

  /**
   * The scroll change of one mousemove: pulled left by half the pointer's
   * depth into the left band, pushed right likewise in the right band, and
   * unchanged in between.
   */
  function AutoScroll(clientX: real, screenWidth: real): (r: real)
    requires screenWidth >= 0.0
    ensures clientX < screenWidth * ScrollBand ==> r < 0.0
    ensures clientX > screenWidth - screenWidth * ScrollBand ==> r > 0.0
    ensures screenWidth * ScrollBand <= clientX <= screenWidth - screenWidth * ScrollBand ==> r == 0.0
  {
    var scrollThreshold := screenWidth * ScrollBand;
    if clientX < scrollThreshold then -(ScrollSpeed * (scrollThreshold - clientX))
    else if clientX > screenWidth - scrollThreshold then ScrollSpeed * (clientX - (screenWidth - scrollThreshold))
    else 0.0
  }

  /** The two bands mirror each other: a pointer at x and one at the same distance from the other edge scroll equally, in opposite directions. */
  lemma AutoScrollMirror(clientX: real, screenWidth: real)
    requires screenWidth >= 0.0
    ensures AutoScroll(screenWidth - clientX, screenWidth) == -AutoScroll(clientX, screenWidth)
  {
  }

  /** The scroll grows with the pointer's depth into a band: moving further out never scrolls less. */
  lemma AutoScrollMonotone(x1: real, x2: real, screenWidth: real)
    requires screenWidth >= 0.0 && x1 <= x2
    ensures AutoScroll(x1, screenWidth) <= AutoScroll(x2, screenWidth)
  {
  }

  /** The forEach of checkCollision: one pass over the houses, updating the dictionary. */
  method SweepHouses(m: map<string, bool>, ids: seq<string>, car: Rect, zoneRects: seq<Rect>)
    returns (isColliding: map<string, bool>, entered: seq<bool>, shown: seq<bool>)
    requires |zoneRects| == |ids| && Distinct(ids)
    ensures isColliding == Sweep(m, ids, OverlapFlags(car, zoneRects))
    ensures entered == Entered(m, ids, OverlapFlags(car, zoneRects))
    ensures shown == OverlapFlags(car, zoneRects)
  {
    ghost var flags := OverlapFlags(car, zoneRects);
    isColliding, entered, shown := m, [], [];
    var i := 0;
    while i < |ids|
      invariant 0 <= i <= |ids|
      invariant isColliding == Sweep(m, ids[..i], flags[..i])
      invariant entered == Entered(m, ids, flags)[..i]
      invariant shown == flags[..i]
    {
      var casitaId := ids[i];
      SweepStep(m, ids, flags, i);
      var collision := PaddedOverlap(car, zoneRects[i], Padding);
      var played;
      isColliding, played := VisitHouse(isColliding, casitaId, collision);
      entered, shown := entered + [played], shown + [collision];
      i := i + 1;
    }
    assert ids[..i] == ids && flags[..i] == flags;
  }

  /** One house's turn in the forEach: the sound plays on arrival, and the dictionary entry follows the overlap. */
  method VisitHouse(m: map<string, bool>, casitaId: string, collision: bool)
    returns (isColliding: map<string, bool>, played: bool)
    ensures isColliding == Visit(m, casitaId, collision)
    ensures played == (collision && !Was(m, casitaId))
  {
    isColliding, played := m, false;
    if collision {
      if !(casitaId in isColliding && isColliding[casitaId]) {
        played := true;
        isColliding := isColliding[casitaId := true];
      }
    } else {
      isColliding := isColliding[casitaId := false];
    }
  }

  /** Sweeping one more house visits it after the ones before, which have not touched its entry. */
  lemma SweepStep(m: map<string, bool>, ids: seq<string>, flags: seq<bool>, i: nat)
    requires |flags| == |ids| && i < |ids| && Distinct(ids)
    ensures Sweep(m, ids[..i + 1], flags[..i + 1]) == Visit(Sweep(m, ids[..i], flags[..i]), ids[i], flags[i])
    ensures Was(Sweep(m, ids[..i], flags[..i]), ids[i]) == Was(m, ids[i])
    ensures flags[..i + 1] == flags[..i] + [flags[i]]
    ensures Entered(m, ids, flags)[..i + 1] == Entered(m, ids, flags)[..i] + [flags[i] && !Was(m, ids[i])]
  {
    assert ids[..i + 1][..i] == ids[..i] && flags[..i + 1][..i] == flags[..i];
    assert ids[i] !in ids[..i];
    SweepElsewhere(m, ids[..i], flags[..i], ids[i]);
  }

  class CarScene {
    /** The `.casita` ids, in page order. */
    const ids: seq<string>
    var isColliding: map<string, bool>
    var isDragging: bool
    var offsetX: real
    var offsetY: real
    /** The car's style.left / style.top. */
    var carX: real
    var carY: real
    /** The container's scrollLeft, before the browser limits it to the scrollable range. */
    var scrollLeft: real

    ghost predicate Valid()
      reads this
    {
      Distinct(ids)
    }

    constructor (houseIds: seq<string>, carX0: real, carY0: real, scrollLeft0: real)
      requires Distinct(houseIds)
      ensures Valid() && ids == houseIds
      ensures isColliding == map[] && !isDragging && offsetX == 0.0 && offsetY == 0.0
      ensures carX == carX0 && carY == carY0 && scrollLeft == scrollLeft0
    {
      ids := houseIds;
      isColliding := map[];
      isDragging := false;
      offsetX, offsetY := 0.0, 0.0;
      carX, carY := carX0, carY0;
      scrollLeft := scrollLeft0;
    }

    /** mousedown on the car: start dragging and remember where the car was grabbed. */
    method MouseDown(clientX: real, clientY: real, carRect: Rect)
      modifies this`isDragging, this`offsetX, this`offsetY
      ensures isDragging && offsetX == clientX - carRect.left && offsetY == clientY - carRect.top
    {
      isDragging := true;
      offsetX := clientX - carRect.left;
      offsetY := clientY - carRect.top;
    }

    /** mouseup anywhere: stop dragging. */
    method MouseUp()
      modifies this`isDragging
      ensures !isDragging
    {
      isDragging := false;
    }

    /**
     * checkCollision: each house's overlap result is recorded in isColliding;
     * `entered` says whose collision sound played, `shown` whose information
     * is displayed.
     */
    method CheckCollision(car: Rect, zoneRects: seq<Rect>) returns (entered: seq<bool>, shown: seq<bool>)
      requires Valid() && |zoneRects| == |ids|
      modifies this`isColliding
      ensures isColliding == Sweep(old(isColliding), ids, OverlapFlags(car, zoneRects))
      ensures entered == Entered(old(isColliding), ids, OverlapFlags(car, zoneRects))
      ensures shown == OverlapFlags(car, zoneRects)
    {
      isColliding, entered, shown := SweepHouses(isColliding, ids, car, zoneRects);
    }

    /**
     * mousemove: while dragging, the car follows the pointer less the grab
     * offset, clamped to the container; the view scrolls near the screen
     * edges; then the collisions are checked.
     */
    method MouseMove(clientX: real, clientY: real, containerWidth: real, containerHeight: real,
                     carWidth: real, carHeight: real, screenWidth: real, car: Rect, zoneRects: seq<Rect>)
      returns (entered: seq<bool>, shown: seq<bool>)
      requires Valid() && |zoneRects| == |ids| && screenWidth >= 0.0
      modifies this`carX, this`carY, this`scrollLeft, this`isColliding
      ensures !old(isDragging) ==> unchanged(this`carX, this`carY, this`scrollLeft, this`isColliding)
      ensures !old(isDragging) ==> entered == [] && shown == []
      ensures old(isDragging) ==>
        && carX == Clamp(clientX - offsetX, 0.0, containerWidth - carWidth)
        && carY == Clamp(clientY - offsetY, 0.0, containerHeight - carHeight)
        && scrollLeft == old(scrollLeft) + AutoScroll(clientX, screenWidth)
        && isColliding == Sweep(old(isColliding), ids, OverlapFlags(car, zoneRects))
        && entered == Entered(old(isColliding), ids, OverlapFlags(car, zoneRects))
        && shown == OverlapFlags(car, zoneRects)
    {
      entered, shown := [], [];
      if !isDragging {
        return;
      }
      var newX := clientX - offsetX;
      var newY := clientY - offsetY;
      newX := Max(0.0, Min(newX, containerWidth - carWidth));
      newY := Max(0.0, Min(newY, containerHeight - carHeight));
      carX, carY := newX, newY;
      var scrollThreshold := screenWidth * ScrollBand;
      if clientX < scrollThreshold {
        scrollLeft := scrollLeft - ScrollSpeed * (scrollThreshold - clientX);
      } else if clientX > screenWidth - scrollThreshold {
        scrollLeft := scrollLeft + ScrollSpeed * (clientX - (screenWidth - scrollThreshold));
      }
      entered, shown := CheckCollision(car, zoneRects);
    }
  }

  /**
   * After any checkCollision, every house's entry says whether the car is on
   * it now; entries for other keys are as they were.
   */
  lemma CheckCollisionRecordsOverlap(m: map<string, bool>, ids: seq<string>, car: Rect, zoneRects: seq<Rect>, id: string)
    requires Distinct(ids) && |zoneRects| == |ids|
    ensures forall k :: 0 <= k < |ids| ==>
      Was(Sweep(m, ids, OverlapFlags(car, zoneRects)), ids[k]) == PaddedOverlap(car, zoneRects[k], Padding)
    ensures id !in ids ==> Was(Sweep(m, ids, OverlapFlags(car, zoneRects)), id) == Was(m, id)
  {
    SweepRecords(m, ids, OverlapFlags(car, zoneRects));
    if id !in ids {
      SweepElsewhere(m, ids, OverlapFlags(car, zoneRects), id);
    }
  }
}
