/**
 * Input state both scenes read each frame: the latched key map that the
 * keyboard and on-screen buttons write, a snapshot of the polled gamepad, and
 * the "was down last frame" latch that turns a held button into one event.
 */
module Input {
  import opened Options

  /**
   * One poll of `navigator.getGamepads()[index]`. Axes 0 and 1 (the left
   * stick) are always present under the standard mapping; axis 5 (the R2
   * trigger on the highway) may be missing, hence an Option.
   */
  datatype Gamepad = Gamepad(stickX: real, stickY: real, trigger: Option<real>, buttons: seq<bool>)

  /** `gamepad.buttons[i]?.pressed`: a missing button reads as not pressed. */
  predicate Button(g: Gamepad, i: nat)
  {
    i < |g.buttons| && g.buttons[i]
  }

  /** Some button of the snapshot is pressed. */
  predicate AnyPressed(buttons: seq<bool>)
  {
    exists i :: 0 <= i < |buttons| && buttons[i]
  }

  /** The scan over `gamepad.buttons` that stops at the first pressed one. */
  method AnyButtonPressed(buttons: seq<bool>) returns (pressed: bool)
    ensures pressed <==> AnyPressed(buttons)
    ensures pressed ==> exists i :: 0 <= i < |buttons| && buttons[i] && forall j :: 0 <= j < i ==> !buttons[j]
  {
    pressed := false;
    var i := 0;
    while i < |buttons|
      invariant 0 <= i <= |buttons|
      invariant !pressed
      invariant forall j :: 0 <= j < i ==> !buttons[j]
    {
      if buttons[i] {
        pressed := true;
        break;
      }
      i := i + 1;
    }
  }

  function Abs(x: real): (r: real)
    ensures r >= 0.0
    ensures r == x || r == -x
  {
    if x < 0.0 then -x else x
  }

  /** Either stick axis is deflected past the 0.1 dead zone. */
  predicate StickMoved(g: Gamepad)
  {
    Abs(g.stickX) > 0.1 || Abs(g.stickY) > 0.1
  }

  /** `keys[k]` is truthy: a key never written reads as `undefined`, i.e. up. */
  predicate Held(keys: map<string, bool>, k: string)
  {
    k in keys && keys[k]
  }

  /** What one frame of an edge detector does: whether its action fires, and the new latch. */
  datatype Edge = Edge(fire: bool, down: bool)

  /**
   * The latch used for the quiz's jump button and the highway's R2 trigger:
   * fire when pressed and not latched, latch while pressed, release when not.
   */
  function EdgeStep(down: bool, pressed: bool): (r: Edge)
    ensures r.down == pressed
    ensures r.fire <==> pressed && !down
  {
    if pressed && !down then Edge(true, true)
    else if !pressed then Edge(false, false)
    else Edge(false, down)
  }

  /** How many times the detector fires over successive frames. */
  function Fires(down: bool, presses: seq<bool>): nat
    decreases |presses|
  {
    if presses == [] then 0
    else
      var e := EdgeStep(down, presses[0]);
      (if e.fire then 1 else 0) + Fires(e.down, presses[1..])
  }

  /** Reference count: the frames on which the input is pressed and was not pressed the frame before. */
  function RisingEdges(before: bool, presses: seq<bool>): nat
    decreases |presses|
  {
    if presses == [] then 0
    else (if presses[0] && !before then 1 else 0) + RisingEdges(presses[0], presses[1..])
  }

  /** The detector fires exactly once per press: once per rising edge of the input. */
  lemma {:induction false} FiresOncePerPress(down: bool, presses: seq<bool>)
    ensures Fires(down, presses) == RisingEdges(down, presses)
    decreases |presses|
  {
    if presses != [] {
      FiresOncePerPress(EdgeStep(down, presses[0]).down, presses[1..]);
    }
  }

  /** Holding the input over any number of frames fires at most once, and not at all if it was already latched. */
  lemma {:induction false} HeldFiresOnce(down: bool, presses: seq<bool>)
    requires forall k :: 0 <= k < |presses| ==> presses[k]
    ensures Fires(down, presses) == if presses == [] || down then 0 else 1
    decreases |presses|
  {
    if presses != [] {
      HeldFiresOnce(true, presses[1..]);
    }
  }
}
