/**
 * The quiz platformer of platform/quiz.js: a jumping player answers
 * three-option questions by landing on one of three answer blocks. The
 * closure variables of the page script are the fields of `QuizGame`; every
 * layout read (rectangles, widths) and every gamepad poll is a parameter, and
 * the two `setTimeout` callbacks of checkAnswer become `RunDeferred`, which
 * the caller invokes when the delay would have elapsed.
 */
module Quiz {
  import opened Options
  import opened Geometry
  import opened Input
  import opened Search
  import opened Shuffle

  const Gravity: real := -0.5
  const JumpForce: real := 15.0
  const PlayerSpeed: real := 5.0
  /** Tolerance of the came-from-above test, and the gap left above a block after landing. */
  const LandingBuffer: real := 10.0
  /** The page has three answer blocks, filled from option indices [0, 1, 2]. */
  const BlockCount: nat := 3

  /** A quiz entry; the German texts themselves play no part. */
  datatype Question = Question(prompt: string, options: seq<string>, correctAnswer: int)

  /** An answer block: the option it shows and its `data-answer` attribute (`correct` or not). */
  datatype Block = Block(option: nat, correct: bool)

  /** The callback checkAnswer left behind with setTimeout, if any. */
  datatype Deferred = Idle | AdvanceAfterCorrect | FailureAfterIncorrect

  /** The player's kinematic state plus the jump button's latch. */
  datatype Body = Body(x: real, y: real, vy: real, jumping: bool, xButtonDown: bool)

  /** Where the player is put back: 5% into the scene, centred. */
  function StartX(gameWidth: real, playerWidth: real): real
  {
    gameWidth * 0.05 - playerWidth / 2.0
  }

  // ---------------------------------------------------------------------
  // Answer blocks
  // ---------------------------------------------------------------------

  function OptionIndices(bs: seq<Block>): (r: seq<nat>)
    ensures |r| == |bs| && forall k :: 0 <= k < |bs| ==> r[k] == bs[k].option
  {
    seq(|bs|, k requires 0 <= k < |bs| => bs[k].option)
  }

  /** Every block is marked correct exactly when it shows the question's correct option. */
  predicate Labelled(bs: seq<Block>, correctAnswer: int)
  {
    forall k :: 0 <= k < |bs| ==> (bs[k].correct <==> bs[k].option == correctAnswer)
  }

  /** The blocks loadQuestion produces from a shuffled option order. */
  function BlocksFor(order: seq<nat>, q: Question): (r: seq<Block>)
    ensures |r| == |order| && OptionIndices(r) == order && Labelled(r, q.correctAnswer)
  {
    seq(|order|, k requires 0 <= k < |order| => Block(order[k], order[k] == q.correctAnswer))
  }

  function CountCorrect(bs: seq<Block>): nat
  {
    if bs == [] then 0 else (if bs[0].correct then 1 else 0) + CountCorrect(bs[1..])
  }

  /** Under a consistent labelling, the number of correct blocks is how often the correct option is shown. */
  lemma {:induction false} CountIsMultiplicity(bs: seq<Block>, c: int)
    requires Labelled(bs, c)
    ensures CountCorrect(bs) == multiset(OptionIndices(bs))[c]
  {
    if bs != [] {
      CountIsMultiplicity(bs[1..], c);
      assert OptionIndices(bs) == [bs[0].option] + OptionIndices(bs[1..]);
    }
  }

  /** Three blocks showing distinct option indices, each below three. */
  predicate BlocksWellFormed(blocks: seq<Block>)
  {
    && |blocks| == BlockCount
    && (forall k :: 0 <= k < |blocks| ==> blocks[k].option < BlockCount)
    && (forall j, k :: 0 <= j < k < |blocks| ==> blocks[j].option != blocks[k].option)
  }

  /** Three distinct option indices below three are a permutation of [0, 1, 2]. */
  lemma DistinctIsPermutation(s: seq<nat>)
    requires |s| == BlockCount
    requires forall k :: 0 <= k < |s| ==> s[k] < BlockCount
    requires forall j, k :: 0 <= j < k < |s| ==> s[j] != s[k]
    ensures multiset(s) == multiset{0, 1, 2}
  {
    assert s == [s[0], s[1], s[2]];
    forall v
      ensures multiset(s)[v] == multiset{0, 1, 2}[v]
    {
      assert multiset(s)[v] == (if s[0] == v then 1 else 0) + (if s[1] == v then 1 else 0) + (if s[2] == v then 1 else 0);
    }
  }

  /** Three values making up the multiset {0, 1, 2} are distinct and below three. */
  lemma DistinctTriple(a: nat, b: nat, c: nat)
    requires multiset{a, b, c} == multiset{0, 1, 2}
    ensures a < 3 && b < 3 && c < 3
    ensures a != b && a != c && b != c
  {
    var m := multiset{a, b, c};
    assert a in m && b in m && c in m;
    assert m[a] == 1 + (if b == a then 1 else 0) + (if c == a then 1 else 0);
    assert m[b] == (if a == b then 1 else 0) + 1 + (if c == b then 1 else 0);
  }

  /** A permutation of [0, 1, 2] has three distinct entries, each below three. */
  lemma PermutationIsDistinct(s: seq<nat>)
    requires multiset(s) == multiset{0, 1, 2}
    ensures |s| == BlockCount
    ensures forall k :: 0 <= k < |s| ==> s[k] < BlockCount
    ensures forall j, k :: 0 <= j < k < |s| ==> s[j] != s[k]
  {
    assert |s| == |multiset(s)| == 3;
    assert s == [s[0], s[1], s[2]];
    DistinctTriple(s[0], s[1], s[2]);
  }

  /** Well-formed blocks are exactly those showing a permutation of the option indices [0, 1, 2]. */
  lemma WellFormedIsPermutation(bs: seq<Block>)
    ensures BlocksWellFormed(bs) <==> multiset(OptionIndices(bs)) == multiset{0, 1, 2}
  {
    if BlocksWellFormed(bs) {
      DistinctIsPermutation(OptionIndices(bs));
    }
    if multiset(OptionIndices(bs)) == multiset{0, 1, 2} {
      PermutationIsDistinct(OptionIndices(bs));
    }
  }

  /** Well-formed blocks labelled for an answer among the options: exactly one of them is correct. */
  lemma ExactlyOneCorrect(bs: seq<Block>, c: int)
    requires BlocksWellFormed(bs)
    requires Labelled(bs, c)
    requires 0 <= c < BlockCount
    ensures CountCorrect(bs) == 1
  {
    WellFormedIsPermutation(bs);
    CountIsMultiplicity(bs, c);
  }

  /** What a landing on block b leaves pending. */
  function Verdict(b: Block): Deferred
  {
    if b.correct then AdvanceAfterCorrect else FailureAfterIncorrect
  }

  // ---------------------------------------------------------------------
  // One physics frame (the body of gameLoop while no pop-up is open)
  // ---------------------------------------------------------------------

  /** Gravity, then the ground constraint. */
  function Fall(b: Body): (r: Body)
    ensures r.y >= 0.0
    ensures r.x == b.x && r.xButtonDown == b.xButtonDown
    ensures r.y > 0.0 ==> r.y == b.y + b.vy + Gravity && r.vy == b.vy + Gravity && r.jumping == b.jumping
    ensures b.y + b.vy + Gravity < 0.0 ==> r.y == 0.0 && r.vy == 0.0 && !r.jumping
    ensures b.y + b.vy + Gravity == 0.0 ==> r.y == 0.0 && r.vy == b.vy + Gravity && r.jumping == b.jumping
  {
    var vy := b.vy + Gravity;
    var y := b.y + vy;
    if y < 0.0 then b.(y := 0.0, vy := 0.0, jumping := false)
    else b.(y := y, vy := vy)
  }

  /** The gamepad's jump button (button 0) through the latch; no gamepad leaves the latch alone. */
  function PadJump(down: bool, pad: Option<Gamepad>): (e: Edge)
    ensures pad.None? ==> !e.fire && e.down == down
    ensures pad.Some? ==> e == EdgeStep(down, Button(pad.value, 0))
  {
    match pad
    case None => Edge(false, down)
    case Some(g) => EdgeStep(down, Button(g, 0))
  }

  /** W or Space held. */
  predicate KeyJump(keys: map<string, bool>)
  {
    Held(keys, "w") || Held(keys, " ")
  }

  /** Horizontal intent: the stick scaled by the speed, minus A, plus D. */
  function DeltaX(pad: Option<Gamepad>, keys: map<string, bool>): (r: real)
    ensures pad.None? ==> -PlayerSpeed <= r <= PlayerSpeed
    ensures pad.None? ==> (r == 0.0 <==> Held(keys, "a") == Held(keys, "d"))
    ensures pad.Some? ==> r - pad.value.stickX * PlayerSpeed in {-PlayerSpeed, 0.0, PlayerSpeed}
  {
    (if pad.Some? then pad.value.stickX * PlayerSpeed else 0.0)
    - (if Held(keys, "a") then PlayerSpeed else 0.0)
    + (if Held(keys, "d") then PlayerSpeed else 0.0)
  }

  /** Whether this frame starts a jump: a fresh button-0 press, or W/Space while `isJumping` is clear. */
  predicate Jumps(b: Body, pad: Option<Gamepad>, keys: map<string, bool>)
  {
    var f := Fall(b);
    PadJump(f.xButtonDown, pad).fire || (KeyJump(keys) && !f.jumping)
  }

  /** One frame of gravity, input and horizontal movement with the side clamp. */
  function Frame(b: Body, pad: Option<Gamepad>, keys: map<string, bool>, gameWidth: real, playerWidth: real): (r: Body)
    ensures r.y >= 0.0 && r.y == Fall(b).y
    ensures gameWidth >= playerWidth ==> 0.0 <= r.x <= gameWidth - playerWidth
    ensures 0.0 <= Fall(b).x + DeltaX(pad, keys) <= gameWidth - playerWidth ==> r.x == Fall(b).x + DeltaX(pad, keys)
    ensures r.xButtonDown == if pad.Some? then Button(pad.value, 0) else b.xButtonDown
    ensures Jumps(b, pad, keys) ==> r.vy == JumpForce && r.jumping
    ensures !Jumps(b, pad, keys) ==> r.vy == Fall(b).vy && r.jumping == Fall(b).jumping
  {
    var f := Fall(b);
    var e := PadJump(f.xButtonDown, pad);
    var jump := e.fire || (KeyJump(keys) && !f.jumping);
    Body(Clamp(f.x + DeltaX(pad, keys), 0.0, gameWidth - playerWidth), f.y,
         if jump then JumpForce else f.vy, jump || f.jumping, e.down)
  }

  /** Gamepad jumps over a run of physics frames with a connected gamepad. */
  function PadJumpCount(b: Body, pads: seq<Gamepad>, keys: map<string, bool>, gameWidth: real, playerWidth: real): nat
    decreases |pads|
  {
    if pads == [] then 0
    else
      (if PadJump(b.xButtonDown, Some(pads[0])).fire then 1 else 0)
      + PadJumpCount(Frame(b, Some(pads[0]), keys, gameWidth, playerWidth), pads[1..], keys, gameWidth, playerWidth)
  }

  function JumpButtonPresses(pads: seq<Gamepad>): (r: seq<bool>)
    ensures |r| == |pads| && forall k :: 0 <= k < |pads| ==> r[k] == Button(pads[k], 0)
  {
    seq(|pads|, k requires 0 <= k < |pads| => Button(pads[k], 0))
  }

  /** The gamepad jumps exactly once per press of button 0, however long it is held. */
  lemma {:induction false} PadJumpsOncePerPress(b: Body, pads: seq<Gamepad>, keys: map<string, bool>, gameWidth: real, playerWidth: real)
    ensures PadJumpCount(b, pads, keys, gameWidth, playerWidth) == RisingEdges(b.xButtonDown, JumpButtonPresses(pads))
    decreases |pads|
  {
    if pads != [] {
      var b' := Frame(b, Some(pads[0]), keys, gameWidth, playerWidth);
      PadJumpsOncePerPress(b', pads[1..], keys, gameWidth, playerWidth);
      assert JumpButtonPresses(pads)[1..] == JumpButtonPresses(pads[1..]);
    }
  }

  /** Holding button 0 from a released latch jumps once over any number of frames. */
  lemma HeldJumpButtonJumpsOnce(b: Body, pads: seq<Gamepad>, keys: map<string, bool>, gameWidth: real, playerWidth: real)
    requires forall k :: 0 <= k < |pads| ==> Button(pads[k], 0)
    ensures PadJumpCount(b, pads, keys, gameWidth, playerWidth) == if pads == [] || b.xButtonDown then 0 else 1
  {
    PadJumpsOncePerPress(b, pads, keys, gameWidth, playerWidth);
    FiresOncePerPress(b.xButtonDown, JumpButtonPresses(pads));
    HeldFiresOnce(b.xButtonDown, JumpButtonPresses(pads));
  }

  /** W or Space does nothing while `isJumping` is set after gravity. */
  lemma KeyboardCannotJumpInAir(b: Body, keys: map<string, bool>, gameWidth: real, playerWidth: real)
    requires Fall(b).jumping
    ensures !Jumps(b, None, keys)
    ensures Frame(b, None, keys, gameWidth, playerWidth).vy == b.vy + Gravity || Fall(b).y == 0.0
  {
  }

  /**
   * W or Space looks at the `isJumping` flag, not at the height: a player who
   * walked off a block is in the air with the flag clear, and can still jump.
   */
  lemma KeyboardJumpsAfterWalkingOff(b: Body, keys: map<string, bool>, gameWidth: real, playerWidth: real)
    requires !b.jumping && b.y + b.vy + Gravity > 0.0 && KeyJump(keys)
    ensures Fall(b).y > 0.0
    ensures Frame(b, None, keys, gameWidth, playerWidth).vy == JumpForce
  {
  }

  /** A fresh press of button 0 jumps even in mid-air: the gamepad path does not look at isJumping. */
  lemma PadJumpsInAir(b: Body, g: Gamepad, keys: map<string, bool>, gameWidth: real, playerWidth: real)
    requires Fall(b).jumping && !b.xButtonDown && Button(g, 0)
    ensures Frame(b, Some(g), keys, gameWidth, playerWidth).vy == JumpForce
  {
  }

  // ---------------------------------------------------------------------
  // Landing
  // ---------------------------------------------------------------------

  /** A scoring landing: strict overlap, not rising, and the player's bottom edge at most 10 px below the block's top. */
  predicate Landing(player: Rect, block: Rect, vy: real)
    ensures Landing(player, block, vy) ==> block.top < player.bottom <= block.top + LandingBuffer
    ensures vy > 0.0 ==> !Landing(player, block, vy)
  {
    StrictOverlap(player, block) && vy <= 0.0 && player.bottom <= block.top + LandingBuffer
  }

  function LandingFlags(player: Rect, blockRects: seq<Rect>, vy: real): (r: seq<bool>)
    ensures |r| == |blockRects|
    ensures forall k :: 0 <= k < |r| ==> r[k] == Landing(player, blockRects[k], vy)
  {
    seq(|blockRects|, k requires 0 <= k < |blockRects| => Landing(player, blockRects[k], vy))
  }

  /** A rising player lands on nothing, whatever the rectangles. */
  lemma RisingNeverLands(player: Rect, blockRects: seq<Rect>, vy: real)
    requires vy > 0.0
    ensures !Any(LandingFlags(player, blockRects, vy))
  {
  }

  /** Key-down filter of the keyboard handler: only these (lower-cased) keys are recorded. */
  predicate GameKey(key: string)
  {
    key in {"w", "a", "s", "d", " ", "enter", "escape"}
  }

  /** Input that dismisses the failure pop-up: WASD, Space, Escape, a deflected stick or any button. */
  predicate CloseInput(keys: map<string, bool>, pad: Option<Gamepad>)
    ensures DeltaX(None, keys) != 0.0 || KeyJump(keys) ==> CloseInput(keys, pad)
    ensures pad.Some? && Button(pad.value, 0) ==> CloseInput(keys, pad)
  {
    Held(keys, "a") || Held(keys, "d") || Held(keys, "w") || Held(keys, "s")
    || Held(keys, " ") || Held(keys, "escape")
    || (pad.Some? && (StickMoved(pad.value) || AnyPressed(pad.value.buttons)))
  }

  /** The statements of one physics frame, on the player's state. */
  method PhysicsStep(b: Body, pad: Option<Gamepad>, keys: map<string, bool>, gameWidth: real, playerWidth: real)
    returns (r: Body)
    ensures r == Frame(b, pad, keys, gameWidth, playerWidth)
  {
      // gravity and the ground
      var vy := b.vy + Gravity;
      var y := b.y + vy;
      var jumping := b.jumping;
      if y < 0.0 {
        y, vy, jumping := 0.0, 0.0, false;
      }
      assert Body(b.x, y, vy, jumping, b.xButtonDown) == Fall(b);

      // gamepad: stick and the latched jump button
      var deltaX := 0.0;
      var jump := false;
      var xDown := b.xButtonDown;
      if pad.Some? {
        var g := pad.value;
        deltaX := deltaX + g.stickX * PlayerSpeed;
        if Button(g, 0) && !xDown {
          jump := true;
          xDown := true;
        } else if !Button(g, 0) {
          xDown := false;
        }
      }
      assert Edge(jump, xDown) == PadJump(b.xButtonDown, pad);

      // keyboard: A and D move, W or Space jump from the ground
      if Held(keys, "a") { deltaX := deltaX - PlayerSpeed; }
      if Held(keys, "d") { deltaX := deltaX + PlayerSpeed; }
      if KeyJump(keys) && !jumping {
        jump := true;
      }
      if jump {
        jumping := true;
        vy := JumpForce;
      }
      var x := b.x + deltaX;
      x := Max(0.0, Min(x, gameWidth - playerWidth));
      r := Body(x, y, vy, jumping, xDown);
  }

  /**
   * The forEach of checkCollision over the given blocks, on the player's
   * state: each block landed on (judged with the velocity as it is at that
   * point) puts the player 10 px above the block's height and stops the fall.
   */
  function Settle(b: Body, playerRect: Rect, rects: seq<Rect>): (r: Body)
    ensures r.x == b.x && r.xButtonDown == b.xButtonDown
    ensures r == b || (r.vy == 0.0 && !r.jumping)
    decreases |rects|
  {
    if rects == [] then b
    else
      var r := Settle(b, playerRect, rects[..|rects| - 1]);
      var blockRect := rects[|rects| - 1];
      if Landing(playerRect, blockRect, r.vy) then r.(y := blockRect.Height() + LandingBuffer, vy := 0.0, jumping := false)
      else r
  }

  /**
   * Landing only ever zeroes the velocity, so every block is judged with the
   * frame's own velocity: without a landing the player is untouched, and
   * otherwise the last block landed on decides the height.
   */
  lemma {:induction false} SettleLandsOnLast(b: Body, playerRect: Rect, rects: seq<Rect>)
    ensures (Settle(b, playerRect, rects).vy <= 0.0) == (b.vy <= 0.0)
    ensures !Any(LandingFlags(playerRect, rects, b.vy)) ==> Settle(b, playerRect, rects) == b
    ensures Any(LandingFlags(playerRect, rects, b.vy)) ==>
      var last := LastTrue(LandingFlags(playerRect, rects, b.vy)).value;
      Settle(b, playerRect, rects) == b.(y := rects[last].Height() + LandingBuffer, vy := 0.0, jumping := false)
    decreases |rects|
  {
    if rects != [] {
      var n := |rects| - 1;
      var flags := LandingFlags(playerRect, rects, b.vy);
      SettleLandsOnLast(b, playerRect, rects[..n]);
      assert flags[..n] == LandingFlags(playerRect, rects[..n], b.vy);
      assert flags[..n + 1] == flags;
      AnyExtend(flags, n);
      LastTrueExtend(flags, n);
    }
  }

  /** The loop of checkCollision on the player's state; it also reports the first block landed on. */
  method Landings(b: Body, playerRect: Rect, blockRects: seq<Rect>) returns (r: Body, first: Option<nat>)
    ensures r == Settle(b, playerRect, blockRects)
    ensures first == FirstTrue(LandingFlags(playerRect, blockRects, b.vy))
  {
    ghost var flags := LandingFlags(playerRect, blockRects, b.vy);
    r, first := b, None;
    var i := 0;
    while i < |blockRects|
      invariant 0 <= i <= |blockRects|
      invariant r == Settle(b, playerRect, blockRects[..i])
      invariant first == FirstTrue(flags[..i])
    {
      FirstTrueExtend(flags, i);
      SettleLandsOnLast(b, playerRect, blockRects[..i]);
      assert blockRects[..i + 1][..i] == blockRects[..i];
      var blockRect := blockRects[i];
      var collision := StrictOverlap(playerRect, blockRect);
      if collision {
        var isFalling := r.vy <= 0.0;
        var cameFromAbove := playerRect.bottom <= blockRect.top + LandingBuffer;
        if cameFromAbove && isFalling {
          r := r.(y := blockRect.Height() + LandingBuffer, vy := 0.0, jumping := false);
          if first == None {
            first := Some(i);
          }
        }
      }
      i := i + 1;
    }
    assert blockRects[..i] == blockRects;
    assert flags[..i] == flags;
  }

  /** The first half of loadQuestion: shuffle the option indices [0, 1, 2] in an array. */
  method ShuffleOptions(optionChoices: seq<nat>) returns (order: seq<nat>)
    requires ValidChoices(optionChoices, BlockCount)
    ensures |order| == BlockCount && multiset(order) == multiset{0, 1, 2}
  {
    var a := new nat[BlockCount];
    a[0], a[1], a[2] := 0, 1, 2;
    assert a[..] == [0, 1, 2];
    ShuffleArray(a, optionChoices);
    order := a[..];
  }

  /** The loop of loadQuestion: block i shows option order[i], marked correct when that is the answer. */
  method FillBlocks(order: seq<nat>, q: Question) returns (bs: seq<Block>)
    ensures bs == BlocksFor(order, q)
  {
    bs := [];
    var index := 0;
    while index < |order|
      invariant 0 <= index <= |order|
      invariant bs == BlocksFor(order[..index], q)
    {
      var originalIndex := order[index];
      bs := bs + [Block(originalIndex, originalIndex == q.correctAnswer)];
      index := index + 1;
    }
    assert order[..index] == order;
  }

  /** Blocks laid out from any order of the options 0, 1, 2 are well formed, and exactly one is correct when the answer is one of them. */
  lemma OrderedBlocksWellFormed(order: seq<nat>, q: Question)
    requires multiset(order) == multiset{0, 1, 2}
    ensures BlocksWellFormed(BlocksFor(order, q))
    ensures Labelled(BlocksFor(order, q), q.correctAnswer)
    ensures 0 <= q.correctAnswer < 3 ==> CountCorrect(BlocksFor(order, q)) == 1
  {
    assert |order| == |multiset(order)| == BlockCount;
    WellFormedIsPermutation(BlocksFor(order, q));
    if 0 <= q.correctAnswer < 3 {
      ExactlyOneCorrect(BlocksFor(order, q), q.correctAnswer);
    }
  }

  /** Where closeFailurePopup puts the player: at the start, at rest on the ground; the jump latch is kept. */
  function Restart(b: Body, gameWidth: real, playerWidth: real): (r: Body)
    ensures r.x == StartX(gameWidth, playerWidth) && r.y == 0.0 && r.vy == 0.0 && !r.jumping
    ensures r.xButtonDown == b.xButtonDown
  {
    b.(x := StartX(gameWidth, playerWidth), y := 0.0, vy := 0.0, jumping := false)
  }

  class QuizGame {
    var shuffledQuestions: seq<Question>
    var currentQuestionIndex: nat
    var isPopupOpen: bool
    var isGameComplete: bool
    var questionAttempted: bool
    /** `failureMessage.style.display === 'flex'` */
    var failureShowing: bool
    /** `completionMessage.style.display === 'flex'` */
    var completionShowing: bool
    var blocks: seq<Block>
    var pending: Deferred
    var playerX: real
    var playerY: real
    var playerVelocityY: real
    var isJumping: bool
    var isXButtonDown: bool
    var keys: map<string, bool>

    function Player(): Body
      reads this`playerX, this`playerY, this`playerVelocityY, this`isJumping, this`isXButtonDown
    {
      Body(playerX, playerY, playerVelocityY, isJumping, isXButtonDown)
    }

    /**
     * The game's invariant. The three blocks show a permutation of the option
     * indices 0, 1, 2; the cursor reaches the end exactly at completion; an
     * open pop-up is the failure pop-up or the (terminal) completion pop-up,
     * never both; a showing failure pop-up or a pending callback means the
     * current question has been answered; while the game runs, the blocks are
     * labelled for the current question; and the player is never below ground.
     */
    ghost predicate Valid()
      reads this
    {
      && BlocksWellFormed(blocks)
      && currentQuestionIndex <= |shuffledQuestions|
      && (isGameComplete <==> currentQuestionIndex == |shuffledQuestions|)
      && (isGameComplete ==> isPopupOpen && completionShowing && !failureShowing)
      && (completionShowing ==> isGameComplete)
      && (isPopupOpen ==> failureShowing || completionShowing)
      && (failureShowing ==> isPopupOpen && questionAttempted)
      && (pending != Idle ==> questionAttempted && !isPopupOpen)
      && (!isGameComplete ==> Labelled(blocks, shuffledQuestions[currentQuestionIndex].correctAnswer))
      && playerY >= 0.0
    }

    /** Page start-up: shuffle a copy of the questions, load the first, place the player. */
    constructor (quizQuestions: seq<Question>, questionChoices: seq<nat>, optionChoices: seq<nat>,
                 gameWidth: real, playerWidth: real)
      requires ValidChoices(questionChoices, |quizQuestions|)
      requires ValidChoices(optionChoices, BlockCount)
      ensures Valid()
      ensures shuffledQuestions == Shuffled(quizQuestions, questionChoices)
      ensures multiset(shuffledQuestions) == multiset(quizQuestions)
      ensures currentQuestionIndex == 0
      ensures isGameComplete <==> quizQuestions == []
      ensures !isGameComplete ==> !isPopupOpen && !questionAttempted && pending == Idle
      ensures Player() == Body(StartX(gameWidth, playerWidth), 0.0, 0.0, false, false)
      ensures keys == map[]
    {
      var copy := new Question[|quizQuestions|](i requires 0 <= i < |quizQuestions| => quizQuestions[i]);
      assert copy[..] == quizQuestions;
      ShuffleArray(copy, questionChoices);
      shuffledQuestions := copy[..];
      currentQuestionIndex := 0;
      isPopupOpen, isGameComplete, questionAttempted := false, false, false;
      failureShowing, completionShowing := false, false;
      blocks := [Block(0, false), Block(1, false), Block(2, false)];
      pending := Idle;
      playerX, playerY, playerVelocityY := StartX(gameWidth, playerWidth), 0.0, 0.0;
      isJumping, isXButtonDown := false, false;
      keys := map[];
      new;
      LoadQuestion(optionChoices);
    }

    /** The state in which loadQuestion may run: nothing open, nothing pending, the game not over. */
    ghost predicate Loadable()
      reads this
    {
      && BlocksWellFormed(blocks)
      && currentQuestionIndex <= |shuffledQuestions|
      && !isGameComplete && !isPopupOpen && !failureShowing && !completionShowing
      && pending == Idle
      && playerY >= 0.0
    }

    /**
     * loadQuestion: past the last question the game completes; otherwise the
     * three blocks get a shuffled order of the options, the block showing the
     * correct option is marked correct, and the question is open for an answer.
     */
    method LoadQuestion(optionChoices: seq<nat>)
      requires Loadable()
      requires ValidChoices(optionChoices, BlockCount)
      modifies this`blocks, this`questionAttempted, this`isPopupOpen, this`isGameComplete, this`completionShowing
      ensures Valid()
      ensures old(currentQuestionIndex) == |shuffledQuestions| ==>
        && isGameComplete && isPopupOpen && completionShowing
        && unchanged(this`blocks, this`questionAttempted)
      ensures old(currentQuestionIndex) < |shuffledQuestions| ==>
        && !isGameComplete && !isPopupOpen && !completionShowing && !questionAttempted
        && (0 <= shuffledQuestions[currentQuestionIndex].correctAnswer < 3 ==> CountCorrect(blocks) == 1)
    {
      if currentQuestionIndex >= |shuffledQuestions| {
        HandleCompletion();
        return;
      }
      var q := shuffledQuestions[currentQuestionIndex];
      var order := ShuffleOptions(optionChoices);
      var labelled := FillBlocks(order, q);
      OrderedBlocksWellFormed(order, q);
      blocks, questionAttempted := labelled, false;
    }

    /** handleCompletion: open the completion pop-up and end the game for good. */
    method HandleCompletion()
      requires Loadable() && currentQuestionIndex == |shuffledQuestions|
      modifies this`isPopupOpen, this`isGameComplete, this`completionShowing
      ensures Valid()
      ensures isPopupOpen && isGameComplete && completionShowing
    {
      isPopupOpen := true;
      isGameComplete := true;
      completionShowing := true;
    }

    /**
     * checkAnswer: ignored once the question was answered or the game is over;
     * otherwise marks the question answered and leaves the verdict pending.
     */
    method CheckAnswer(k: nat)
      requires Valid() && k < |blocks|
      modifies this`questionAttempted, this`pending
      ensures Valid()
      ensures old(questionAttempted) || isGameComplete ==> unchanged(this`questionAttempted, this`pending)
      ensures !old(questionAttempted) && !isGameComplete ==> questionAttempted && pending == Verdict(blocks[k])
    {
      if questionAttempted || isGameComplete {
        return;
      }
      questionAttempted := true;
      if blocks[k].correct {
        pending := AdvanceAfterCorrect;
      } else {
        pending := FailureAfterIncorrect;
      }
    }

    /**
     * The callback checkAnswer scheduled. After a correct answer: advance the
     * cursor by one, put the player back on the ground at the start, and load
     * the next question (or complete). After a wrong one: handleFailure.
     */
    method RunDeferred(gameWidth: real, playerWidth: real, optionChoices: seq<nat>)
      requires Valid()
      requires ValidChoices(optionChoices, BlockCount)
      modifies this`pending, this`currentQuestionIndex, this`playerX, this`playerY, this`blocks,
               this`questionAttempted, this`isPopupOpen, this`isGameComplete, this`completionShowing,
               this`failureShowing
      ensures Valid() && pending == Idle
      ensures old(pending) == Idle ==>
        unchanged(this`currentQuestionIndex, this`playerX, this`playerY, this`blocks, this`questionAttempted,
                  this`isPopupOpen, this`isGameComplete, this`completionShowing, this`failureShowing)
      ensures old(pending) == AdvanceAfterCorrect ==>
        && currentQuestionIndex == old(currentQuestionIndex) + 1
        && playerX == StartX(gameWidth, playerWidth) && playerY == 0.0
        && !failureShowing
        && (currentQuestionIndex == |shuffledQuestions| ==> isGameComplete && isPopupOpen && completionShowing)
        && (currentQuestionIndex < |shuffledQuestions| ==>
              && !isGameComplete && !isPopupOpen && !questionAttempted)
      ensures old(pending) == FailureAfterIncorrect ==>
        && isPopupOpen && failureShowing
        && unchanged(this`currentQuestionIndex, this`playerX, this`playerY, this`blocks, this`questionAttempted,
                     this`isGameComplete, this`completionShowing)
    {
      match pending
      case Idle =>
      case AdvanceAfterCorrect =>
        pending := Idle;
        currentQuestionIndex := currentQuestionIndex + 1;
        playerX := StartX(gameWidth, playerWidth);
        playerY := 0.0;
        LoadQuestion(optionChoices);
      case FailureAfterIncorrect =>
        pending := Idle;
        HandleFailure();
    }

    /** handleFailure: show the failure pop-up; the physics loop stops until it is closed. */
    method HandleFailure()
      requires Valid() && questionAttempted && !isPopupOpen && pending == Idle
      modifies this`isPopupOpen, this`failureShowing
      ensures Valid()
      ensures isPopupOpen && failureShowing
    {
      isPopupOpen := true;
      failureShowing := true;
    }

    /**
     * closeFailurePopup: hide the pop-up, reopen the same question for another
     * try and put the player back at the start, at rest on the ground.
     */
    method CloseFailurePopup(gameWidth: real, playerWidth: real)
      requires Valid() && failureShowing
      modifies this`isPopupOpen, this`failureShowing, this`questionAttempted,
               this`playerX, this`playerY, this`playerVelocityY, this`isJumping
      ensures Valid()
      ensures !isPopupOpen && !failureShowing && !questionAttempted
      ensures Player() == Restart(old(Player()), gameWidth, playerWidth)
    {
      isPopupOpen := false;
      failureShowing := false;
      questionAttempted := false;
      playerX := StartX(gameWidth, playerWidth);
      playerY := 0.0;
      playerVelocityY := 0.0;
      isJumping := false;
    }

    /** A click on the failure overlay or its close button, which can only be hit while it shows. */
    method ClickFailurePopup(gameWidth: real, playerWidth: real)
      requires Valid()
      modifies this`isPopupOpen, this`failureShowing, this`questionAttempted,
               this`playerX, this`playerY, this`playerVelocityY, this`isJumping
      ensures Valid()
      ensures !old(failureShowing) ==>
        unchanged(this`isPopupOpen, this`questionAttempted, this`playerX, this`playerY, this`playerVelocityY, this`isJumping)
      ensures old(failureShowing) ==>
        && !isPopupOpen && !failureShowing && !questionAttempted
        && Player() == Restart(old(Player()), gameWidth, playerWidth)
    {
      if failureShowing {
        CloseFailurePopup(gameWidth, playerWidth);
      }
    }

    /**
     * checkInputToClosePopup: only the failure pop-up of an unfinished game is
     * closed, and only when some input is detected.
     */
    method CheckInputToClosePopup(pad: Option<Gamepad>, gameWidth: real, playerWidth: real)
      requires Valid()
      modifies this`isPopupOpen, this`failureShowing, this`questionAttempted,
               this`playerX, this`playerY, this`playerVelocityY, this`isJumping
      ensures Valid()
      ensures old(isPopupOpen) && !isGameComplete && old(failureShowing) && CloseInput(keys, pad) ==>
        && !isPopupOpen && !failureShowing && !questionAttempted
        && Player() == Restart(old(Player()), gameWidth, playerWidth)
      ensures !(old(isPopupOpen) && !isGameComplete && old(failureShowing) && CloseInput(keys, pad)) ==>
        unchanged(this`isPopupOpen, this`failureShowing, this`questionAttempted,
                  this`playerX, this`playerY, this`playerVelocityY, this`isJumping)
    {
      if !isPopupOpen || isGameComplete || !failureShowing {
        return;
      }
      var inputDetected := false;
      if Held(keys, "a") || Held(keys, "d") || Held(keys, "w") || Held(keys, "s") || Held(keys, " ") || Held(keys, "escape") {
        inputDetected := true;
      }
      if pad.Some? {
        var g := pad.value;
        if Abs(g.stickX) > 0.1 || Abs(g.stickY) > 0.1 {
          inputDetected := true;
        }
        var anyButton := AnyButtonPressed(g.buttons);
        if anyButton {
          inputDetected := true;
        }
      }
      if inputDetected {
        CloseFailurePopup(gameWidth, playerWidth);
      }
    }

    /** Keyboard key-down: only the game's keys are recorded; `key` is `e.key` lower-cased. */
    method KeyDown(key: string)
      modifies this`keys
      ensures keys == if GameKey(key) then old(keys)[key := true] else old(keys)
    {
      if GameKey(key) {
        keys := keys[key := true];
      }
    }

    /** Keyboard key-up (`key` is `e.key` lower-cased), or the end of a touch on an on-screen control. */
    method KeyUp(key: string)
      modifies this`keys
      ensures keys == old(keys)[key := false]
    {
      keys := keys[key := false];
    }

    /** Start of a touch (or mouse press) on an on-screen control: recorded unfiltered. */
    method ControlPressed(key: string)
      modifies this`keys
      ensures keys == old(keys)[key := true]
    {
      keys := keys[key := true];
    }

    /** Gravity, jump and horizontal input, then the side clamp. */
    method Step(pad: Option<Gamepad>, gameWidth: real, playerWidth: real)
      requires Valid()
      modifies this`playerX, this`playerY, this`playerVelocityY, this`isJumping, this`isXButtonDown
      ensures Valid()
      ensures Player() == Frame(old(Player()), pad, keys, gameWidth, playerWidth)
    {
      var r := PhysicsStep(Player(), pad, keys, gameWidth, playerWidth);
      playerX, playerY, playerVelocityY, isJumping, isXButtonDown := r.x, r.y, r.vy, r.jumping, r.xButtonDown;
    }

    /** The landing loop of checkCollision on the player's fields; it reports the first block landed on. */
    method LandPlayer(playerRect: Rect, blockRects: seq<Rect>) returns (first: Option<nat>)
      requires Valid()
      requires forall k :: 0 <= k < |blockRects| ==> blockRects[k].WellFormed()
      modifies this`playerY, this`playerVelocityY, this`isJumping
      ensures Valid()
      ensures Player() == Settle(old(Player()), playerRect, blockRects)
      ensures first == FirstTrue(LandingFlags(playerRect, blockRects, old(playerVelocityY)))
    {
      var b := Player();
      var r;
      r, first := Landings(b, playerRect, blockRects);
      SettleLandsOnLast(b, playerRect, blockRects);
      playerY, playerVelocityY, isJumping := r.y, r.vy, r.jumping;
    }

    /**
     * checkCollision: every block the player lands on from above stops the
     * fall; the first such block, in page order, answers the question.
     */
    method CheckCollision(playerRect: Rect, blockRects: seq<Rect>)
      requires Valid()
      requires |blockRects| == BlockCount
      requires forall k :: 0 <= k < |blockRects| ==> blockRects[k].WellFormed()
      modifies this`playerY, this`playerVelocityY, this`isJumping, this`questionAttempted, this`pending
      ensures Valid()
      ensures isPopupOpen && !failureShowing ==>
        unchanged(this`playerY, this`playerVelocityY, this`isJumping, this`questionAttempted, this`pending)
      ensures !(isPopupOpen && !failureShowing) ==> Player() == Settle(old(Player()), playerRect, blockRects)
      ensures !(isPopupOpen && !failureShowing) ==>
        var flags := LandingFlags(playerRect, blockRects, old(playerVelocityY));
        && (!Any(flags) ==>
              unchanged(this`playerY, this`playerVelocityY, this`isJumping, this`questionAttempted, this`pending))
        && (Any(flags) ==>
              && playerVelocityY == 0.0 && !isJumping
              && playerY == blockRects[LastTrue(flags).value].Height() + LandingBuffer
              && (old(questionAttempted) || isGameComplete ==> unchanged(this`questionAttempted, this`pending))
              && (!old(questionAttempted) && !isGameComplete ==>
                    questionAttempted && pending == Verdict(blocks[FirstTrue(flags).value])))
    {
      if isPopupOpen && !failureShowing {
        return;
      }
      ghost var b := Player();
      SettleLandsOnLast(b, playerRect, blockRects);
      var first := LandPlayer(playerRect, blockRects);
      if first.Some? {
        CheckAnswer(first.value);
      }
    }

    /** The running part of gameLoop: physics, then landing. */
    method RunFrame(pad: Option<Gamepad>, gameWidth: real, playerWidth: real, playerRect: Rect, blockRects: seq<Rect>)
      requires Valid() && !isPopupOpen && !isGameComplete
      requires |blockRects| == BlockCount
      requires forall k :: 0 <= k < |blockRects| ==> blockRects[k].WellFormed()
      modifies this`questionAttempted, this`pending,
               this`playerX, this`playerY, this`playerVelocityY, this`isJumping, this`isXButtonDown
      ensures Valid()
      ensures
        var f := Frame(old(Player()), pad, keys, gameWidth, playerWidth);
        var flags := LandingFlags(playerRect, blockRects, f.vy);
        && Player() == Settle(f, playerRect, blockRects)
        && (Any(flags) && !old(questionAttempted) ==> questionAttempted && pending == Verdict(blocks[FirstTrue(flags).value]))
        && (!(Any(flags) && !old(questionAttempted)) ==> unchanged(this`questionAttempted, this`pending))
    {
      Step(pad, gameWidth, playerWidth);
      CheckCollision(playerRect, blockRects);
    }

    /**
     * One frame of gameLoop: offer the failure pop-up a chance to close, then,
     * while nothing is open and the game is not over, run physics and landing.
     */
    method GameLoop(pad: Option<Gamepad>, gameWidth: real, playerWidth: real, playerRect: Rect, blockRects: seq<Rect>)
      requires Valid()
      requires |blockRects| == BlockCount
      requires forall k :: 0 <= k < |blockRects| ==> blockRects[k].WellFormed()
      modifies this`isPopupOpen, this`failureShowing, this`questionAttempted, this`pending,
               this`playerX, this`playerY, this`playerVelocityY, this`isJumping, this`isXButtonDown
      ensures Valid()
      ensures !isPopupOpen && gameWidth >= playerWidth ==> 0.0 <= playerX <= gameWidth - playerWidth
      ensures
        var closes := old(isPopupOpen) && !isGameComplete && old(failureShowing) && CloseInput(keys, pad);
        var runs := (!old(isPopupOpen) || closes) && !isGameComplete;
        !runs ==> unchanged(this)
      ensures
        var closes := old(isPopupOpen) && !isGameComplete && old(failureShowing) && CloseInput(keys, pad);
        var runs := (!old(isPopupOpen) || closes) && !isGameComplete;
        var start := if closes then Restart(old(Player()), gameWidth, playerWidth) else old(Player());
        var attempted := !closes && old(questionAttempted);
        var f := Frame(start, pad, keys, gameWidth, playerWidth);
        var flags := LandingFlags(playerRect, blockRects, f.vy);
        runs ==>
          && !isPopupOpen && !failureShowing
          && Player() == Settle(f, playerRect, blockRects)
          && (Any(flags) && !attempted ==> questionAttempted && pending == Verdict(blocks[FirstTrue(flags).value]))
          && (!(Any(flags) && !attempted) ==> questionAttempted == attempted && pending == old(pending))
    {
      if isPopupOpen {
        CheckInputToClosePopup(pad, gameWidth, playerWidth);
      }
      if !isPopupOpen && !isGameComplete {
        RunFrame(pad, gameWidth, playerWidth, playerRect, blockRects);
      }
    }
  }
}
