# Browser mini-games of the diabetes information site, modelled in Dafny

This project models the game logic of three page scripts of the diabetes
information site:

- **platform/quiz.js**: a platformer quiz. The player runs and jumps with the
  keyboard, on-screen buttons or a gamepad. A question is answered by landing
  from above on one of three answer blocks. A correct answer advances to the
  next question after a delay. A wrong one opens a failure pop-up, and closing
  it retries the same question. After the last question a terminal completion
  pop-up opens.
- **autopista/highway.js**: a highway scene. A car is dragged along a road
  with the mouse, or driven with WASD, a gamepad stick or the D-pad. A touch
  drag starts but never moves the car (see "## Findings"). It stays inside the scene
  and on the road band. Touching a house opens that house's information
  pop-up, and only one pop-up is open at a time (`activeCasita`). WASD, a
  deflected stick or any gamepad button clears the slot and lets the car
  move, but the collision check at the end of the same frame opens the first
  overlapping house again. So after every frame a pop-up is open exactly
  while some house overlaps the car. The R2 trigger cues the engine sound
  once per press.
- **script.js**: an older car scene. The car is dragged within the container,
  and the view scrolls when the pointer nears a screen edge. The `isColliding`
  dictionary makes each house's collision sound play once per arrival, while
  its information shows exactly while the car is on it.

Modules:

- `Geometry`: rectangles, clamping and the three overlap tests the scripts use.
- `Input`: gamepad snapshots, held keys and the press latch (edge detector)
  shared by the jump button and the R2 trigger.
- `Search`: first and last true flag.
- `Shuffle`: the Fisher–Yates shuffle of quiz.js, driven by a sequence of
  random choices.
- `Quiz`, `Highway`, `CarScene`: the three scripts.

Each page's closure variables become the fields of a class (`Quiz.QuizGame`,
`Highway.HighwayScene`, `CarScene.CarScene`), and each event handler or frame
becomes a method. Every read of the page becomes a parameter: element
rectangles, widths, the window width, the polled gamepad state and the values
of `Math.random()`. Each frame's arithmetic and each `forEach` loop is
specified by a pure function. Lemmas then prove what the game promises about
those functions. Examples: exactly one correct block per question; one jump
per button press; one R2 cue per trigger press; one collision sound per
arrival; the car stays on the road; after each collision check a pop-up is
open exactly when some house overlaps the car.

Key names are those of `e.key` lower-cased, as both pages record them.

## Model

| member | source | states |
|---|---|---|
| Geometry.Clamp | autopista/highway.js:216-219 | `Math.max(lo, Math.min(x, hi))` lies in [lo, hi] when lo <= hi, equals lo or hi when x is outside, and leaves x alone inside |
| Geometry.PaddedOverlap | autopista/highway.js:145-150 | the padded collision test holds exactly when the car overlaps, edges included, the house shrunk by the padding on every side |
| Geometry.ClosedOverlapSymmetric | script.js:81-86 | the closed overlap underlying the padded test is symmetric |
| Geometry.SharedRegionHitsBoth | autopista/highway.js:140-164 | a car covering any point that lies inside two houses shrunk by the padding collides with both in the same frame |
| Geometry.StrictOverlap | platform/quiz.js:180-185 | the block-collision test implies a closed overlap both ways, and rectangles that only touch along an edge do not collide |
| Geometry.StrictOverlapSymmetric | platform/quiz.js:180-185 | the strict block-collision test is symmetric |
| Input.AnyButtonPressed | platform/quiz.js:295-300 | the scan over the buttons reports true exactly when some button is pressed |
| Input.EdgeStep | platform/quiz.js:409-414 | one frame of the press latch records the current button state and fires exactly when the button is pressed and was released |
| Input.FiresOncePerPress | autopista/highway.js:330-337 | a latched button fires exactly on the frames where it goes from released to pressed |
| Input.HeldFiresOnce | platform/quiz.js:409-415 | holding a latched button over any number of frames fires at most once |
| Search.AnyExtend | autopista/highway.js:152-153 | the "some house collides" flag after one more house is the old flag or that house's result |
| Search.FirstTrueExtend | autopista/highway.js:155-156 | the first colliding index after one more house is the old one, or the new house when it is the first |
| Search.LastTrueExtend | platform/quiz.js:189-196 | the last landing after one more block is that block when it lands, otherwise the old last |
| Shuffle.ShuffledIsPermutation | platform/quiz.js:87-93 | the shuffle is a permutation of its input |
| Shuffle.Shuffled | platform/quiz.js:87-93 | the loop from the top index down to 1, as a function of the draws; it keeps the length and the multiset |
| Shuffle.ShuffleArray | platform/quiz.js:87-93 | the in-place loop leaves the array equal to the shuffle function of its old contents, a permutation |
| Quiz.CountIsMultiplicity | platform/quiz.js:121-124 | with blocks labelled `originalIndex === q.correctAnswer`, the number of correct blocks is how often the answer's index is shown |
| Quiz.WellFormedIsPermutation | platform/quiz.js:116-128 | three blocks with distinct option indices below three are exactly the blocks showing a permutation of [0, 1, 2] |
| Quiz.ExactlyOneCorrect | platform/quiz.js:116-128 | blocks laid out from a permutation of the options, with the answer among them, have exactly one correct block |
| Quiz.OrderedBlocksWellFormed | platform/quiz.js:116-128 | blocks filled from any shuffled order are well formed, labelled for the question, and exactly one is correct when the answer index is 0, 1 or 2 |
| Quiz.ShuffleOptions | platform/quiz.js:116-117 | the shuffled option indices are a permutation of [0, 1, 2] |
| Quiz.FillBlocks | platform/quiz.js:119-128 | block i shows option order[i] and is marked correct exactly when that option is the answer |
| Quiz.Fall | platform/quiz.js:384-392 | gravity moves the player by the new velocity; below the ground it is put on the ground at rest with `isJumping` cleared; exactly at the ground it keeps the new velocity and the flag; it is never below ground |
| Quiz.PadJump | platform/quiz.js:404-415 | without a gamepad the jump latch is untouched; with one it follows button 0 through the edge detector |
| Quiz.DeltaX | platform/quiz.js:395-419 | without a gamepad the horizontal input is one speed step at most, zero exactly when A and D agree; with one it is the stick times the speed plus a step of -5, 0 or 5 |
| Quiz.Frame | platform/quiz.js:382-444 | one physics frame puts the player at the height gravity and the ground give, moves it by the horizontal input when that stays inside the scene and clamps it to the sides otherwise, latches button 0, and starts a jump exactly when the button is freshly pressed or W/Space is held while `isJumping` is clear |
| Quiz.PhysicsStep | platform/quiz.js:382-444 | the frame's statements compute exactly `Frame` |
| Quiz.PadJumpsOncePerPress | platform/quiz.js:409-415 | over any run of frames the gamepad jumps exactly once per press of button 0 |
| Quiz.HeldJumpButtonJumpsOnce | platform/quiz.js:409-415 | holding button 0 from a released latch jumps once, however long it is held |
| Quiz.KeyboardCannotJumpInAir | platform/quiz.js:421-428 | W or Space cannot start a jump while `isJumping` is set after gravity, so the player only keeps falling or lands |
| Quiz.KeyboardJumpsAfterWalkingOff | platform/quiz.js:421-428 | a player that walked off a block is airborne with `isJumping` clear, so W or Space still jumps in mid-air |
| Quiz.PadJumpsInAir | platform/quiz.js:409-428 | a fresh press of button 0 jumps even in mid-air, since the gamepad path does not look at `isJumping` |
| Quiz.RisingNeverLands | platform/quiz.js:190-193 | a rising player lands on no block |
| Quiz.Landing | platform/quiz.js:180-193 | a landing puts the player's bottom edge within 10 px below the block's top, and never happens while rising |
| Quiz.Settle | platform/quiz.js:172-200 | the landing loop keeps the horizontal position and the jump latch, and either leaves the player alone or brings it to rest with `isJumping` clear |
| Quiz.SettleLandsOnLast | platform/quiz.js:172-200 | the landing loop leaves the player untouched when no block is landed on, and otherwise puts it 10 px above the height of the last block landed on, at rest |
| Quiz.Landings | platform/quiz.js:172-200 | the loop over the blocks computes the settled player and the first block landed on |
| Quiz.QuizGame.constructor | platform/quiz.js:460-466 | start-up shuffles a copy of the questions, loads the first (or completes at once when there are none) and places the player at the start, at rest |
| Quiz.QuizGame.LoadQuestion | platform/quiz.js:108-131 | past the last question the game completes; otherwise the blocks are reloaded with exactly one correct block and the question is open for an answer |
| Quiz.QuizGame.HandleCompletion | platform/quiz.js:215-244 | completion opens the completion pop-up and ends the game |
| Quiz.QuizGame.CheckAnswer | platform/quiz.js:133-168 | an answered question or finished game ignores the landing; otherwise the question is marked answered and the block's verdict is left pending |
| Quiz.QuizGame.RunDeferred | platform/quiz.js:147-166 | after a correct answer the cursor advances by one, the player is put back and the next question (or completion) loads; after a wrong one the failure pop-up opens |
| Quiz.QuizGame.HandleFailure | platform/quiz.js:204-213 | the failure pop-up opens and stops the physics |
| Quiz.QuizGame.CloseFailurePopup | platform/quiz.js:246-261 | closing the failure pop-up reopens the same question and puts the player back at the start, at rest on the ground (`Restart`), keeping the jump latch |
| Quiz.Restart | platform/quiz.js:251-255 | where closeFailurePopup puts the player: at the start position, on the ground, at rest, with `isJumping` clear and the jump latch kept |
| Quiz.QuizGame.ClickFailurePopup | platform/quiz.js:204-208 | a click on the showing failure overlay closes it; otherwise nothing changes |
| Quiz.CloseInput | platform/quiz.js:275-300 | the close condition of the failure pop-up (WASD, Space, Escape, a stick past 0.1, any button); every keyboard input that moves or jumps the player and gamepad button 0 satisfy it |
| Quiz.QuizGame.CheckInputToClosePopup | platform/quiz.js:268-308 | the failure pop-up of an unfinished game closes exactly when WASD, Space, Escape, a deflected stick or a gamepad button is detected |
| Quiz.QuizGame.KeyDown | platform/quiz.js:339-352 | only W, A, S, D, Space, Enter and Escape are recorded as held |
| Quiz.QuizGame.KeyUp | platform/quiz.js:354-356 | any released key, or the end of a touch on an on-screen control, is recorded as not held |
| Quiz.QuizGame.ControlPressed | platform/quiz.js:318-323 | an on-screen control records its key as held, unfiltered |
| Quiz.QuizGame.Step | platform/quiz.js:382-448 | the player's fields advance by exactly one `Frame` and the game's invariant is kept |
| Quiz.QuizGame.LandPlayer | platform/quiz.js:172-200 | the loop over the blocks settles the player as `Settle` and reports the first block landed on |
| Quiz.QuizGame.RunFrame | platform/quiz.js:382-452 | a running frame moves the player by one `Frame`, settles it on the blocks, and lets the first block landed on answer an open question |
| Quiz.QuizGame.CheckCollision | platform/quiz.js:170-202 | unless a non-failure pop-up is open, the player becomes `Settle` of the blocks, stopping at the last block landed on, and the first such block answers the question; without a landing nothing changes |
| Quiz.QuizGame.GameLoop | platform/quiz.js:373-455 | with the failure pop-up open, closing input closes it and puts the player back at the start, and the same frame then runs; a frame that runs moves the player by one `Frame`, settles it on the blocks and lets the first landed block answer; a frame that does not run changes nothing; the player stays inside the scene |
| Highway.GetRoadLimits | autopista/highway.js:64-74 | the band starts at 340 and ends so that the car's bottom edge reaches exactly 550 |
| Highway.ClampToRoad | autopista/highway.js:213-219 | when the car fits the scene, the clamped position is on the road and inside the scene, and a position already there is kept |
| Highway.CarRect | autopista/highway.js:136 | a car of non-negative size has a well-formed rectangle |
| Highway.NextActive | autopista/highway.js:135-169 | after a collision check a pop-up is open exactly when some house collides; an open pop-up stays; otherwise the first colliding house in page order opens |
| Highway.MoveDelta | autopista/highway.js:348-371 | without a gamepad the input is the keyboard's; with one, each axis is the keyboard's plus the stick times 5 plus one D-pad step of -5, 0 or 5 |
| Highway.PadDelta | autopista/highway.js:352-364 | with a gamepad each axis is the stick times 5 plus one D-pad step of -5, 0 or 5; without one, nothing |
| Highway.KeyDelta | autopista/highway.js:367-371 | each axis is one step of -5, 0 or 5 towards the held one of its two keys, nothing when both or neither are held |
| Highway.KeyboardMoves | autopista/highway.js:368-374 | without a gamepad the car moves exactly when A and D differ or W and S differ: opposite keys cancel |
| Highway.AfterCloseInput | autopista/highway.js:294-324 | an open pop-up closes on WASD, a deflected stick or any gamepad button, input never opens one, and without such input the slot is unchanged |
| Highway.CloseInput | autopista/highway.js:294-324 | the close-on-input condition (WASD, a stick past 0.1, any button); every keyboard input that moves the car and every D-pad press satisfies it |
| Highway.PopupReopensWhileOverlapping | autopista/highway.js:287-408 | after a frame's close-on-input and collision check, a pop-up is open exactly when some house overlaps the car, and input on an open pop-up hands the slot to the first overlapping house |
| Highway.R2Step | autopista/highway.js:328-338 | the engine cue fires only when R2 is pushed past 0.5 from released, and nothing happens without a gamepad or its trigger axis |
| Highway.R2CuesOncePerPress | autopista/highway.js:328-338 | over any run of frames the engine cue fires exactly once per press of R2 |
| Highway.HeldTriggerCuesOnce | autopista/highway.js:328-338 | holding R2 over any number of frames cues the engine at most once |
| Highway.InputDelta | autopista/highway.js:348-371 | the frame's statements compute `MoveDelta`; without a gamepad each axis is one step of -5, 0 or 5 from its two keys, and the car moves exactly when A and D or W and S differ |
| Highway.MoveCar | autopista/highway.js:374-392 | the car moves by the input with both clamps when the input exceeds 0.1 on some axis, and stays put otherwise |
| Highway.PointerCoordAsWritten | autopista/highway.js:183-184 | the coordinate fallback yields the event's coordinate except at exactly 0, where it fails |
| Highway.EdgePointerAborts | autopista/highway.js:207-208 | the coordinate fallback aborts the handler exactly when the pointer is at the screen's left (or top) edge, coordinate 0 |
| Highway.PointerCoord | autopista/highway.js:207-208 | the intended coordinate agrees with the fallback wherever the fallback succeeds |
| Highway.HighwayScene.constructor | autopista/highway.js:411-412 | the scene starts with the car at (50, 400), no pop-up, no drag and no key or trigger held (the state declared at lines 11-33) |
| Highway.HighwayScene.ActivateCollision | autopista/highway.js:81-108 | a house's pop-up opens only when no pop-up is open |
| Highway.HighwayScene.DeactivateCollision | autopista/highway.js:110-119 | the open pop-up, if any, closes |
| Highway.HighwayScene.CheckCollision | autopista/highway.js:135-169 | the slot becomes `NextActive` of the old slot and the houses' collision results |
| Highway.HighwayScene.StartDrag | autopista/highway.js:176-198 | starting a drag closes any pop-up and records the grab offset |
| Highway.HighwayScene.Drag | autopista/highway.js:200-229 | while dragging, the car follows the pointer less the grab offset, clamped to the scene and the road, then collisions are checked; otherwise nothing changes |
| Highway.HighwayScene.DragAsWritten | autopista/highway.js:200-246 | as the listeners call it: a touch drag, a mouse event at coordinate 0 or no drag in progress leaves the car and the slot unchanged; otherwise the car moves as in `Drag` |
| Highway.HighwayScene.EndDrag | autopista/highway.js:231-239 | the drag ends |
| Highway.HighwayScene.KeyDown | autopista/highway.js:255-265 | every pressed key is recorded as held |
| Highway.HighwayScene.KeyUp | autopista/highway.js:267-269 | a released key is recorded as not held |
| Highway.HighwayScene.CloseOnInput | autopista/highway.js:294-324 | the slot becomes `AfterCloseInput` of the old slot |
| Highway.HighwayScene.R2Latch | autopista/highway.js:328-338 | the latch follows `R2Step` and reports whether the engine sound was cued |
| Highway.HighwayScene.GameLoop | autopista/highway.js:287-408 | one frame closes a pop-up on input, follows the R2 latch, moves the car only when no pop-up is open and no drag is in progress, and leaves the slot as `NextActive` at the new position, so a pop-up is open after the frame exactly when some house overlaps the car |
| CarScene.SweepElsewhere | script.js:72-102 | the collision loop leaves the entries of houses it does not visit alone |
| CarScene.SweepRecords | script.js:72-102 | with distinct house ids, after the loop every house's entry is its collision result of this frame |
| CarScene.RepeatedFrameIsSilent | script.js:88-96 | a second check with the same collision results plays no sound |
| CarScene.EntriesOncePerArrival | script.js:88-101 | over any run of frames a house's sound plays exactly on the frames where the car starts overlapping it |
| CarScene.SustainedOverlapEntersOnce | script.js:88-96 | keeping the car on a house for any number of frames plays its sound at most once |
| CarScene.Visit | script.js:88-101 | after a house's turn its entry exists and is truthy exactly when the car overlaps it |
| CarScene.VisitHouse | script.js:88-101 | one house's branch: the entry becomes `Visit` of the old dictionary, and the sound plays exactly when the car overlaps a house not already marked colliding |
| CarScene.Sweep | script.js:72-102 | the loop keeps every existing key of the dictionary; its contents are stated by `SweepRecords` and `SweepElsewhere` |
| CarScene.CheckCollisionRecordsOverlap | script.js:67-103 | after a check each house's `isColliding` entry is truthy exactly when the car overlaps it, and other entries are untouched |
| CarScene.AutoScroll | script.js:49-56 | the view scrolls left inside the left 30% band, right inside the right band, and not at all in between |
| CarScene.AutoScrollMirror | script.js:49-56 | the two bands mirror each other: equal depth into either band scrolls equally in opposite directions |
| CarScene.AutoScrollMonotone | script.js:49-56 | moving the pointer right never scrolls less |
| CarScene.SweepHouses | script.js:72-102 | the loop updates the dictionary as the specified sweep, plays the sound for houses entered this frame and shows exactly the colliding houses' information |
| CarScene.CarScene.constructor | script.js:11-15 | the scene starts with an empty collision dictionary and no drag |
| CarScene.CarScene.MouseDown | script.js:18-30 | the drag starts with the grab offset from the car's corner |
| CarScene.CarScene.MouseUp | script.js:61-64 | the drag ends |
| CarScene.CarScene.CheckCollision | script.js:67-103 | the dictionary becomes the sweep of its old value over the houses' collision results |
| CarScene.CarScene.MouseMove | script.js:32-59 | without a drag nothing changes; otherwise the car follows the pointer clamped to the container, the view scrolls by `AutoScroll`, and collisions are checked |

## Left out

- Audio is left out: music, the correct, incorrect and success sounds, engine start and rev, and collision sounds. Where a sound's timing is the point, it surfaces as a result instead: R2's `revCue` and `entered` in the car scene.
- DOM and styling are left out: texts, images, classes, cursor, `pointer-events`, the completion pop-up hiding the player, and the sprite's facing direction.
- The question texts are left out: a `Question` keeps its options and answer index, and the German prose plays no part.
- `requestAnimationFrame`, `setTimeout` and the gamepad connect/disconnect events are left out. A frame is one call of `GameLoop`, and a timeout callback is `RunDeferred`, called when the delay has elapsed. The polled gamepad is a parameter (`None` when not connected).
- A missing stick axis (`undefined`, so `NaN` arithmetic) is not modelled: the stick axes are always present. The R2 axis (`axes[5]`) may be missing, which disables the latch as in the code.
- The highway's scroll-centring on drag (autopista/highway.js:224-226) and its scroll on keyboard or gamepad moves (autopista/highway.js:395) are left out. They change only the view, and rectangles are given in content coordinates.
- Highway.PointerCoord: the touch fallback `e.touches[0]` is not modelled beyond its failure. StartDrag and Drag receive the coordinates of the mouse event, or of the Touch that the touch listeners pass; DragAsWritten takes whether the event is a Touch as a parameter.
- The browser's clamping of `scrollLeft` to the scrollable range is left out: `CarScene.CarScene.scrollLeft` is the requested value.
- Element rectangles come from layout, so they are parameters. The page has exactly three answer blocks, and `Quiz.QuizGame.CheckCollision` and `GameLoop` require three well-formed rectangles.
- House element ids are assumed pairwise distinct, as HTML ids are. The car scene's `Valid` requires it.
- Quiz.QuizGame.LoadQuestion: promises a permutation of the options with exactly one correct block, not the exact order the random choices produce (the order itself is `Shuffle.ShuffleArray`'s contract).
- Quiz.QuizGame.RunDeferred: same as LoadQuestion for the order of the next question's blocks.
- Quiz.QuizGame.constructor: same as LoadQuestion for the first question's blocks.
- Quiz.QuizGame.CheckCollision: calls `CheckAnswer` only for the first block landed on. In the code every landing calls it, but the first call marks the question answered, so the later ones return at once.
- Quiz.QuizGame.ClickFailurePopup: both the overlay's `{ once: true }` listener and the close button's listener are this one method. They can only be clicked while the overlay shows.
- CarScene.AutoScroll: requires a non-negative window width, as `window.innerWidth` always is.
- Quiz.QuizGame.constructor: places the player before loading the first question, while the code loads first; the swap is harmless because `loadQuestion` neither reads nor writes the player.
- Highway.HighwayScene.StartDrag: uses the corrected coordinate `PointerCoord`; at a coordinate of 0 the code throws after closing the pop-up and setting `isDragging`, which `EdgePointerAborts` states instead.
- Highway.HighwayScene.Drag: models the drag as evidently intended, for mouse and touch alike, with the corrected coordinate `PointerCoord`. As written, a touchmove throws at `e.preventDefault()` (autopista/highway.js:203) before the car moves, and a mouse event at coordinate 0 throws before the move; `DragAsWritten` states both. Since touchstart has set `isDragging`, keyboard and gamepad moves stay blocked until touchend, which `GameLoop`'s drag guard states.
- CarScene.CarScene.MouseMove: the car's rectangle for the collision check is a parameter, because `getBoundingClientRect` differs from `style.left`/`style.top` by the container's position and scroll.

## Findings

| source | as written | input that shows it | evidently intended | confidence | as-written member | corrected member |
|---|---|---|---|---|---|---|
| autopista/highway.js:183-184, 207-208 | `e.clientX \|\| e.touches[0].clientX` treats a coordinate of 0 as missing, then reads `touches` of a MouseEvent or Touch, which has none | a mouse press or move with `clientX == 0` (pointer at the screen's left edge), or `clientY == 0` at the top edge | use the event's own coordinate at every position | high, not executed | Highway.PointerCoordAsWritten, Highway.EdgePointerAborts | Highway.PointerCoord |
| autopista/highway.js:203, 246 | the touchmove listener passes `e.touches[0]`, a Touch, to `drag`, which calls `e.preventDefault()` on it; a Touch has no such method, so the handler throws before moving the car | any touchmove while a touch drag is in progress (touchstart has set `isDragging`) | call `preventDefault` on the TouchEvent and read the Touch's coordinates, as the `passive: false` listeners indicate | high, not executed | Highway.HighwayScene.DragAsWritten | Highway.HighwayScene.Drag |
