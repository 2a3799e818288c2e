# Flappy-bird game logic in Dafny

This project models the game logic of `game.js`, a browser flappy-bird clone, and proves
properties about it. Drawing, audio and the DOM are left out.

The game keeps four pieces of module-level state:
- the `bird` object, whose `y` and `velocity` change every frame;
- the `pipes` array of pipe records;
- the `score`;
- the `gameState` string: 'start', 'playing' or 'gameOver'.

Every animation frame runs `gameLoop`:
- The bird falls under gravity and is clamped to the canvas.
- In 'playing' only:
  - The pipes scroll left, and pipes that have left the canvas are spliced out.
  - A new top/bottom pair appears at the right edge when the newest pair has moved far enough in.
  - A collision ends the game.
  - The first pipe the bird has passed earns a point.

The Space key starts a game, flaps, or restarts after a game over.

The model has five modules, one per part of the game:

- `Physics` (physics.dfy) holds:
  - the bird's constants;
  - the clamped Euler step `Fall`;
  - a `Bird` class whose `Update` and `Flap` methods change `y` and `velocity` in place.
- `Pipes` (pipes.dfy) holds:
  - pipe records as values;
  - the pair created by `createPipe`;
  - the scroll-and-cull pass as a stable filter (`Scroll`);
  - the whole of `updatePipes` (`Advance`);
  - the pairing invariant `Paired`, which keeps the index `length - 2` of game.js:104 in range.
- `Collision` (collision.dfy) holds the rectangle-overlap test.
- `Scoring` (scoring.dfy) holds the score loop as a function on the pipe list and the score.
- `Session` (session.dfy) has two layers:
  - Specification functions on a snapshot `World` of the whole state: `OnFrame`, `OnSpace` and `Run`, with the invariant `Consistent` that every one of them keeps.
  - The class `Game`, whose methods carry the names and loops of game.js. Each method is proved to change the state exactly as the specification function says.

`Math.random()` becomes a parameter `r`, the value `Math.floor(Math.random() * (canvas.height - 220))` takes. A valid draw satisfies `0 <= r < canvas.height - 220` (`Pipes.IsDraw`). Bird positions and velocities are exact reals. Pipe coordinates are integers, as in the source.

Where the code behaves in a way a casual reading might not expect, the model follows the code:
- **Space in 'start' runs a frame.** Pressing Space in 'start' sets 'playing' and then calls `gameLoop()` at once (game.js:145-152). So the bird falls one step, the first pair appears and the score loop runs before the key handler returns (`Session.OnSpace`).
- **The collision frame schedules one more frame.** `requestAnimationFrame` is called inside the 'playing' branch, after the collision test (game.js:171-194). So the frame that ends the game still asks for another frame. That frame runs in 'gameOver' and moves only the bird (`Session.Game.GameLoop`'s `rescheduled`).
- **The first frame runs at load.** The script ends with `resetGame(); gameLoop();` (game.js:211-213). So the bird waiting on the start screen is at `y = 150.2` with velocity `0.2`, not at 150 (`Session.Game.constructor`).
- **Only top pipes are scored.** Only the top pipe of a pair is ever marked `passed` (the `p.y === 0` test of game.js:187). The pairing invariant therefore says that the bottom pipe is never marked; it does not say that both share one flag.

## Model

| member | source | states |
|---|---|---|
| Physics.Fall | game.js:40-52 | On a canvas at least as tall as the bird, the bird ends wholly inside the canvas. If the unclamped step keeps it inside, the result is exactly the Euler step (velocity + gravity, then y + new velocity). Otherwise the velocity is 0, and the bird sits on the ceiling (y = 0) or on the floor (y = height - 30), whichever edge it crossed. |
| Physics.FallFromRest | game.js:28-33 | A bird at rest at the start height falls to 150.2 with velocity 0.2 in one frame on any canvas it fits in. |
| Physics.Bird.constructor | game.js:26-34 | The bird starts at y = 150 at rest. |
| Physics.Bird.Update | game.js:40-52 | The new (y, velocity) is `Fall` of the old one, so the clamp bounds of `Fall` hold of the object's fields. |
| Physics.Bird.Flap | game.js:54-56 | The velocity becomes the lift, -4; y is unchanged. |
| Pipes.SpawnPair | game.js:65-81 | For a draw r, the two new pipes form a pair: both at x = canvas width, both 50 wide, neither passed. The top pipe hangs from y = 0 with height r + 50, which lies in [50, height - 170). The bottom pipe starts 120 below it and reaches the floor. |
| Pipes.SpawnHeights | game.js:66 | Each top height in [50, height - 170) comes from exactly one draw. |
| Pipes.PairedEven | game.js:104 | A paired list has even length, so a nonempty one has an index length - 2. |
| Pipes.PairedAt | game.js:65-81 | Read from the front, a paired list pairs indices 2k and 2k + 1. |
| Pipes.PairedAppend | game.js:67-80 | Pushing a pair onto a paired list keeps it paired. |
| Pipes.Scroll | game.js:91-101 | The pass keeps at most the old number of pipes, and none it keeps is off screen. |
| Pipes.ScrollSnoc | game.js:92-101 | Unfolding helper: `Scroll`'s last-element case, stated for a list written as `ps + [p]`. |
| Pipes.ScrollOrigin | game.js:92-101 | Every pipe the pass returns is an old pipe moved left once. |
| Pipes.ScrollKeepsVisible | game.js:97-100 | An old pipe's moved copy is in the result exactly when it is still on screen. No visible pipe is skipped. |
| Pipes.KeptIndices | game.js:92-101 | The pass keeps the old order: the j-th kept pipe is old pipe `ks[j]` moved once, and the indices `ks` strictly increase. |
| Pipes.ScrollAllVisible | game.js:92-101 | When no pipe leaves the screen, the result is the old list with every x reduced by 2, in the same order. |
| Pipes.ScrollPair | game.js:92-101 | The two pipes of a column are kept together or dropped together. |
| Pipes.ScrollPaired | game.js:91-101 | Scrolling keeps the list paired. |
| Pipes.CullStep | game.js:92-101 | One turn of the index loop, including `splice` and `i--`, turns "first i entries are the filtered image of the first k old pipes, rest untouched" into the same statement for k + 1. No pipe is skipped or moved twice. |
| Pipes.Advance | game.js:91-107 | The pipe list after `updatePipes` is paired and nonempty. |
| Pipes.AdvanceCases | game.js:103-106 | The scrolled list never has length 1. The spawn test's index is therefore valid, and the result is the scrolled list plus the new pair exactly under the test of line 104. |
| Pipes.AdvanceSpawns | game.js:103-106 | The scrolled list is a prefix of the result. One new pair follows it exactly when the scrolled list is empty or its second-to-last pipe is left of width - 200; otherwise nothing is added. |
| Collision.Collides | game.js:109-123 | Collision holds exactly when the bird's rectangle and some pipe's rectangle satisfy the four strict comparisons. |
| Collision.CollidesSamePlaces | game.js:109-123 | Lists placing the same rectangles give the same answer. The `passed` flag plays no part. |
| Collision.CollidesTranslate | game.js:113-118 | Moving the bird and every pipe by one offset changes no answer. |
| Scoring.FirstScorable | game.js:185-192 | The index where the score loop stops: a scorable pipe, with none scorable before it, or the length when there is none. |
| Scoring.ScoreStep | game.js:185-192 | The list length is kept. The score rises by 0 or 1, and by 1 exactly when some pipe is a scorable top pipe left of the bird. The list changes exactly when the score does. |
| Scoring.ScoreMarksFirst | game.js:185-192 | Only the first scorable pipe can change, and only by becoming passed. All other pipes are unchanged. |
| Scoring.ScoreCountsPassed | game.js:188-189 | Each point awarded is one more pipe marked passed. A passed pipe is never scored again. |
| Scoring.MarkCount | game.js:189 | Marking an unmarked pipe raises the passed count by one. |
| Scoring.MarkKeepsPaired | game.js:187-189 | Marking a top pipe keeps the list paired. |
| Scoring.ScoreKeepsPaired | game.js:185-192 | The score loop keeps the list paired. |
| Session.OnFrame | game.js:166-195 | A frame keeps the invariant and moves the bird by `Fall` in every mode. The mode changes only from 'playing' to 'gameOver', exactly on a collision with the scrolled pipes. Pipes and score change only in 'playing'. The score rises by at most one. |
| Session.FrameCases | game.js:168-192 | Unfolding helper: `OnFrame`'s definition, one case per mode, for the proof of `Game.GameLoop`. |
| Session.FirstPlayingFrame | game.js:103-106 | The first frame of a game spawns exactly one pair at the right edge, and no pipe is scored on it. |
| Session.OnSpace | game.js:143-163 | Space keeps the invariant. In 'start' it runs one frame in 'playing': a pair appears, the score is 0, the mode is no longer 'start'. In 'playing' it flaps and leaves everything else unchanged. In 'gameOver' it gives the reset state. It adds at most one point. |
| Session.Run | game.js:143-195 | Any sequence of frames and key presses keeps the invariant and adds at most one point per input. |
| Session.Game.constructor | game.js:211-213 | After set-up (resetGame, then one frame), the game is in 'start' with no pipes and no points, and the bird is at 150.2 falling at 0.2. |
| Session.Game.CreatePipe | game.js:65-81 | The list becomes the old list followed by the new pair. Existing pipes are untouched. |
| Session.Game.ScrollPipes | game.js:92-101 | The index loop with `splice` and `i--` leaves exactly `Scroll` of the old list. |
| Session.Game.UpdatePipes | game.js:91-107 | The list becomes `Advance` of the old list. |
| Session.Game.CheckCollision | game.js:109-123 | The answer is true exactly when some pipe overlaps the bird by the strict four-way test. Nothing changes. |
| Session.Game.UpdateScore | game.js:185-192 | The list and score become `ScoreStep` of the old ones. |
| Session.Game.ResetGame | game.js:128-134 | The bird is back at 150 and at rest, the list is empty, the score is 0, the mode is 'start'. |
| Session.Game.PressSpace | game.js:143-163 | The invariant is kept, and the new state is `OnSpace` of the old one. |
| Session.Game.PlayFrame | game.js:172-192 | The list and score become `ScoreStep` of the advanced list. The mode becomes 'gameOver' exactly when the bird overlaps an advanced pipe. |
| Session.Game.GameLoop | game.js:166-195 | The invariant is kept, and the new state is `OnFrame` of the old one. A next frame is requested exactly when the frame began in 'playing'. |

## Left out

- Drawing is left out: `bird.draw`, `drawPipes`, `drawScore`, `clearRect` and the overlay text (game.js:35-38, 83-89, 136-140, 197-208). They read the state and change none of it.
- Audio is left out: the music toggle and the `play`, `pause` and `currentTime` calls (game.js:1-23, 147-151, 157-160, 178-181). They touch only the media element.
- Scheduling is reduced to a flag:
  - `requestAnimationFrame` (game.js:194) becomes `GameLoop`'s `rescheduled` result.
  - `Session.Run` accepts frames and key presses in any order.
  - The number of pending callbacks is not tracked. A second callback chain (after Space is pressed twice before the frame requested by the collision frame runs) is therefore not modelled.
- `Math.random()` (game.js:66) becomes the parameter `r` described above.
- IEEE-754 doubles are modelled as exact reals. `0.2` accumulates rounding error in the browser and none in the model.
- The DOM lookup and the key test `event.code === 'Space'` (game.js:1-6, 144) are left out. `PressSpace` is the handler for a Space press; other keys do nothing in the source.
- The bird's `x`, `width`, `height`, `gravity` and `lift` are module constants, because the source never assigns them.
- Pipes are values in a sequence, not shared objects. The source never keeps a second reference to a pipe beyond one loop turn, so nothing observes aliasing.
- `Session.Game.ScrollPipes` runs its loop on a local copy of the list and stores it back once. Nothing reads `pipes` while the loop runs.
- Session.Game.constructor, and through `Session.Consistent` also `Session.OnFrame`, `Session.OnSpace`, `Session.Run` and every `Game` method: the model covers only canvases taller than 220 pixels. `Consistent` requires `DrawSpan(c) > 0`. `Pipes.IsDraw` admits only draws in [0, height - 220), and `Pipes.IsPair` requires top pipes at least 50 high. The source also runs on canvases 181 to 220 pixels high, where the bird's start position still fits. There game.js:66 draws `r` in [height - 220, 0] (always 0 at height 220), so top pipes are between height - 170 and 50 pixels high. Those canvases and draws are not modelled.
