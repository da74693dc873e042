# Mareeha the Bear: a verified model of the game simulation

This project models the game core of the `App.tsx` component. The game is a snake-like arcade game on a 15×15 field. A bear (the snake) walks one cell per tick and collects matcha. A toilet costs five points, and a bed freezes the bear. A man on the field ends the game when the bear walks into him, and he pulls the bear toward him when it comes within a radius of 1.5 cells. The matcha that brings the score to 12 wins, and two buttons then lead back to the start screen.

The model has two layers:

**The pure layer.** Modules `Constants`, `Types`, `Rules`, `Properties` and `Scenarios` describe the game as functions over one state record, `Rules.World`.
- The next-head step with the magnet (`NextHead`).
- One tick of `moveSnake` (`Advance`, built from `Steered`, the collision checks and `Pickup`).
- The frame gate of `gameLoop` (`FrameStep`).
- The direction guard of the keyboard and touch handlers (`Steer`, `KeyDown`, `Touch`).
- `resetGame` (`Restarted`) and the button transitions.

**The component layer.** Module `App` has one class, `Game`. It holds the component's state hooks and refs as mutable fields.
- Tick, Frame, KeyDown, Touch, Reset, Click and Unfreeze update those fields step by step, as the handlers do.
- Field updates go through one setter method per `useState` hook.
- Each method's contract ties the new state to the pure layer (`State() == Advance(old(State()), spot)`, and so on).
- `Placement.GetRandomPoint` is the rejection-sampling do-while loop of `getRandomPoint`.

Randomness is a stream: `rng(k)` is the k-th cell `Math.random` would produce. `Game` keeps a cursor into that stream. `RandomSource(rng)` asks that every draw lies on the field and that every cell keeps being drawn. Under that assumption the loop stops whenever its exclusion list is shorter than the 225 cells of the field (`FreeDrawAhead`). It never stops when the list covers the field (`CoveredFieldHasNoFreeDraw`).

`World` keeps two directions:
- `heading` is `directionRef.current`, the direction the next move uses.
- `facing` is the `direction` state the bear's head is drawn with.

The key handler sets `facing` to the new heading. A touch arrow sets `facing` to the requested direction, even when the guard refuses the request. The magnet sets both.

Sound-manager calls are recorded as a trace, `sounds`.

The main invariant is `Rules.Inv`:
- The snake is a non-empty list of distinct field cells.
- The four items lie on distinct cells, off the snake.
- The score is non-negative and below the goal while playing.
- The tick interval lies in [MIN_SPEED, INITIAL_SPEED].

`Reset` establishes it, and every tick, frame, key, touch, click and unfreeze keeps it. Frame sessions keep it too (`SessionKeepsInv`), as long as every relocation draws a cell off its exclusion list.

Two behaviours of the code are easy to misread:
- **Toilet and bed.** They pop one tail cell, as a plain move does (App.tsx:130, 137, 140), so neither shrinks the snake (`Rules.Advance`, `Scenarios.ToiletFloorsAtZero`).
- **Magnet ties.** The branch condition `Math.abs(dx) > Math.abs(dy)` (App.tsx:71) sends equal deltas along y (`Rules.NextHead`, `Scenarios.DiagonalPullIsVertical`).

## Model

| member | source | states |
|---|---|---|
| Types.Move | App.tsx:81-86 | a standard move goes to a neighbouring cell (axis distance exactly 1) |
| Types.Sign | App.tsx:72-75 | Math.sign on integers: -1, 0 or 1, zero exactly at 0 and positive exactly for positive input |
| Types.Max | App.tsx:127-131 | Math.max: at least both arguments and equal to one of them |
| Placement.GetRandomPoint | App.tsx:9-18 | the do-while loop returns the first draw from the cursor onward that is off `exclude`; every skipped draw was in `exclude`, and the result is a field cell |
| Placement.FreeCellExists | App.tsx:9-18 | an exclusion list shorter than the 225 cells of the field leaves a free field cell |
| Placement.FreeDrawAhead | App.tsx:9-18 | from a fair random source, such a list lets the loop terminate from any position in the stream |
| Placement.CoveredFieldHasNoFreeDraw | App.tsx:9-18 | when the list covers the field, no later draw escapes it, so the loop never ends |
| Rules.Attracted | App.tsx:64-69 | the integer radius test holds exactly when `dx*dx + dy*dy <= 2`, i.e. `sqrt(...) <= 1.5` |
| Rules.NextHead | App.tsx:60-87 | outside the radius the head steps in the heading and the heading is kept; inside it the head steps one cell toward the man, along x exactly when the x delta is larger in size, the new heading matching the step |
| Rules.PickupExclusion | App.tsx:122-136 | a relocation's exclusion list starts with the grown snake (new head, then the whole previous snake) and has 4 cells more than the snake |
| Properties.ExclusionHoldsOtherItems | App.tsx:122-136 | after the grown snake, the list holds three cells: exactly the man and the two items not picked up |
| Rules.HitsWallOrSelf | App.tsx:90-94 | the head ends the game exactly when it is off the field or on a segment other than the last |
| Rules.Steered | App.tsx:69-78 | the magnet step: the heading becomes the candidate's, the drawn direction follows it only when the man is near, and nothing else changes |
| Rules.Pickup | App.tsx:109-143 | the item checks: the goal matcha wins with the snake kept; a matcha grows the snake, adds a point, shortens the interval and moves the matcha; any other cell pops the tail; the toilet takes the score to max(0, count-5) and moves; the bed freezes and moves; the other fields, heading and man are kept |
| Rules.Relocates | App.tsx:109-138 | a tick draws a new cell exactly when it takes a non-winning matcha, the toilet or the bed |
| Rules.Relocation | App.tsx:122-136 | the tick's exclusion list starts with the candidate head followed by the whole previous snake |
| Rules.Advance | App.tsx:56-145 | one tick: frozen changes nothing; wall, self (tail excepted) and man collisions give GAMEOVER or GAMEOVER_MAN with the snake unchanged; the matcha that brings the score to 12 wins with the snake, matcha and speed unchanged; a matcha grows the snake by the head, adds 1 and shortens the interval to max(100, speed-2); toilet, bed and plain moves add the head and drop the tail; the toilet takes the score to max(0, count-5); the bed freezes; only the picked item moves to the drawn cell; the drawn direction follows the magnet; the sound calls of each outcome are appended |
| Rules.FrameTicks | App.tsx:148-149 | a frame ticks only while PLAYING and past `lastUpdate + speed`, and always once strictly past it while PLAYING |
| Rules.Unfreeze | App.tsx:135 | the timer clears the freeze flag and nothing else |
| Rules.FrameStep | App.tsx:147-155 | a frame runs a tick and sets lastUpdate to the frame time exactly when the game is on and strictly more than `speed` ms have passed; otherwise nothing changes |
| Rules.Steer | App.tsx:166-177 | a request is taken exactly when it does not reverse the current heading, else the heading is kept; the result never reverses it |
| Rules.KeyDirection | App.tsx:167-176 | the arrow keys and w/s/a/d map to up/down/left/right, and only they |
| Rules.KeyDown | App.tsx:166-177 | a recognised key that does not reverse the heading sets it, one that reverses it and an unrecognised key keep it; the heading never reverses, the head is drawn facing it, nothing else changes |
| Rules.Touch | App.tsx:337-347 | a request that does not reverse the heading sets it, a reversing one keeps it; the head is drawn facing the requested direction, nothing else changes |
| Rules.Restarted | App.tsx:36-53 | resetGame: seed snake heading up, drawn facing up, items where drawn, score 0, interval 200, not frozen, PLAYING, background music started, lastUpdate kept, and the invariant holds |
| Rules.AcceptProposal | App.tsx:283-289 | either YES button: CELEBRATING and the win fanfare, nothing else changes |
| Rules.PlayAgainPressed | App.tsx:325 | back to START, nothing else changes |
| Properties.StepKeepsSnake | App.tsx:109-141 | adding a safe head, with or without dropping the tail, keeps the snake a list of distinct field cells made of the head and old cells |
| Properties.MatchaKeepsInv | App.tsx:110-128 | a non-winning matcha keeps the invariant |
| Properties.ToiletKeepsInv | App.tsx:130-134 | a toilet visit keeps the invariant |
| Properties.BedKeepsInv | App.tsx:136-141 | a bed visit keeps the invariant |
| Properties.PickupKeepsInv | App.tsx:109-145 | the item checks after a safe head keep the invariant |
| Properties.AdvanceKeepsInv | App.tsx:56-145 | every tick keeps the invariant when the relocated item goes to a cell off its exclusion list |
| Types.WithinRadius | App.tsx:64-69 | over integers, both deltas at most 1 in size is the same as `dx*dx + dy*dy <= 2` |
| Properties.StepIsOneCell | App.tsx:60-87 | under the invariant every candidate head is the neighbour of the head in the new heading |
| Properties.Session | App.tsx:147-155 | a run of frames never shortens the snake |
| Properties.SessionKeepsInv | App.tsx:147-155 | the invariant holds after any run of frames whose relocations draw free cells |
| Properties.SessionSpeedNeverRises | App.tsx:112-128 | over any run of frames the interval never increases and never drops below 100 |
| Properties.SessionStopsWhenNotPlaying | App.tsx:147-155 | once the game is not PLAYING, frames change nothing |
| Properties.SessionStatus | App.tsx:96-155 | frames never enter PLAYING, and from PLAYING they end only in GAMEOVER, GAMEOVER_MAN or WON |
| Scenarios.FirstMatcha | App.tsx:110-128 | the first matcha gives score 1, length 4, interval 198 and a pop |
| Scenarios.GoalMatchaWins | App.tsx:113-121 | at score 11 a matcha wins with the snake and matcha unchanged |
| Scenarios.ToiletFloorsAtZero | App.tsx:130-134 | the toilet at score 3 gives 0, and the length stays 3 |
| Scenarios.BedFreezes | App.tsx:136-141 | the bed moves the bear once, then ticks change nothing while frozen |
| Scenarios.OffTheLeftEdge | App.tsx:90-98 | leaving the field on the left ends the game with the snake unchanged |
| Scenarios.DiagonalPullIsVertical | App.tsx:69-78 | a diagonal man pulls the bear along y and turns the heading up |
| Scenarios.WalkIntoTheMan | App.tsx:101-106 | stepping onto the man gives GAMEOVER_MAN |
| Scenarios.TwoQuickPressesReverse | App.tsx:166-177 | left then down between two ticks turns an upward bear down, and the next tick runs into its neck |
| App.Game.constructor | App.tsx:20-33 | the first render: the initial state values, and the invariant holds |
| App.Game.Draw | App.tsx:9-18 | one getRandomPoint call: the first free draw from the cursor, which moves past it |
| App.Game.Tick | App.tsx:56-145 | moveSnake updates the fields to `Advance` of the old state, keeps the invariant, and draws the relocated item's cell as the first free draw off the tick's exclusion list |
| App.Game.Pickup | App.tsx:109-145 | the item checks update the fields to `Pickup` of the steered state, and draw off `PickupExclusion` exactly when `PickupDraws` holds |
| App.Game.Frame | App.tsx:147-155 | gameLoop updates the fields to `FrameStep` of the old state and keeps the invariant |
| App.Game.Unfreeze | App.tsx:135 | the bed timer clears the freeze flag, nothing else changes |
| App.Game.KeyDown | App.tsx:166-177 | handleKeyDown updates the fields to `KeyDown` of the old state and keeps the invariant |
| App.Game.Touch | App.tsx:337-347 | a touch arrow updates the fields to `Touch` of the old state and keeps the invariant |
| App.Game.PlaceItems | App.tsx:40-43 | the four draws of resetGame, each the first free draw off the seed and the cells drawn before it |
| App.Game.Restore | App.tsx:37-52 | the setter calls of resetGame give `Restarted` of the old state, cursor kept |
| App.Game.Reset | App.tsx:36-53 | resetGame gives `Restarted` of the old state with the four drawn cells, items distinct and off the seed, invariant holds |
| App.Game.Click | App.tsx:250-325 | a shown button: START and the restart buttons reset, YES gives CELEBRATING and the fanfare, "play again" gives START; the invariant holds |

## Left out

- Rendering (the JSX markup, the bear parts and the background decor) is not part of this model. Only the status transitions of the buttons are modelled.
- Audio is not modelled. The sound manager's oscillators and melody loop are I/O, so the calls are recorded as the `sounds` trace.
- The 1000 ms `setTimeout` of the bed is an external event, `Game.Unfreeze`. Wall-clock time is not modelled, and the model does not force the event to come.
- `requestAnimationFrame`, `cancelAnimationFrame`, the effect cleanup (which also stops the background music) and listener registration are not modelled. Each animation frame is a call to `Game.Frame(time)` with an integer time (the source gets a floating-point timestamp).
- React's batching and stale closures are not modelled. `moveSnake` captures `count`, `man` and the items in a closure. The model reads the current fields, as if every handler saw the state after the previous event.
- `Math.random` is an explicit stream `rng` with a cursor. What it produces is not modelled, only the fairness assumption `RandomSource`.
- App.Game.Tick: requires `Room(State())`, which asks the field to have a free cell when a pickup relocates an item. Otherwise the source's do-while loop never ends (`Placement.CoveredFieldHasNoFreeDraw`), and a method that terminates cannot model that.
- App.Game.Frame: requires Room when the frame ticks, for the same reason.
- App.Game.Click: requires the button to be on screen in the current status (App.tsx:241, 258, 274, 298), because the source only renders each button in those statuses.
