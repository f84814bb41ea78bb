# Cat platformer: a verified model of the game loop

`game.js` is a browser side-scroller. A cat runs and double-jumps across a
3200-unit level, lands on platforms, collects coins and avoids monsters. It
passes three dialog triggers, each offering a timed power-up (Fish, Spring,
Balloon or a random Horn), and must get past x = 3000 within 90 seconds
holding at least 7 coins. This project models the game's simulation state and the
code that changes it:

- the keydown and keyup handlers, which keep the key map and the per-key jump edges
- the `update()` tick, phase by phase: the pause guard, the countdown and the
  time-up end, walking and sprinting, the two jump checks, gravity, the left
  wall, ground and platform landing, coin collection, the monster reset with
  its early return, the dialog triggers, the item timer, the goal check and
  the camera
- `chooseItem`, the dialog close (button or timeout), `resetGame`, the
  `gameOver` flag of `endGame`, the prompt bucket of `startDialog`, and the
  level data

There are two layers.

- The modules `Level`, `Input`, `Actor`, `Contacts`, `Dialog`, `Items`,
  `Camera` and `Simulation` describe the state as a value (`Simulation.World`)
  and one tick as a function of it (`Simulation.Tick`). Each return path of
  the tick is an `Exit`. The properties of the game are lemmas about these
  functions.
- The module `Platformer` holds the class `Game`. Its fields are the game's
  globals, and it has one method per handler and per tick phase. Each
  state-changing phase is proved to leave the fields equal to the matching
  `Simulation` function of the old fields. A few phases are stated field by
  field instead; the Left out section lists them. `TouchesMonster` changes nothing
  and returns whether the cat overlaps a monster. `Update` keeps the
  invariant `Valid()`, which is `Simulation.Inv` of the fields.

Inputs the code takes from its environment are parameters:

- `dt >= 0`, the seconds since the last frame
- the key of each key event
- `r`, the Horn's random draw
- the canvas width

Positions, velocities, gravity and time are `real`.

## Model

| member | source | states |
|---|---|---|
| Level.BuildPlatforms | game.js:65-83 | the start-up code builds the 20-platform table: the ground first, 15 floating platforms 220 apart from x = 300, then the 4 challenge platforms |
| Input.KeyDown | game.js:8-13 | the key is down afterwards; its edge is raised exactly when the key was up or the edge was already raised; other keys are untouched; raised edges stay on keys that are down |
| Input.KeyUp | game.js:15-18 | the key is up and its edge is cleared; other keys are untouched; raised edges stay on keys that are down |
| Input.ConsumeJumpEdges | game.js:159-162 | no jump key has a raised edge afterwards; held keys and the other keys' edges are unchanged |
| Input.HoldingRaisesNoEdge | game.js:8-13 | once the jump edges are consumed, any number of keydowns of keys already down (auto-repeat) raises no jump edge and changes nothing |
| Actor.Speed | game.js:143-146 | the speed is 4, or 4 × 1.8 exactly when Shift is down or the speed boost is on |
| Actor.Walk | game.js:148-153 | only x changes: left alone subtracts the speed, right alone adds it, both or neither leave x unchanged |
| Actor.Fall | game.js:177-179 | vy grows by the gravity, then y moves by the new vy; nothing else changes |
| Actor.ClampLeft | game.js:182 | x is never negative afterwards, and a non-negative x is left as it was |
| Actor.GroundContact | game.js:184-191 | the cat is grounded exactly when y >= 390, and then it rests at y = 390 with vy = 0 and no jumps used; otherwise only onGround is cleared |
| Actor.LandOn | game.js:196-203 | a falling cat over the platform whose feet are within 15 of its top ends with its feet on the top, at rest with no jumps used; otherwise it is untouched |
| Actor.LandAll | game.js:194-204 | the platform loop never moves the cat sideways, never changes its boost, and never raises its jump count |
| Actor.RisingCatIsNeverSnapped | game.js:196 | a cat with vy < 0 is left unchanged by the platform loop over any platforms |
| Actor.LandAllRests | game.js:194-204 | after the platform loop, the cat is either unchanged or at rest with its feet exactly on the top of one of the platforms |
| Actor.LandSettles | game.js:184-204 | after ground contact and the platform loop, a grounded cat has vy = 0 and no jumps used, and an ungrounded cat was not moved |
| Actor.LandsSomewhereRests | game.js:194-204 | a falling cat that meets the landing test of any platform in the list ends the platform loop at rest, with vy = 0 and no jumps used |
| Actor.GroundedStaysGrounded | game.js:184-204 | a cat resting on the ground stays put through the platform loop when every platform top is either level with the ground (y = 450) or more than 15 above the cat's feet |
| Contacts.CollectAll | game.js:207-215 | the coin pass flags exactly the untaken coins whose 40-by-40 box overlaps the cat, and no others |
| Contacts.CountTaken | game.js:60 | the number of taken coins is at most the number of coins |
| Contacts.Untake | game.js:447-450 | the reset clears every taken flag and changes nothing else about the coins |
| Contacts.ClearTaken | game.js:447-450 | the reset loop over the coins leaves exactly `Untake` of them |
| Contacts.CollectCounts | game.js:207-215 | one pass raises the number of taken coins by exactly the amount it adds to the counter |
| Contacts.SecondPassTakesNothing | game.js:208 | a coin already taken never counts again: a second pass adds nothing and changes nothing |
| Contacts.NothingToTakeNothingCounted | game.js:207-215 | when every coin the cat overlaps is already taken, the pass adds nothing and changes nothing |
| Contacts.CollectOnlyTakes | game.js:208-211 | the pass only turns taken flags on and keeps every coin taken that was taken |
| Contacts.UntakenCountsZero | game.js:444-450 | after a reset no coin is taken, and a second reset changes nothing |
| Contacts.InitialCoinsUntaken | game.js:85-95 | the ten start-up coins are untaken and count zero |
| Dialog.PromptFor | game.js:372-378 | the prompt is the treasure box below x = 1000, another treasure in [1000, 2000), and the last gift from 2000 on, never none |
| Dialog.FireAll | game.js:227-232 | the trigger pass flags exactly the unfired triggers the cat is past, and no others |
| Dialog.Unfire | game.js:453-455 | the reset clears every triggered flag and changes nothing else about the triggers |
| Dialog.ClearTriggered | game.js:453-455 | the reset loop over the triggers leaves exactly `Unfire` of them |
| Dialog.PassStep | game.js:227-232 | one more trigger in the pass opens the dialog if it fires, and its prompt replaces the earlier one exactly when it fires |
| Dialog.FiredTriggersStayQuiet | game.js:228 | triggers fire once: a fired trigger is unchanged by any later pass, and one that fired cannot fire again wherever the cat goes |
| Dialog.PromptOfLastFired | game.js:227-232 | a pass with some firing trigger leaves a real prompt; a pass with none leaves the prompt unchanged |
| Dialog.SoleFiringPrompt | game.js:227-232 | when exactly one trigger fires on a pass, the prompt is that trigger's bucket |
| Dialog.TriggerPrompts | game.js:107-111 | the triggers at 500, 1300 and 2100 get the three different prompts, in that order |
| Dialog.InitialTriggersUnfired | game.js:107-111 | the start-up triggers have not fired |
| Items.EffectOf | game.js:398-420 | an item has no effect exactly when its name is none of Fish, Spring, Balloon and Horn; the Horn always has an effect |
| Items.HornActsAsAnotherItem | game.js:407-419 | the Horn's draws 0, 1 and 2 give the effects of Fish, Spring and Balloon |
| Camera.Follow | game.js:268-275 | with a canvas no wider than the level, the camera lies in [0, 3200 − width]; an offset that centres the cat and lies in that range is used unchanged |
| Camera.ClampExamples | game.js:268-275 | on an 800-wide canvas: 0 near the start, 2400 near the end, centred in between |
| Simulation.ChooseItem | game.js:389-420 | the item is active for 5 s; the boost is on exactly for a speed effect; gravity is 0.3 exactly for a low-gravity effect; vy is −18 exactly for a launch; the boost and low gravity are never both on; nothing else changes |
| Simulation.DecayItem | game.js:234-246 | a running item timer falls by dt; when it reaches zero the item, the boost and the low gravity are dropped; otherwise nothing else changes |
| Simulation.InitialWorldValid | game.js:31-111 | the start-up state satisfies the invariant |
| Simulation.KeyHandlersKeepInv | game.js:8-18 | both key handlers keep the invariant |
| Simulation.JumpOnEdge | game.js:155-175 | the two jump checks jump exactly when a jump is left and some jump key has a raised edge, and then they jump only once |
| Simulation.OtherJumpKeysUseSecondCheck | game.js:156-175 | the first check reacts only to the edge of "w"; a fresh press of W, ArrowUp or Space fails it and jumps through the second check, once |
| Simulation.ChooseItemKeepsInv | game.js:389-420 | choosing an item keeps the invariant, so effects never stack |
| Simulation.ChoiceForgetsPreviousItem | game.js:393-395 | the effect of a choice does not depend on the item it replaces |
| Simulation.BalloonThenFish | game.js:393-400 | a balloon followed by a fish leaves the boost on and gravity at its base value |
| Simulation.ResetRestoresStart | game.js:435-464 | the reset gives the start-up cat (keeping onGround), coins, triggers, item, gravity and clock, and keeps the invariant |
| Simulation.PhysicsKeepsInv | game.js:142-204 | movement, the jumps, gravity, the left wall and landing keep the invariant, including jumpCount <= 2 |
| Simulation.CollectKeepsInv | game.js:206-215 | coin collection keeps the counter equal to the number of taken coins |
| Simulation.TriggersAndDecayKeepInv | game.js:226-246 | the trigger pass and the item timer keep the invariant |
| Simulation.FinishKeepsInv | game.js:248-260 | the goal check and the camera keep the invariant |
| Simulation.TickKeepsInv | game.js:122-265 | every tick keeps the invariant |
| Simulation.PausedTickIsIdle | game.js:128-131 | a tick is paused exactly when the dialog is open or the game is over, and then it changes nothing |
| Simulation.RunningTickCountsDown | game.js:133-134 | a running tick takes exactly dt off the clock, unless a monster reset sets it back to 90 |
| Simulation.TimeUpEndsGame | game.js:137-140 | a tick ends on time-up exactly when it runs and the clock falls to zero or below; it then only counts down and ends the game |
| Simulation.GoalDecidesOutcome | game.js:248-260 | past x = 3000 the game is over, and won exactly when at least 7 coins are counted; a tick that finishes normally leaves the game running; a win happens nowhere else |
| Simulation.MonsterResetRestarts | game.js:217-223 | a monster touch leaves the start-up cat, coins, triggers, item, gravity and clock, with the game still running and the goal check skipped |
| Simulation.FlagsOnlyRiseWithoutReset | game.js:206-232 | without a reset, taken coins stay taken and fired triggers stay fired |
| Simulation.ContactKeepsFlags | game.js:226-246 | after the coins, a tick without a monster touch keeps the coins and fires exactly the trigger pass |
| Simulation.FiringOpensDialog | game.js:227-232 | a trigger that fires opens the dialog, and the next tick is paused |
| Simulation.SoleFiringSetsPrompt | game.js:227-232 | a trigger that is the only one to fire on a tick leaves the prompt of its bucket (game.js:372-378) |
| Simulation.JumpsNeedEdges | game.js:155-204 | a tick adds at most one jump, and none when no jump key has a raised edge |
| Simulation.ContactKeepsJumps | game.js:217-260 | the part of a tick after the coins never adds a jump |
| Simulation.RunAfterJump | game.js:177-260 | after the jump checks, the rest of a running tick leaves the key edges alone and adds no jump |
| Simulation.TickRaisesNoEdge | game.js:122-265 | no tick raises a jump edge; only the keydown handler does |
| Simulation.JumpedTickLeavesNoEdge | game.js:156-175 | a tick that used up a jump leaves no jump edge raised |
| Simulation.NoSecondJumpWhileHeld | game.js:8-18 | after a tick that jumped, auto-repeat keydowns of keys still down give the next tick no jump: a new jump needs a keyup and a fresh keydown |
| Simulation.CatStaysInLevel | game.js:182 | after any tick the cat is not left of the level, and the camera (game.js:268-275) lies in [0, 3200 − width] |
| Simulation.LoopStopsOnlyAtGameEnd | game.js:122-265 | in the corrected loop, a tick stops asking for frames exactly when it ends the game |
| Simulation.ResetStopsLoopAsWritten | game.js:218-223 | as written, a tick that resets after a monster touch asks for no further frame, though the game is not over |
| Simulation.MonsterTouchFreezesGame | game.js:218-223 | a concrete run: the cat standing at x = 550 at the start touches the first monster (game.js:98), the tick resets and returns without a new frame, and the game is not over |
| Simulation.Tick | game.js:122-265 | definition of one tick with its return paths; properties in TickKeepsInv, PausedTickIsIdle, RunningTickCountsDown, TimeUpEndsGame, GoalDecidesOutcome, MonsterResetRestarts |
| Simulation.Run | game.js:137-257 | definition of the tick after the countdown; properties through Tick's lemmas and RunAfterJump |
| Simulation.Contact | game.js:217-257 | definition of the tick after the coins; properties in ContactKeepsFlags, ContactKeepsJumps |
| Simulation.Finish | game.js:248-260 | definition of the goal check or the camera; properties in FinishKeepsInv, GoalDecidesOutcome |
| Simulation.Reset | game.js:435-464 | definition of the reset; properties in ResetRestoresStart, MonsterResetRestarts |
| Simulation.Jump | game.js:155-175 | definition of the two jump checks in order; properties in JumpOnEdge, JumpsNeedEdges, JumpedTickLeavesNoEdge |
| Simulation.FirstJumpFires | game.js:156 | definition of the first jump check's guard; properties in JumpOnEdge |
| Simulation.SecondJumpFires | game.js:166-168 | definition of the second jump check's guard; properties in JumpOnEdge |
| Simulation.DoJump | game.js:157-162 | definition of one jump; properties in JumpOnEdge and Input.ConsumeJumpEdges |
| Simulation.ReachGoal | game.js:249-256 | definition of the goal check; properties in GoalDecidesOutcome |
| Simulation.Physics | game.js:177-204 | definition of gravity, the left wall and landing; properties in PhysicsKeepsInv and Actor's lemmas |
| Simulation.Collect | game.js:207-215 | definition of the coin pass with its counter; properties in CollectKeepsInv and Contacts' lemmas |
| Simulation.FireTriggers | game.js:227-232 | definition of the trigger pass; properties in FiringOpensDialog, SoleFiringSetsPrompt |
| Simulation.Countdown | game.js:134 | definition of the countdown; properties in RunningTickCountsDown |
| Simulation.Move | game.js:142-153 | definition of walking; properties in Actor.Walk |
| Simulation.EndGame | game.js:479-480 | definition of the end of the game; properties in TimeUpEndsGame, GoalDecidesOutcome |
| Simulation.CloseDialog | game.js:425-432 | definition of the dialog close |
| Simulation.PressKey | game.js:8-13 | definition of the keydown handler on the whole state; properties in Input.KeyDown, KeyHandlersKeepInv |
| Simulation.ReleaseKey | game.js:15-18 | definition of the keyup handler on the whole state; properties in Input.KeyUp, KeyHandlersKeepInv |
| Simulation.FollowCamera | game.js:259-260 | definition of the camera step; properties in Camera.Follow, CatStaysInLevel |
| Simulation.RearmsAsWritten | game.js:122-265 | definition of which return paths call requestAnimationFrame as written (pause and normal end only); properties in ResetStopsLoopAsWritten |
| Simulation.Rearms | game.js:122-265 | definition of the corrected re-arming, which also re-arms after a reset; properties in LoopStopsOnlyAtGameEnd |
| Actor.Land | game.js:184-204 | ground contact then the platform loop: x, the boost and sprint are kept and no jump is added; more in LandSettles |
| Dialog.PromptAfter | game.js:227-232 | definition of the prompt after a pass, the last trigger to fire winning; properties in PromptOfLastFired, PassStep, SoleFiringPrompt |
| Contacts.HitsMonster | game.js:218-220 | definition of the monster overlap test; Platformer.Game.TouchesMonster is proved against it |
| Contacts.NewlyTaken | game.js:207-215 | definition of the number of coins a pass takes; properties in CollectCounts, SecondPassTakesNothing |
| Platformer.Game.constructor | game.js:31-111 | the fields start at the start-up values, the platform table is the level's, and the invariant holds |
| Platformer.Game.OnKeyDown | game.js:8-13 | the keydown handler's new state is `PressKey` of the old state, and the invariant is kept |
| Platformer.Game.OnKeyUp | game.js:15-18 | the keyup handler's new state is `ReleaseKey` of the old state, and the invariant is kept |
| Platformer.Game.ChooseItem | game.js:389-420 | the new state is `Simulation.ChooseItem` of the old state, and the invariant is kept |
| Platformer.Game.CloseDialog | game.js:425-432 | the dialog is closed and nothing else changes |
| Platformer.Game.Update | game.js:122-265 | the new state is `Tick` of the old state; the invariant is kept; it returns the corrected re-arming: another frame exactly unless this tick ended the game, so also after a monster reset, where the code as written returns without one (see Left out and Findings) |
| Platformer.Game.RunTick | game.js:137-257 | the rest of the tick after the countdown leaves `Run` of the old state; its result is the corrected re-arming (see Left out) |
| Platformer.Game.ContactTick | game.js:217-260 | the rest of the tick after the coins leaves `Contact` of the old state; after a reset it returns true, the corrected re-arming (see Left out) |
| Platformer.Game.FinishTick | game.js:248-260 | the end of the tick leaves `Finish` of the old state |
| Platformer.Game.TickClock | game.js:134 | the clock falls by dt and nothing else changes |
| Platformer.Game.EndGame | game.js:479-480 | the game is over and nothing else changes |
| Platformer.Game.MoveHorizontally | game.js:142-153 | the cat walks as `Walk` says and nothing else changes |
| Platformer.Game.CheckJump | game.js:155-175 | the two jump checks leave `Jump` of the old state |
| Platformer.Game.JumpOnce | game.js:156-163 | one jump: vy = −12, one more jump used, every jump edge consumed |
| Platformer.Game.ApplyGravity | game.js:177-179 | the cat falls as `Fall` says |
| Platformer.Game.KeepInBounds | game.js:182 | the cat is clamped as `ClampLeft` says |
| Platformer.Game.ResolveCollisions | game.js:184-204 | ground contact and the platform loop leave the cat as `Land` says |
| Platformer.Game.CollectCoins | game.js:206-215 | the coin loop leaves `Collect` of the old state |
| Platformer.Game.TouchesMonster | game.js:218-220 | the result is true exactly when the cat overlaps some monster |
| Platformer.Game.ResetGame | game.js:435-464 | every field the reset writes ends as `Reset` of the old state says |
| Platformer.Game.CheckTriggers | game.js:226-232 | the trigger loop leaves `FireTriggers` of the old state |
| Platformer.Game.StartDialog | game.js:368-378 | the dialog is open with the prompt of the trigger's bucket |
| Platformer.Game.TickItem | game.js:234-246 | the item timer leaves `DecayItem` of the old state |
| Platformer.Game.CheckGoal | game.js:249-256 | the goal check leaves `ReachGoal` of the old state |
| Platformer.Game.UpdateCamera | game.js:268-275 | the camera is `Camera.Follow` of the cat's x and the canvas width |

### Invariant

`Simulation.Inv` is what every handler and every tick keeps:

- x >= 0, at most two jumps used, and `cat.sprint` never set
- the coins are the level's coins, and the counter equals the number of
  taken ones
- the triggers are the level's triggers
- at most one item effect is in force, and none once the timer has run out
- every raised key edge belongs to a key that is down
- the clock never exceeds 90
- a won game is over
- the camera is within the level when the canvas fits in it

### Behaviour of the code worth knowing

- **An unknown item name.** `chooseItem` still sets `itemActive` and the
  5-second timer, clears the previous effects, and applies no new effect
  (game.js:389-420); `Items.EffectOf` and `Simulation.ChooseItem` model
  exactly that.
- **A rising cat next to a platform.** A cat at x = 2999 overlaps a platform
  that starts at x = 3000 horizontally (2999 + 60 > 3000). While it rises
  (vy < 0), the landing check still never snaps it onto the platform
  (game.js:196); that is `Actor.RisingCatIsNeverSnapped`.
- **The two jump checks.** The first (game.js:156) reacts only to the edge
  of "w". The second (game.js:166-168) is what lets W, ArrowUp and Space
  jump (`Simulation.OtherJumpKeysUseSecondCheck`). The two never both fire
  in one tick, because the first clears every jump edge. So, whenever
  every raised edge belongs to a key that is down (part of the invariant),
  the pair behaves as one edge-triggered jump (`Simulation.JumpOnEdge`).
  What is redundant is the first check's key-down test, which the edge of
  "w" already implies.

## Left out

- Drawing (`draw`, `drawUI`), image loading and `startGame`: rendering and asset I/O; the core never reads them.
- DOM text and styles (timer, coin count, item status, messages, dialog text and buttons): display only. The dialog text is kept only as the `Prompt` bucket.
- `requestAnimationFrame` and `Date.now()`: `dt` is a parameter of `Update`, and whether the loop asks for another frame is its boolean result, in the corrected form described next.
- Platformer.Game.Update: its result is the corrected `Simulation.Rearms`. It asks for another frame after a monster reset, where game.js:221-222 returns without calling `requestAnimationFrame` and the loop stops with the game not over. The as-written loop is `Simulation.RearmsAsWritten`, with `ResetStopsLoopAsWritten` and `MonsterTouchFreezesGame` (see Findings).
- Platformer.Game.RunTick: its result passes on the same corrected re-arming after a monster reset, unlike game.js:222.
- Platformer.Game.ContactTick: it returns true after `ResetGame`, the corrected re-arming, where game.js:222 returns without a new frame.
- `setTimeout`: the 1.5 s auto-close and the close button are both `CloseDialog`, called by the environment. The message clear after a reset is dropped.
- `Math.random`: the Horn's draw is the parameter `r`.
- IEEE-754 arithmetic: numbers are exact reals, so rounding and overflow of JavaScript numbers are not modelled.
- `triggeredDialogs`, `currentDialog`, `camera.y` and `baseGravity` as a variable: the code never changes them; `baseGravity` is the constant 0.6.
- The cat's `w`, `h` and `speed`: never changed, so they are constants (60, 60, 4).
- `endGame`'s message and the colour it picks from `gameWon`: cosmetic. Only the `gameOver` flag is modelled.
- Platformer.Game.ResetGame: its contract names only the fields the reset writes; the other fields are left alone because they are outside its `modifies` frame, rather than by an equation on the whole state.
- Platformer.Game.UpdateCamera, Platformer.Game.ApplyGravity, Platformer.Game.KeepInBounds, Platformer.Game.ResolveCollisions and Platformer.Game.StartDialog: their contracts name only the field they write; their `modifies` frames keep every other field.
- Key maps as the browser fills them: keys are strings, and a key never seen reads as false, as `undefined` does in the code.

## Findings

| source | as written | input that shows it | evidently intended | confidence | as-written member | corrected member |
|---|---|---|---|---|---|---|
| game.js:218-223 | after `resetGame()` the tick returns without calling `requestAnimationFrame`, so the loop stops although the game is not over | start of a run, the cat standing on the ground at x = 550 (the first monster), no key down, dt = 0.016 | the run restarts and the loop keeps asking for frames until the game ends | not executed | Simulation.ResetStopsLoopAsWritten, Simulation.MonsterTouchFreezesGame | Simulation.LoopStopsOnlyAtGameEnd |
