# IndaiGo game logic in Dafny

This project models the two pieces of game logic in the IndaiGo site:

- **The drift demo** (`scripts/drift.js`). A top-down car has one mutable state record. Every animation frame, `updatePhysics` advances that record through fixed stages:
  - read the input;
  - split the velocity into forward and lateral parts;
  - throttle and brake;
  - speed-scaled, smoothed steering;
  - lateral friction;
  - damping;
  - integrate the position;
  - push the car out of every wall its box overlaps.

  The demo also keeps a pair of skid-mark rails. These are bounded first-in first-out buffers that gain one mark per rail on a frame where the car slides, and every mark fades each frame. `gameLoop` clamps the frame step to 32 ms.
- **The invaders game** (`scripts/invaders.js`). A wave of 40 ships marches sideways, drops at the edges and fires at random. The player's cannon moves, fires with a cooldown, and loses a life per enemy hit. Each frame, `update`:
  - moves the cannon and the bullets;
  - marches the wave;
  - runs the two reverse-index splice loops that resolve collisions;
  - ends the game, or brings on the next, faster wave.

  The page runs a mode machine (menu → playing → game over) driven by the key handlers, with a pause toggle. When a game ends, the score goes into a top-five highscore table whose names are trimmed and HTML-escaped.

Modules:

| module | file | contents |
|---|---|---|
| RealFacts | real_facts.dfy | min/max/abs and small facts about products of reals |
| Geometry | geometry.dfy | `Rect` and the strict overlap test `aabbIntersect` / `aabbCollide` |
| DriftDynamics | drift_dynamics.dfy | the dynamics stages of `updatePhysics` as functions on a `CarState` value, with their properties |
| DriftCollision | drift_collision.dfy | the car box and the wall push-out loop |
| DriftTrail | drift_trail.dfy | `localToWorld`, the skid threshold, the rails as values, and the mutable `SkidTrail` |
| DriftCar | drift_car.dfy | the mutable `Car` record with one method per stage, the track, the dt clamp, and the page state `DriftGame` with `gameLoop` |
| InvadersText | invaders_text.dfy | `escapeHtml`, JavaScript `trim`, the stored-name clean-up |
| InvadersScores | invaders_scores.dfy | the comparator, a stable sort, the top five, `saveHighscore` |
| InvadersWorld | invaders_world.dfy | entities, constants, `spawnEnemies`, cannon moves, bullet moves and filters, the march |
| InvadersCombat | invaders_combat.dfy | the two splice loops of `update` and the invasion test |
| InvadersFrame | invaders_frame.dfy | one `update` as a function `Step` on a `World` value, and the properties of a frame |
| InvadersGame | invaders_game.dfy | the page's mutable globals as class `Game`: reset, start, end, keys, `update`, `loop` |

How the model is built:

- State the source changes in place is a class whose methods assign the fields: `Car`, `SkidTrail`, `DriftGame` and `Game`. Each method is proved against a function on values: `Drive`, `ResolveAll`, `TrailStep`, `Advanced` and `Step`. The properties are lemmas about those functions.
- The loops of the source are loops here, each with its invariants. These are:
  - the wall loop;
  - the fade loops;
  - the nested loops of `spawnEnemies`;
  - the `forEach` passes;
  - the two reverse-index splice loops.
- Parameters stand in for outside values:
  - `Math.cos`, `Math.sin` and `Math.hypot` are function-valued parameters. Properties that need orthonormal axes assume `c * c + s * s == 1`.
  - Each `Math.random()` draw of a frame is the oracle `roll(j)`, for the `j`-th ship in that frame.
  - `Date.now()` is the integer `now`.
  - The browser's frame timestamps are parameters.
  - The stored highscore list is a value: a parameter, or the field `highscores`.
- JavaScript numbers are modelled as unbounded reals and integers.

The shipped handling profile also needs a note. Its comments call `airFriction`, `rollResist` and `tyreDrag` small dampings, but all three are 1.0 (scripts/drift.js:147-159), so the damping stage multiplies the velocity by 1. With no pedal held, an idle car keeps its forward speed exactly and only its lateral slide decays, by the factor 1 − dt per frame (`DriftDynamics.IdleKeepsForward`). The general decay property holds only for a profile whose damping product is below 1 (`DriftDynamics.IdleDecay`). The car at rest starts at heading −π/2. The forward axis is (sin θ, −cos θ), so heading 0 points up the screen and the start heading points left (`DriftCar.StartHeadsLeft`).

The skid threshold needs a note. The comment beside `SKID_THRESHOLD` and the variable name `lateralSpeedNow` call the quantity compared with the threshold the lateral speed. The code computes `|vx·(−sin θ) + vy·cos θ|` (scripts/drift.js:345-347). With the demo's forward axis (sin θ, −cos θ), that is the magnitude of the *forward* component. The model follows the code: `DriftTrail.SkidSpeedIsForward` states it, and `DriftTrail.SkidSpeedExamples` shows a purely sideways slide leaving no mark.

## Model

| member | source | states |
|---|---|---|
| Geometry.IntersectsSymmetric | scripts/drift.js:273-277 | the overlap test gives the same answer with its arguments swapped |
| Geometry.TouchingEdgesDoNotIntersect | scripts/drift.js:273-277 | the comparisons are strict: boxes that only share an edge do not intersect, in either order |
| Geometry.WellFormedSelfIntersects | scripts/invaders.js:109-113 | a box with positive width and height overlaps itself, so the test is not vacuous |
| Geometry.IntersectsTranslationInvariant | scripts/invaders.js:109-113 | moving both boxes by the same offset does not change the verdict |
| DriftDynamics.ReadInputAliases | scripts/drift.js:176-177 | for the pedals, the letter and its arrow are interchangeable: either one, added to any held set, gives the same input frame |
| DriftDynamics.ReadInputSteerAliases | scripts/drift.js:178-179 | for steering, the letter and its arrow are interchangeable in the same way |
| DriftDynamics.ReadInputSpaceAliases | scripts/drift.js:180-181 | the handbrake answers to " ", "Space" and "Spacebar" alike |
| DriftDynamics.ReadInputMonotone | scripts/drift.js:175-181 | holding more keys never switches a control off; the pad value passes through |
| DriftDynamics.ReadInputIgnoresOtherKeys | scripts/drift.js:175-181 | a key outside the eleven control keys changes nothing, and with no control key held every control is off |
| DriftDynamics.SteerInputCancels | scripts/drift.js:210-211 | left and right held together cancel, leaving only the pad value |
| DriftDynamics.SteerInputUnclamped | scripts/drift.js:210-211 | the steering sum is not clamped: key plus full pad gives 2; the sum stays within one unit of the pad value |
| DriftDynamics.DecompositionExact | scripts/drift.js:185-194 | with orthonormal axes, forward and lateral components rebuild the velocity exactly and carry its whole squared length |
| DriftDynamics.ShiftAlongForward | scripts/drift.js:187-188 | a push along the forward axis changes only the forward component, by its length |
| DriftDynamics.ShiftAlongRight | scripts/drift.js:187-188 | a push along the right axis changes only the lateral component, by its length |
| DriftDynamics.ScaleComponents | scripts/drift.js:191-194 | scaling the velocity scales both components by the same factor |
| DriftDynamics.PedalsShift | scripts/drift.js:197-204 | throttle then brake move the velocity by (engine − brake)·dt along the forward axis, and change nothing else |
| DriftDynamics.PedalsAlongForward | scripts/drift.js:197-204 | the pedals add their impulse to the forward component, leave the lateral component alone, and touch only the velocity |
| DriftDynamics.Authority | scripts/drift.js:207-209 | for speed ≥ 0, authority lies in [0.35, 1]; it is 1 from `speedForMaxSteer` on, and linear below that |
| DriftDynamics.AngularLerp | scripts/drift.js:214 | for dt ≥ 0 the smoothing factor lies in [0, 1]; it is 1 once dt ≥ 1/12, and never above 12·dt |
| DriftDynamics.Smooth | scripts/drift.js:215 | for dt ≥ 0 the new angular velocity lies between the old one and the target; it equals the target once dt ≥ 1/12; it is unchanged when already on target |
| DriftDynamics.SteeringFloor | scripts/drift.js:207-213 | full steer input turns at least 35 % and at most 100 % of the maximum rate, at any speed |
| DriftDynamics.FrictionScalesLateral | scripts/drift.js:219-223 | with orthonormal axes, friction leaves the forward component unchanged and multiplies the lateral one by 1 − sideFriction·grip·dt |
| DriftDynamics.GripMonotone | scripts/drift.js:219-223 | less grip never leaves less sideways slide than more grip |
| DriftDynamics.DampScales | scripts/drift.js:226-231 | the three damping factors act as one multiplication of the velocity by their product, and nothing else changes |
| DriftDynamics.FrictionAfterPedals | scripts/drift.js:191-223 | measured on the frame's initial axes, after pedals, steering and friction the forward component has gained the pedal impulse and the lateral one keeps the retention fraction |
| DriftDynamics.DriveVelocity | scripts/drift.js:185-231 | the whole dynamics step on the velocity: forward component (old + pedal impulse)·damping, lateral component old·retention·damping |
| DriftDynamics.DriveFrame | scripts/drift.js:185-236 | the dynamics step keeps the footprint and moves the position by the new velocity times dt |
| DriftDynamics.IdleDecay | scripts/drift.js:185-236 | with no pedal held, damping product in [0, 1) and retention in [0, 1], a moving car's squared speed strictly drops every frame |
| DriftDynamics.IdleKeepsForward | scripts/drift.js:147-159 | with the shipped handling (every damping factor 1.0) and no pedal, a frame keeps the forward component exactly and scales the lateral one by 1 − dt |
| DriftCollision.CarBox | scripts/drift.js:238-243 | the car's box has the car's width and length and is centred on the car |
| DriftCollision.OverlapsPositive | scripts/drift.js:246-251 | when the box meets a wall, all four overlaps and both minima are positive |
| DriftCollision.MissLeavesUnchanged | scripts/drift.js:245 | a wall the box does not meet leaves the car state unchanged |
| DriftCollision.PushAxis | scripts/drift.js:250-260 | the push is horizontal exactly when minOverlapX < minOverlapY (ties go vertical); it goes right/down exactly when the right/bottom overlap is shorter; it moves by the overlap + 0.5; it zeroes only that axis's velocity and leaves the other coordinate, heading, spin and footprint alone |
| DriftCollision.PushSeparates | scripts/drift.js:246-260 | after a push out of one wall, the box rebuilt from the new position no longer meets that wall, with a 0.5 gap on the resolved axis |
| DriftCollision.AllMissLeavesUnchanged | scripts/drift.js:244-261 | when the box meets no wall, the loop changes nothing |
| DriftCollision.ResolveAllFrame | scripts/drift.js:244-261 | whatever the walls, the loop keeps heading, spin and footprint; each velocity component keeps its value or ends at 0 |
| DriftCollision.SideWallExample | scripts/drift.js:244-261 | worked case: a car 5 px into a wall on its right ends 5.5 px further left with `vx` = 0 |
| DriftCollision.StaleBoxExample | scripts/drift.js:238-261 | the box is built once before the loop: one push already clears the wall, yet the same wall listed twice pushes twice |
| DriftTrail.LocalWorldRoundTrip | scripts/drift.js:280-292 | with orthonormal axes, mapping a local point to the world and back gives the point again |
| DriftTrail.RotateBack | scripts/drift.js:280-292 | with orthonormal axes, a rotated offset rotates back to the local coordinates |
| DriftTrail.SkidSpeedIsForward | scripts/drift.js:345-347 | the quantity compared with the threshold is the magnitude of the forward component |
| DriftTrail.SkidSpeedExamples | scripts/drift.js:345-349 | a pure sideways slide at heading 0 measures 0; driving straight up at 100 px/s passes the threshold |
| DriftTrail.RearMarksPlacement | scripts/drift.js:350-354 | the two marks sit in the car's frame at (∓(w/2 − 6), l/2 − 18) |
| DriftTrail.RecordLength | scripts/drift.js:357-369 | a push plus at most one shift grows the rail by one up to the cap of 600 and never past it |
| DriftTrail.RecordFifo | scripts/drift.js:357-369 | the new mark is last; the rest is the old rail, minus its oldest mark exactly when the rail was full |
| DriftTrail.StepKeepsRailsPaired | scripts/drift.js:349-369 | two rails of equal length stay equal in length and within 600 after a frame |
| DriftTrail.StepFadesEveryMark | scripts/drift.js:349-385 | after a frame every mark kept keeps its place and position with exactly 0.98 of its opacity; a mark added that frame ends at its starting opacity · 0.98 |
| DriftTrail.NewMarkEndsFaded | scripts/drift.js:357-385 | a new mark starts at 0.5 and ends the frame that added it at 0.49 |
| DriftTrail.StepKeepsDim | scripts/drift.js:357-385 | every frame keeps all opacities in (0, 0.5] |
| DriftTrail.SkidTrail.constructor | scripts/drift.js:168-169 | both rails start empty |
| DriftTrail.SkidTrail.Update | scripts/drift.js:349-385 | the rails end as `TrailStep` of the old rails and the two wheel marks: push, evict and fade when sliding, only fade otherwise; the rails stay paired and capped |
| DriftTrail.SkidTrail.Fade | scripts/drift.js:372-385 | the fade loop multiplies every mark's opacity by 0.98 |
| DriftCar.TrackWalls | scripts/drift.js:121-133 | the course has nine walls, all of positive size on a canvas at least 601 × 301 |
| DriftCar.StartClearOfWalls | scripts/drift.js:121-145 | on a canvas of at least 700 × 500 the car's starting box meets no wall |
| DriftCar.ClampDt | scripts/drift.js:448 | the step is the elapsed time in seconds, capped at 0.032, and not negative for elapsed time ≥ 0 |
| DriftCar.StartHeadsLeft | scripts/drift.js:185-199 | at the start heading −π/2 the forward axis is (−1, 0), so the car points left: the throttle only lowers `vx`, by engine·dt |
| DriftCar.Car.constructor | scripts/drift.js:136-145 | the car starts at (W − 260, H − 90), heading −π/2 (pointing left), at rest, 28 × 54 |
| DriftCar.Car.UpdatePhysics | scripts/drift.js:174-261 | the car ends as the dynamics step `Drive` takes it, then pushed out of the walls its post-integration box overlaps |
| DriftCar.Car.ApplyPedals | scripts/drift.js:197-204 | the fields end as the throttle-and-brake stage gives |
| DriftCar.Car.ApplySteering | scripts/drift.js:206-216 | the fields end as the steering stage gives |
| DriftCar.Car.ApplyFriction | scripts/drift.js:218-223 | the fields end as the friction stage gives |
| DriftCar.Car.ApplyDamping | scripts/drift.js:225-231 | the fields end as the damping stage gives |
| DriftCar.Car.IntegratePosition | scripts/drift.js:234-235 | the position moves by velocity times dt |
| DriftCar.Car.ResolveWalls | scripts/drift.js:238-261 | the `for` loop over the walls ends as `ResolveAll` on the box taken before the loop |
| DriftCar.DriftGame.constructor | scripts/drift.js:121-169 | page load: car at its start, the nine walls, empty rails, no keys, centred pad |
| DriftCar.DriftGame.KeyDown | scripts/drift.js:19-20 | the key is marked held |
| DriftCar.DriftGame.KeyUp | scripts/drift.js:29-31 | the key is marked released |
| DriftCar.DriftGame.Frame | scripts/drift.js:447-451 | one frame: the clamped step, then the physics with the shipped handling, then the rails updated from the new car state |
| InvadersText.EscapeChar | scripts/invaders.js:50-58 | each special character becomes an entity from `&` to `;`, any other character stays, and no `<`, `>`, `"` or `'` comes out |
| InvadersText.EscapeHtml | scripts/invaders.js:50-58 | the escaped text has no `<`, `>`, `"` or `'`, is never shorter, and a string with no special character comes back unchanged |
| InvadersText.UnescapeChar | scripts/invaders.js:50-58 | decoding undoes the escape of one character in front of any text |
| InvadersText.EscapeRoundTrip | scripts/invaders.js:50-58 | decoding the escaped text gives the original text |
| InvadersText.EscapeInjective | scripts/invaders.js:50-58 | different names stay different after escaping |
| InvadersText.EscapeConcat | scripts/invaders.js:50-58 | escaping distributes over concatenation |
| InvadersText.EscapeEntities | scripts/invaders.js:54 | `&`, `<`, `>`, `"` and `'` map to `&amp;`, `&lt;`, `&gt;`, `&quot;` and `&#39;` |
| InvadersText.TrimStart | scripts/invaders.js:71 | a suffix that starts with a non-space; everything dropped is white space |
| InvadersText.TrimEnd | scripts/invaders.js:71 | a prefix that ends with a non-space; everything dropped is white space |
| InvadersText.TrimEmptyIffBlank | scripts/invaders.js:71 | a name trims to nothing exactly when it is all white space |
| InvadersText.TrimKeepsClean | scripts/invaders.js:71 | a name with no white space at either end is its own trim |
| InvadersText.TrimIdempotent | scripts/invaders.js:71 | a trimmed name has no white space at either end, and trimming twice is trimming once |
| InvadersText.Prefix | scripts/invaders.js:73 | `slice(0, n)`: the first n characters, or all when there are fewer |
| InvadersText.CleanName | scripts/invaders.js:71-73 | the stored name has 1 to 24 characters and no leading space: "Player" for a blank name, else the trimmed name cut to 24 |
| InvadersText.CleanNameBlank | scripts/invaders.js:71 | an empty name, or one of white space alone, is stored as "Player" |
| InvadersScores.NotBeforeTransitive | scripts/invaders.js:74 | "does not sort before" under the comparator is transitive |
| InvadersScores.Insert | scripts/invaders.js:74 | inserting adds exactly the one entry |
| InvadersScores.InsertRanked | scripts/invaders.js:74 | inserting into a sorted list keeps it sorted |
| InvadersScores.Sort | scripts/invaders.js:74 | the sorted list is a permutation of the input, ordered by score descending and then time ascending |
| InvadersScores.InsertLast | scripts/invaders.js:74 | an entry that no listed entry beats goes last |
| InvadersScores.RankedInit | scripts/invaders.js:74 | dropping the last entry of a sorted list leaves it sorted, and the dropped entry beats none of the rest |
| InvadersScores.SortRankedUnchanged | scripts/invaders.js:74 | sorting an already sorted list changes nothing |
| InvadersScores.SaveIntoRankedTable | scripts/invaders.js:72-74 | saving into a sorted table inserts the new entry after every stored entry it does not beat |
| InvadersScores.TieKeepsOrder | scripts/invaders.js:74 | the sort is stable: of two entries equal in score and time, the earlier stays first |
| InvadersScores.TiesConcat | scripts/invaders.js:74 | the entries tied with a given entry, picked from a concatenation, are those picked from each part in turn |
| InvadersScores.InsertTies | scripts/invaders.js:74 | inserting into a sorted list puts the new entry after every entry tied with it |
| InvadersScores.SortStable | scripts/invaders.js:74 | the sort is stable: for any entry, the entries tied with it come out in the order they went in |
| InvadersScores.TopFive | scripts/invaders.js:75 | `slice(0, 5)`: the first five, or all when there are fewer |
| InvadersScores.TopFiveOfRanked | scripts/invaders.js:74-75 | the first five of a sorted list are sorted and drawn from it, and no dropped entry sorts before a kept one |
| InvadersScores.SaveHighscore | scripts/invaders.js:70-77 | the table written back is the first five of the stored entries plus the new one (cleaned name, score, time), sorted by the comparator |
| InvadersScores.SaveExample | scripts/invaders.js:74 | worked table: a new 40 goes after the stored 40 saved earlier and ahead of the 20 |
| InvadersWorld.SpawnEnemies | scripts/invaders.js:140-163 | the nested row/column loops build exactly the wave `Wave` |
| InvadersWorld.WaveAt | scripts/invaders.js:152-161 | ship k of the wave is in row k / 10 and column k % 10 |
| InvadersWorld.WaveShape | scripts/invaders.js:140-163 | a wave has 40 ships of 42 × 18 with 1 hp, and equal margins left and right |
| InvadersWorld.WaveDisjoint | scripts/invaders.js:149-161 | no two ships of a wave overlap |
| InvadersWorld.WaveInsideMargins | scripts/invaders.js:149-161 | on a canvas at least 548 px wide every ship of a new wave is inside the 10 px side margins |
| InvadersWorld.MovePlayer | scripts/invaders.js:229-231 | on a canvas at least 40 px wide the cannon ends inside [20, W − 20]; on a narrower one the clamp leaves it at 20 |
| InvadersWorld.MovePlayerBalanced | scripts/invaders.js:229-231 | both arrows or neither leave a cannon that is already inside the margins where it is |
| InvadersWorld.MovePlayerLeft | scripts/invaders.js:229-231 | the left arrow alone moves the cannon left by 4·dt, stopping at the margin, and never right |
| InvadersWorld.MovePlayerRight | scripts/invaders.js:229-231 | the right arrow alone moves the cannon right by 4·dt, stopping at the margin, and never left |
| InvadersWorld.AdvanceBullets | scripts/invaders.js:248 | the `forEach` moves each bullet by its speed times dt |
| InvadersWorld.AdvanceAdds | scripts/invaders.js:248 | moving for d1 and then d2 is moving for d1 + d2; moving for 0 changes nothing |
| InvadersWorld.Filter | scripts/invaders.js:249 | a bullet is kept exactly when it was there and passes the test |
| InvadersWorld.FilterKeepsPassing | scripts/invaders.js:249 | when every bullet passes, filtering changes nothing |
| InvadersWorld.FilterIdempotent | scripts/invaders.js:276 | filtering twice by the same test is filtering once |
| InvadersWorld.FilterConcat | scripts/invaders.js:249 | filtering a concatenation is the concatenation of the filtered parts, so survivors keep their relative order |
| InvadersWorld.FilterAppend | scripts/invaders.js:249 | appending one bullet appends it to the result exactly when it passes the test |
| InvadersWorld.Volley | scripts/invaders.js:258-266 | a march fires at most one shot per ship |
| InvadersWorld.VolleySilent | scripts/invaders.js:258 | draws at or above the fire rate fire nothing |
| InvadersWorld.VolleyAll | scripts/invaders.js:258-266 | draws all below the fire rate make every ship fire, in ship order, from the middle of its bottom edge |
| InvadersWorld.FiringShipsExact | scripts/invaders.js:258-266 | the firing indices are exactly the ships whose draw is below the fire rate, in increasing order |
| InvadersWorld.VolleyInShipOrder | scripts/invaders.js:258-266 | the volley has one shot per firing ship, and its `k`-th shot comes from the `k`-th firing ship |
| InvadersWorld.VolleyMembers | scripts/invaders.js:258-266 | a shot is in the volley exactly when a ship whose draw is below the fire rate dropped it |
| InvadersWorld.MarchEnemies | scripts/invaders.js:252-267 | the `forEach` moves every ship by direction·speed·dt·2, notes whether any moved ship is past a margin, and appends the shots of the ships whose draw was below the rate |
| InvadersWorld.StepDownAll | scripts/invaders.js:271 | every ship drops by the step |
| InvadersWorld.MarchThenStep | scripts/invaders.js:252-272 | a march and a step-down move each ship by (step, d), in either order, and change nothing else |
| InvadersCombat.Remove | scripts/invaders.js:282-283 | `splice(i, 1)` removes exactly the element at i and keeps the rest in order |
| InvadersCombat.RemoveMultiset | scripts/invaders.js:282-283 | splicing removes one copy of the element from the list's contents |
| InvadersCombat.LastHit | scripts/invaders.js:280-287 | the inner loop stops at the highest-indexed ship the bullet overlaps; none is found only when it overlaps none |
| InvadersCombat.ShootDown | scripts/invaders.js:279-289 | each hit removes exactly one bullet and one ship |
| InvadersCombat.ShootDownSubset | scripts/invaders.js:279-289 | the surviving bullets and ships come from those the pass started with |
| InvadersCombat.ShootDownClears | scripts/invaders.js:279-289 | after the pass no surviving bullet overlaps a surviving ship |
| InvadersCombat.ShootDownMisses | scripts/invaders.js:279-289 | when no bullet overlaps any ship, the pass changes nothing |
| InvadersCombat.ShootDownOneShipTwoBullets | scripts/invaders.js:279-289 | two bullets on one ship: the later bullet takes it, and the earlier survives |
| InvadersCombat.ShootDownEnemies | scripts/invaders.js:279-289 | the nested reverse loops with in-place splices leave what `ShootDown` says, and the score grows by 10 per hit |
| InvadersCombat.ShootOnce | scripts/invaders.js:280-288 | one turn of the outer loop: the inner search and the splices advance the pass by exactly one bullet |
| InvadersCombat.FindHit | scripts/invaders.js:280-288 | the reverse inner loop finds the highest-indexed ship the bullet overlaps, or −1 when there is none |
| InvadersCombat.StepShootDown | scripts/invaders.js:279-289 | one turn of the outer loop is one unfolding of `ShootDown` on the bullets not yet visited |
| InvadersCombat.HitboxWindow | scripts/invaders.js:292-294 | an enemy shot hits the cannon exactly when its corner lies in a 40 × 26 window around it |
| InvadersCombat.Absorb | scripts/invaders.js:293-303 | each hit removes one shot and costs one life; the pass is fatal exactly when a hit left no lives; from one life or more, lives never go negative |
| InvadersCombat.AbsorbClears | scripts/invaders.js:293-303 | the remaining shots come from those the pass started with, and unless the pass was fatal none of them is in the hitbox |
| InvadersCombat.AbsorbMisses | scripts/invaders.js:293-303 | when no shot is in the hitbox, the pass changes nothing |
| InvadersCombat.LastLifeLost | scripts/invaders.js:293-301 | with one life left, the last shot in the list hitting ends the game at once and leaves the earlier shots unvisited |
| InvadersCombat.AbsorbShots | scripts/invaders.js:293-303 | the reverse loop with its early exit leaves what `Absorb` says |
| InvadersCombat.StepAbsorb | scripts/invaders.js:293-303 | one turn of the loop is one unfolding of `Absorb` on the shots not yet visited |
| InvadersFrame.ReloadFires | scripts/invaders.js:233-245 | at most one shot a frame, fired exactly when space is held and the cooldown has run out; the shot appears above the cannon and the cooldown restarts at 10; a frame without a shot counts a positive cooldown down by dt and leaves a spent one alone; nothing else changes |
| InvadersFrame.CooldownSpacesShots | scripts/invaders.js:233-245 | after a frame that fired, a frame shorter than 10 fires nothing |
| InvadersFrame.MarchEdge | scripts/invaders.js:252-272 | every ship moves by the same step; past a margin, the direction flips and every ship drops by exactly 15, otherwise no ship's height changes; the shots are appended and nothing else changes |
| InvadersFrame.StepParts | scripts/invaders.js:292-316 | a frame ends the game after a fatal hit or an invasion, and otherwise replaces a cleared wave |
| InvadersFrame.FreshSound | scripts/invaders.js:115-131 | a reset game has 3 lives and 40 ships and satisfies the frame invariant |
| InvadersFrame.AdvancedFacts | scripts/invaders.js:228-289 | the moves and the shoot-down keep the invariant and the lives; the wave only shrinks; the score grows by 10 per ship removed; at most one new player shot |
| InvadersFrame.StepSound | scripts/invaders.js:225-317 | a frame keeps the invariant (direction ±1, score a non-negative multiple of 10, at most 3 lives, cannon inside [20, W − 20]); a game that goes on has a life and a non-empty wave |
| InvadersFrame.StepScore | scripts/invaders.js:278-289 | the score never falls, and rises by exactly 10 per ship shot down |
| InvadersFrame.StepEnds | scripts/invaders.js:292-309 | lives fall by one per shot absorbed; the game ends exactly when the lives run out or a ship reaches the cannon's line |
| InvadersFrame.StepNextWave | scripts/invaders.js:312-316 | a cleared wave in a game that goes on is replaced by a fresh wave, 0.25 faster, firing 0.0005 more often; otherwise speed and fire rate are unchanged |
| InvadersGame.FrameDt | scripts/invaders.js:214 | the step is the elapsed time in 60 Hz frames, and not negative for elapsed time ≥ 0 |
| InvadersGame.Game.constructor | scripts/invaders.js:20-45 | page load: the menu, no keys, no bullets or ships, the initial pace, score 0, 3 lives, the cannon centred 40 px above the bottom |
| InvadersGame.Game.ResetGame | scripts/invaders.js:115-132 | no keys held, no bullets, score 0, 3 lives, direction 1, the initial speed and fire rate, the cannon centred, a new wave |
| InvadersGame.Game.StartGame | scripts/invaders.js:177-181 | a blank name field becomes "Player"; the mode becomes playing on a reset state that satisfies the invariant |
| InvadersGame.Game.EndGame | scripts/invaders.js:320-322 | the mode becomes game over, and the table is saved with the field's name and the score: sorted, at most five rows |
| InvadersGame.Game.KeyDown | scripts/invaders.js:166-195 | the key is marked held; Enter in the menu or at game over starts a game; p or P toggles the pause |
| InvadersGame.Game.KeyUp | scripts/invaders.js:172 | the key is released |
| InvadersGame.Game.AimAndReload | scripts/invaders.js:228-245 | the arrows and clamp, then the cooldown and firing, as `Aim` and `Reload` |
| InvadersGame.Game.MovePlayerShots | scripts/invaders.js:247-249 | the player's shots move and those off the top are dropped |
| InvadersGame.Game.MarchWave | scripts/invaders.js:251-272 | the march, the enemy fire and the turn at the edges |
| InvadersGame.Game.MoveEnemyShots | scripts/invaders.js:274-276 | the enemy shots fall and those below the canvas are dropped |
| InvadersGame.Game.ShootDownWave | scripts/invaders.js:278-289 | the player's shots against the wave, 10 points a ship |
| InvadersGame.Game.Advance | scripts/invaders.js:228-289 | the stages up to the shoot-down leave the state `Advanced` |
| InvadersGame.Game.TakeHits | scripts/invaders.js:292-303 | the enemy shots against the hitbox update the shots and lives as `Absorb` says, and report the fatal case |
| InvadersGame.Game.ReplaceWave | scripts/invaders.js:312-316 | a cleared wave gives way to a faster, more trigger-happy one |
| InvadersGame.Game.Settle | scripts/invaders.js:292-316 | after the shoot-down: hits, then defeat by lives or invasion, which saves the score, else the next wave |
| InvadersGame.Game.Play | scripts/invaders.js:228-316 | one playing frame moves the state as `Step`; a game that ends is saved to the table |
| InvadersGame.Game.Update | scripts/invaders.js:225-317 | outside play nothing changes; in play the state moves as `Step`, the mode becomes game over exactly when the frame ends the game, and the score is saved then; the invariant is kept |
| InvadersGame.Game.Loop | scripts/invaders.js:213-218 | the step since the last frame in 60 Hz frames; when paused or not playing nothing changes; otherwise one `Step` |

## Left out

- `scripts/main.js` (navigation, galleries, the slider, the modal) is DOM glue and is not part of this model.
- All drawing is left out. That covers the rendering half of `drawScene` (background, walls, car, the mark circles), `fillRoundedRect`, invaders `draw`, `drawRect` and `drawDevHUD`. The HUD text updates (`ui.*` in `updatePhysics`, `updateHUD`) and the `restartBtn.hidden` toggles are left out too: they only show state.
- The F1 toggle of `DEBUG` only controls the drawn HUD and is not modelled.
- The pointer and touch wiring in scripts/drift.js is not modelled: `bindPointerHold`, the buttons, and the steering pad's geometry. The pad's clamp of `steeringAnalogX` to [−1, 1] is kept as the invariant of `DriftCar.DriftGame`. The on-screen buttons only set keys, which the key set already covers.
- `preventDefault` calls have no effect on game state and are not modelled.
- `requestAnimationFrame`, `performance.now()`, `Math.random()`, `Date.now()`, `Math.cos`, `Math.sin` and `Math.hypot` are parameters, not computed.
- No IEEE-754 rounding is modelled: numbers are unbounded reals and integers, so the properties hold for exact arithmetic.
- `getHighscores`, `setHighscores` and `renderHighscores` are left out. The stored list is a value, as `localStorage` and JSON would give it back. A corrupt stored value, which `getHighscores` replaces by `[]`, is not modelled. Neither is the unused `renderHighScores` (scripts/invaders.js:86-98).
- Names are sequences of characters. JavaScript strings are UTF-16, so `slice(0, 24)` of a name outside the Basic Multilingual Plane can cut a surrogate pair. The model counts whole characters instead.
- The enemies' `hp` field is set to 1 and never read; it is carried but plays no part.
- `DriftCar.DriftGame.Frame`: the update of the skid rails is stated using the car's heading after the physics step. That is the heading `drawScene` reads.
- `InvadersScores.SaveHighscore`: its contract names the table as the first five of the sorted list. That the table is sorted, holds at most five rows and keeps the best entries is stated by `TopFiveOfRanked` and `Sort`, not repeated in the method's own contract.
