# Ski mini-game and widget helpers of the site script, in Dafny

This project models the logic in `assets/js/main.js` of a single-page site.

**The `SkiGame` canvas mini-game.** The skier steers toward the pointer. Trees and gates scroll up the slope. A tree hit costs points and sets off an explosion of particles. Passing through a gate earns points and sparks. Snow puffs drift by. After 2000 units of distance the run ends with a finish bonus.

The game is modelled twice, at two levels:

- **Value level (`SkiWorld`).** The module `SkiWorld` describes the game's state as one `World` value. Each step of the game is a function on that value: the constructor, `start`, `stop`, `spawnObjects`, `update` and one frame of `loop`. The list passes of `update` are in `SkiSweeps`, the particle bursts in `SkiBursts`, and the boxes and hit tests in `SkiEntities`. `Frames` counts the `loop` callbacks that `requestAnimationFrame` keeps pending.
- **Object level (`SkiGame.Game`).** The class `SkiGame.Game` has one field per field of the JavaScript object. Each of its methods updates those fields step by step, the way the source does. Each method is proved to leave the object in exactly the state the matching `SkiWorld` function gives, so every lemma about the functions holds of the object.

`Math.random()` is modelled in two ways:

- In the game, it is the stream `random`. `random(k)` is the `k`-th value returned. The counter `drawn` records how many values have been used, in the order the JavaScript evaluates its calls.
- In `shuffleArray`, it is the sequence `draws`.

**The rest of the script.** Besides the game, the project models:

- the `clamp` helper;
- the index arithmetic of the page's widgets: the hero slider's autoplay, the generic slider, the projects carousel and the gallery lightbox;
- the gallery's tile classes and the reveal directions;
- `shuffleArray`, the Fisher–Yates shuffle of the gallery images.

**Scoring and collisions as the code has them.** The game has no lives, no hit cooldown and no "hurt" flash. Each tree hit subtracts 35 points (`assets/js/main.js:779`), so the score can become negative; only the value shown is floored at zero (line 937). The explosion of a hit starts at the moved tree's top-left corner (line 778).

JavaScript numbers are idealised as mathematical reals, and integer indices as mathematical integers. Where `%` meets a negative operand, the model uses `JsRem`, JavaScript's remainder.

## Model

| member | source | states |
|---|---|---|
| Numbers.Clamp | assets/js/main.js:35 | the result lies in `[lo, hi]` when that interval is non-empty; a value already inside is returned unchanged; a value below gives `lo` and one above gives `hi`; crossed bounds give `lo` (the outer `Math.max` wins) |
| Numbers.ClampIndex | assets/js/main.js:35 | the same five facts for `clamp` on integer indices, as the lightbox uses it |
| Numbers.JsRem | assets/js/main.js:128 | JavaScript `%` with a positive divisor: for a non-negative dividend it is the mathematical remainder in `[0, b)`; for a negative one it is minus the remainder of the absolute value, in `(-b, 0]`; below one and two multiples of `b` it is `a` and `a - b` |
| Numbers.ShownScore | assets/js/main.js:937 | the displayed score is never negative; for a non-negative score it is its floor; a negative score shows as 0 |
| Indexing.Wrap | assets/js/main.js:466-468 | `go(i)` / `show(idx)`: for any index down to `-n` the result is a valid slide; an index already valid is kept; `n` wraps to 0 and `-1` wraps to `n - 1` |
| Indexing.SlideNext | assets/js/main.js:471 | `next()` from a valid slide gives a valid slide: the following one, or 0 from the last |
| Indexing.SlidePrev | assets/js/main.js:472 | `prev()` from a valid slide gives a valid slide: the previous one, or the last from 0 |
| Indexing.NextPrevInverse | assets/js/main.js:466-472 | `prev` after `next`, and `next` after `prev`, return to the slide shown before |
| Indexing.HeroStep | assets/js/main.js:128 | the autoplay tick moves to the next slide and wraps from the last to 0 |
| Indexing.HeroOrbit | assets/js/main.js:126-130 | after `k` ticks from slide `idx`, the slider shows slide `(idx + k) mod n` |
| Indexing.HeroVisitsEverySlide | assets/js/main.js:126-130 | the autoplay is back at its start after `n` ticks and reaches every slide on the way |
| Indexing.LightboxOpen | assets/js/main.js:214-223 | with no images nothing changes; otherwise the lightbox is shown at a valid index: the requested one when valid, the first when below, the last when above |
| Indexing.LightboxClose | assets/js/main.js:225-228 | the lightbox is hidden and keeps its image count and index |
| Indexing.LightboxNext | assets/js/main.js:230 | with no images nothing changes; otherwise the lightbox shows the following image, wrapping from the last to the first |
| Indexing.LightboxPrev | assets/js/main.js:231 | with no images nothing changes; otherwise it shows the previous image, wrapping from the first to the last |
| Indexing.LightboxNextPrev | assets/js/main.js:230-231 | browsing forward then back, or back then forward, returns to the same image |
| Indexing.GalleryTile | assets/js/main.js:297-298 | a tile is `large` exactly when its index is a multiple of 17, `wide` exactly when it is a multiple of 11 but not of 17, and plain otherwise |
| Indexing.LargeTilesSpaced | assets/js/main.js:297-298 | two tiles with the `large` class are at least 17 positions apart |
| Indexing.RevealDirection | assets/js/main.js:158-164 | chapters and features never slide up, and slide from the left exactly at even positions; other elements slide from the left, right or below exactly when their position is 0, 1 or 2 modulo 3 |
| Indexing.RevealAlternates | assets/js/main.js:158-165 | neighbouring chapters and features slide in from opposite sides; any three consecutive other elements use left, right and up, each once |
| Shuffle.Pick | assets/js/main.js:347 | `Math.floor(Math.random() * (i + 1))` lies in `[0, i]` |
| Shuffle.PicksOf | assets/js/main.js:346-347 | the indices the loop computes from its draws are valid swap partners for each position it visits |
| Shuffle.Swaps | assets/js/main.js:346-349 | the swaps still to do from counter `i` keep the length and never touch the positions above `i`, which are already final |
| Shuffle.SwapsPermutes | assets/js/main.js:346-349 | whatever the random indices, the swaps rearrange the list without adding, losing or duplicating elements (same multiset) |
| Shuffle.ShuffleArray | assets/js/main.js:344-351 | returns a fresh array; leaves the argument as it was; its content is the list after the swaps of the draws given, and is a permutation of the argument |
| SkiEntities.GateHitIsOverlap | assets/js/main.js:809-819 | passing through a gate (`checkpointHit`) always implies that the skier's box overlaps the gate's box (`rectsIntersect`) |
| SkiEntities.GrazingIsNoGateHit | assets/js/main.js:809-819 | the converse fails: a skier grazing the left post overlaps the gate's box without passing through it |
| SkiBursts.Explosion | assets/js/main.js:821-832 | ten particles, all at the given point, all red, all with 22 frames of life |
| SkiBursts.Sparks | assets/js/main.js:834-845 | fourteen particles, all at the given point, all cyan, all with 18 frames of life |
| SkiBursts.Snow | assets/js/main.js:847-858 | eight translucent particles, each with 26 frames of life |
| SkiBursts.ExplosionBounds | assets/js/main.js:826-827 | explosion particles move at most 2.25 px per frame sideways, between 3.36 up and 0.84 down |
| SkiBursts.SparkBounds | assets/js/main.js:839-840 | sparks move at most 3.1 px per frame sideways, between 4.32 up and 1.08 down |
| SkiBursts.SnowBounds | assets/js/main.js:850-853 | flakes start within 40 px sideways and 30 px vertically of the puff's centre, and drift slowly |
| SkiSweeps.ObstacleHits | assets/js/main.js:777 | the number of trees hit in a frame is at most the number of trees |
| SkiSweeps.ObstacleStep | assets/js/main.js:776-782 | the callback on one tree appends the moved tree to the kept list exactly when it neither hits nor has left the screen; a hit costs 35 points and appends ten particles after the existing ones; without a hit score, particles and draws are unchanged |
| SkiSweeps.SweepObstacles | assets/js/main.js:775-783 | the obstacle filter keeps at most as many trees; each hit costs 35 points and appends ten explosion particles (twenty draws) after the existing particles, which stay untouched |
| SkiSweeps.SweepObstaclesSnoc | assets/js/main.js:775-783 | the filter over one more tree is the filter so far followed by the callback on that tree (the order of the callbacks) |
| SkiSweeps.ObstacleSurvivors | assets/js/main.js:775-783 | a tree is kept if and only if, after moving, it neither hits the skier nor is past the bottom edge plus 50 px |
| SkiSweeps.ObstacleBursts | assets/js/main.js:778 | every particle the obstacle filter adds is an explosion particle with 22 frames of life |
| SkiSweeps.ObstacleOrder | assets/js/main.js:775-783 | the trees kept appear in the same relative order as before |
| SkiSweeps.ObstacleFilter | assets/js/main.js:775-783 | the trees kept are exactly `TreesKept`, the front-to-back filter of the moved trees that stay: same trees, same order, same repetitions |
| SkiSweeps.Touch | assets/js/main.js:786-788 | a gate moves down by the scroll and keeps its size; it is marked collected if and only if it was already collected or the skier now passes through it |
| SkiSweeps.CollectOnce | assets/js/main.js:787-789 | a collected gate stays collected and can never be collected, or rewarded, again |
| SkiSweeps.NewGates | assets/js/main.js:787 | the number of gates newly collected in a frame is at most the number of gates |
| SkiSweeps.CheckpointStep | assets/js/main.js:786-792 | the callback on one gate appends the moved, possibly collected, gate exactly when it is above the bottom edge plus 70 px; a first hit adds 70 points and appends fourteen particles after the existing ones; otherwise score, particles and draws are unchanged |
| SkiSweeps.SweepCheckpoints | assets/js/main.js:785-793 | the checkpoint filter keeps at most as many gates; each newly collected gate adds 70 points and appends fourteen sparks (28 draws) after the existing particles |
| SkiSweeps.SweepCheckpointsSnoc | assets/js/main.js:785-793 | the filter over one more gate is the filter so far followed by the callback on that gate |
| SkiSweeps.GateSurvivors | assets/js/main.js:785-793 | a gate is kept, collected or not, if and only if after moving it is above the bottom edge plus 70 px |
| SkiSweeps.GateBursts | assets/js/main.js:790 | every particle the checkpoint filter adds is a spark with 18 frames of life |
| SkiSweeps.CheckpointFilter | assets/js/main.js:785-793 | the gates kept are exactly `GatesKept`, the front-to-back filter of the touched gates still on screen |
| SkiSweeps.Age | assets/js/main.js:796-799 | a particle moves by its velocity, falls 0.12 faster, keeps its sideways speed and colour, and loses one frame of life |
| SkiSweeps.AgeParticles | assets/js/main.js:795-801 | the particle filter never grows the list, and leaves no particle without life |
| SkiSweeps.AgeParticlesSnoc | assets/js/main.js:795-801 | the filter over one more particle appends that particle, aged, exactly when it still has life |
| SkiSweeps.ParticleSurvivors | assets/js/main.js:795-801 | every particle left is an aged particle of the input, and every particle with more than one frame of life is kept, aged |
| SkiSweeps.ParticleFilter | assets/js/main.js:795-801 | the particles left are exactly `ParticlesLeft`, the front-to-back filter of the aged particles that still have life |
| SkiWorld.ResetPlayer | assets/js/main.js:648-654 | without a canvas nothing changes; otherwise the skier is centred at 78% of the height, the pointer target follows it, and nothing else changes |
| SkiWorld.Initial | assets/js/main.js:601-633 | a new game is idle, with score and distance 0, base speed 2.2 and empty lists, and satisfies the game invariant |
| SkiWorld.Start | assets/js/main.js:690-717 | without a canvas or a drawing context nothing changes; otherwise the run starts from zero score and distance, base speed, empty lists and no cooldown, with the skier centred; the invariant is preserved |
| SkiWorld.Stop | assets/js/main.js:719-720 | the run is no longer running and nothing else changes |
| SkiWorld.Spawn | assets/js/main.js:736-755 | while the cooldown has not run out, only the cooldown drops by `dt`; otherwise it restarts at `max(240, 520 - 30 * speed)` (never below 240), exactly one 30 px tree is appended just above the top, at most one uncollected 90 by 40 gate is appended, and either nothing or eight snow particles with 26 frames of life are appended; existing entries and all other fields are unchanged |
| SkiWorld.SpawnTree | assets/js/main.js:746-747 | exactly one 30 px tree is appended just above the top, at the position spread from the next draw; one draw is used and nothing else changes |
| SkiWorld.SpawnGate | assets/js/main.js:749-752 | a gate is appended exactly when the next draw is below 0.33: uncollected, 90 by 40, just above the top, at the position spread from the draw after; two draws are used then, one otherwise; nothing else changes |
| SkiWorld.SpawnSnow | assets/js/main.js:754 | when the next draw is below 0.25 the eight flakes of a puff at the middle of the canvas and 30% of its height are appended, using 33 draws; otherwise only one draw is used; nothing else changes |
| SkiWorld.Spread | assets/js/main.js:746-750 | a spawn position keeps the margin from both edges of a wide enough canvas |
| SkiWorld.Drop | assets/js/main.js:766-773 | the scroll and the distance gained are never negative |
| SkiWorld.Gain | assets/js/main.js:767 | the points earned by distance are never negative |
| SkiWorld.Ramp | assets/js/main.js:764-767 | the speed never decreases and never exceeds 8; it is either the cap or the old speed plus `dt * 0.00035`; distance and score grow by the new speed's scroll and points; nothing else changes |
| SkiWorld.Steer | assets/js/main.js:769-771 | on a canvas at least as wide as the skier, the whole skier stays on it; when the steered position is already inside, it is used unchanged; only the skier's `x` changes |
| SkiWorld.Scroll | assets/js/main.js:773-801 | after the three filters no particle is left without life; only the score, the three lists and the draw count change |
| SkiWorld.Finish | assets/js/main.js:803-806 | at 2000 or more distance the run stops with 500 more points; below it nothing changes |
| SkiWorld.Update | assets/js/main.js:757-758 | a stopped game is left exactly as it is |
| SkiWorld.Tick | assets/js/main.js:926-933 | a frame of a stopped game changes nothing |
| SkiWorld.SpawnInside | assets/js/main.js:746-750 | a new tree keeps 20 px from both edges, and a new gate 60 px |
| SkiWorld.ScoreLedger | assets/js/main.js:764-806 | a running frame changes the score by exactly: the distance points, minus 35 per tree hit, plus 70 per newly collected gate, plus 500 if the run finished |
| SkiWorld.UpdateLists | assets/js/main.js:775-793 | after a running frame, the trees are exactly the moved trees that were not hit and are on screen, and the gates are exactly the moved, possibly collected, gates still on screen; both lists equal the front-to-back filters `TreesKept` and `GatesKept`, so order and repetitions are exact |
| SkiWorld.FinishOnce | assets/js/main.js:757-806 | a running frame stops the run if and only if the distance reached 2000; after that, frames and updates change nothing, so the bonus is paid once |
| SkiWorld.SpawnKeepsInv | assets/js/main.js:736-755 | spawning keeps the game invariant (speed bounds, entity sizes, live particles, cooldown at most 520) |
| SkiWorld.UpdateKeepsInv | assets/js/main.js:757-807 | `update` keeps the invariant and never lowers the speed; a running frame leaves the skier inside a wide enough canvas |
| SkiWorld.TickKeepsInv | assets/js/main.js:926-933 | every frame of the loop keeps the invariant; the speed never drops and never passes 8; the skier stays inside a wide enough canvas |
| SkiGame.Game.constructor | assets/js/main.js:601-633 | a new game object is in the initial state (idle, nothing on the slope, skier centred) |
| SkiGame.Game.NextRandom | assets/js/main.js:746 | one `Math.random()` call returns the next value of the stream and advances the counter by one |
| SkiGame.Game.ResetPlayer | assets/js/main.js:648-654 | the object's new state is `SkiWorld.ResetPlayer` of its old state |
| SkiGame.Game.PointerMove | assets/js/main.js:664-679 | with a canvas, the pointer target becomes the pointer's position relative to the canvas's left edge; without one it is unchanged |
| SkiGame.Game.Stop | assets/js/main.js:719-734 | the new state is `SkiWorld.Stop` of the old state |
| SkiGame.Game.Start | assets/js/main.js:690-717 | without a canvas or a context the state is unchanged; otherwise it is the first loop frame after `SkiWorld.Start` |
| SkiGame.Game.CreateExplosion | assets/js/main.js:821-832 | the particle list gains exactly the ten particles of `Explosion`, in order, and twenty draws are used |
| SkiGame.Game.CreateSparks | assets/js/main.js:834-845 | the particle list gains exactly the fourteen particles of `Sparks`, and 28 draws are used |
| SkiGame.Game.CreateSnow | assets/js/main.js:847-858 | the particle list gains exactly the eight flakes of `Snow`, and 32 draws are used |
| SkiGame.Game.SpawnObjects | assets/js/main.js:736-755 | the new state is `Spawn` of the old state |
| SkiGame.Game.PushTree | assets/js/main.js:746-747 | appends the spawned tree as `SpawnTree` says |
| SkiGame.Game.PushGate | assets/js/main.js:749-752 | appends the gate, or not, as `SpawnGate` says |
| SkiGame.Game.PushSnow | assets/js/main.js:754 | adds the snow puff, or not, as `SpawnSnow` says |
| SkiGame.Game.FilterObstacles | assets/js/main.js:775-783 | the new state is the obstacle filter `PassTrees` of the old state |
| SkiGame.Game.ObstacleCallback | assets/js/main.js:775-782 | one callback extends the filter's partial result exactly as `ObstacleStep` does |
| SkiGame.Game.FilterCheckpoints | assets/js/main.js:785-793 | the new state is the checkpoint filter `PassGates` of the old state |
| SkiGame.Game.CheckpointCallback | assets/js/main.js:785-792 | one callback extends the filter's partial result exactly as `CheckpointStep` does |
| SkiGame.Game.FilterParticles | assets/js/main.js:795-801 | the new particle list is `AgeParticles` of the old one |
| SkiGame.Game.Accelerate | assets/js/main.js:764-767 | the new state is `Ramp` of the old state |
| SkiGame.Game.SteerPlayer | assets/js/main.js:769-771 | the new state is `Steer` of the old state |
| SkiGame.Game.ScrollSlope | assets/js/main.js:773-801 | the new state is `Scroll` of the old state |
| SkiGame.Game.Update | assets/js/main.js:757-807 | the new state is `SkiWorld.Update` of the old state |
| SkiGame.Game.Loop | assets/js/main.js:926-938 | the new state is `Tick` of the old state; a running frame shows the floored, non-negative score |
| Frames.Paint | assets/js/main.js:926-941 | while the game runs, every callback that ran has scheduled its successor; once stopped, no callback is left |
| Frames.FinishingPaint | assets/js/main.js:719-723 | a paint in which one of the pending callbacks reaches the finish line leaves the game stopped with at least one and at most as many callbacks pending as before; with one or two loops exactly one is left, since `stop` cancels only the handle scheduled last and the finishing frame still schedules its own successor (line 940) |
| Frames.StartAsWritten | assets/js/main.js:690-717 | `start` as written: the game runs and one callback more is pending than before |
| Frames.Start | assets/js/main.js:690-723 | `start` with `_raf` cancelled first: the game runs, and from at most one pending callback exactly one is left |
| Frames.RestartDoublesFrames | assets/js/main.js:658-662 | as written, start, a paint, then restart leaves two loops, so each paint simulates two frames |
| Frames.PressesPileUp | assets/js/main.js:690-717 | as written, `k` presses leave `k` pending loops, and each paint simulates `k` frames |
| Frames.OneLoopAlways | assets/js/main.js:690-723 | with the cancel, after any sequence of presses, paints and finishes at most one loop is pending, and a running game simulates exactly one frame per paint |

## Left out

- Rendering is not modelled. This covers `draw` and its helpers (lines 860-924) and the canvas transform.
- `updateCanvasSize` is not modelled: it only sizes the canvas for the device pixel ratio. The canvas size that `getBoundingClientRect` reports becomes the parameters `w` and `h`.
- The start button's label, the status messages and the score element's text are not modelled. Only the number shown, `ShownScore`, is.
- Browser scheduling is modelled only as the number of pending `loop` callbacks (`Frames`). Timestamps from `performance.now()`, `setInterval` and the debounced resize listener are not modelled. A frame's elapsed time is a parameter of `Loop` and `Start`.
- SkiGame.Game.Start: the first frame's elapsed time, which the source takes as the time between two `performance.now()` calls, is an arbitrary parameter.
- `Math.random()` is the injected stream `random` in the game and the sequence `draws` in the shuffle. Its distribution is not modelled; `UnitStream` and `UnitDraws` only state that draws lie in `[0, 1)`.
- JavaScript numbers are IEEE doubles. They are idealised as reals, so rounding in the score, speed and positions is not modelled.
- The source mutates each tree, gate and particle in place inside the `filter` callbacks. The model replaces them with moved copies. No other code holds these objects, so aliasing is not lost.
- SkiSweeps.AgeParticles: its own contract states only the length bound and the live-particle fact; which particles survive is stated by the lemmas `ParticleSurvivors` and `ParticleFilter`.
- SkiBursts.Snow: its own contract gives the count, life and colour; the position and velocity bounds are the lemma `SnowBounds`, which needs draws in `[0, 1)`.
- The widget DOM work is not modelled: building the slider dots, toggling classes, image `src`/`alt`, and scroll locking. This also covers the hero slider's `slides.length < 2` and reduced-motion guards, and the keyboard and swipe handlers that call `next` and `prev`. Only the index arithmetic those handlers use is modelled.
- `Indexing.Wrap`, `Indexing.SlideNext` and `Indexing.SlidePrev` require at least one slide. The slider and the carousel return early when they have none (lines 440 and 530), and `HeroStep` is only reached with two or more slides.

## Findings

| source | as written | input that shows it | evidently intended | confidence | as-written member | corrected member |
|---|---|---|---|---|---|---|
| assets/js/main.js:690-717 | `start()` runs `loop` directly without cancelling the animation frame that is already pending. The restart button calls `start()` and is never disabled (lines 660-662). | Press start, then press restart while the run is going: two `loop` chains are now pending, and every paint runs `spawnObjects` and `update` twice. | A restart replaces the running loop, so there is one frame per paint. This is what `start` gives when it first does `cancelAnimationFrame(this._raf)`, as `stop` does at line 722. | medium; not executed | Frames.RestartDoublesFrames | Frames.OneLoopAlways |

The game class `SkiGame.Game` follows the corrected behaviour: each `Loop` call is one frame of the single running loop.
