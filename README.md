# Pixel-card engine, quiz and planet navigation, modelled in Dafny

This project models three parts of a Next.js learning game:

- **The pixel-card engine** (`src/app/components/PixelCard.tsx`). This is a decorative card background. A canvas is cut into a grid of pixels, one every `gap` pixels. Each pixel is a small state machine:
  - `appear` counts down a delay, then grows, then shimmers between a minimum and a maximum size;
  - `disappear` shrinks the pixel by 0.1 per call until it goes idle.

  A frame loop capped at 60 ticks per second steps every pixel once per tick and cancels itself once all pixels are idle. Pointer and focus events restart the loop in one direction or the other.
- **The quiz** (`src/app/planets/gamescene.tsx`):
  - a question list with a one-question fallback;
  - a 30-second countdown;
  - a reward of 50 plus twice the seconds left;
  - penalties of 20 (wrong answer) and 10 (timeout), floored at zero;
  - an 800 ms reveal followed by a 500 ms advance to the next question, taken modulo the list length.
- **The navigation** (`src/components/game-container.tsx`):
  - which planets `getAvailablePlanets` offers next: all of them at first, then those connected to the last one visited;
  - the screen record (`space`, `planet`, `loading`) that rocket-flight completions, the adventure button, the question generator and the back buttons update.

Files:

- `wrappers.dfy`: `Option`, which stands for JavaScript's `null`/`undefined`.
- `arithmetic.dfy`: the one integer-product fact that the grid and the quiz both need.
- `pixel.dfy`, module `Pixels`: the `Pixel` class. Its step rules are value functions (`Appeared`, `Disappeared`, `Shimmered`). The class methods update the fields in place and are proved to follow those functions. Lemmas about many ticks sit alongside.
- `pixel_card.dfy`, module `PixelCard`:
  - the speed clamp and the variant table;
  - the palette split;
  - the grid;
  - the frame-time cap;
  - the `PixelCard` class: the grid builder, the frame loop, the animation trigger, re-rendering with new props, and teardown.
- `game_scene.dfy`, module `GameScene`: the quiz state as a `Quiz` value with one transition function per handler. The `GameScene` class holds the React state as fields; each handler method is proved to equal its transition function.
- `game_container.dfy`, module `GameContainer`: the planet filter, the `GameState` updates, event traces over them, and the `GameContainer` class.

Environment inputs are passed in as parameters:

- the bounding box;
- the `Math.random()` draws (`PixelDraws`, `CellInput.colorDraw`);
- the square-root distances (`CellInput.distance`, constrained by its square);
- `performance.now()` (the `now` argument of `RunFrame`);
- whether a 2D context exists;
- the focus `contains` check;
- the loaded question JSON;
- the rocket's `atan2` rotation and eased positions.

Scheduling is modelled as follows:

- The pending `requestAnimationFrame` callback is `PixelCard.frame`.
- Pending `setTimeout` callbacks are the counters `pendingReveals` and `pendingAdvances`. They fire through their own methods.
- The quiz's one-second interval is `Tick`. It changes nothing unless the game is active, loaded and timed, because only then does the effect keep an interval.

Some of the code's behaviour is easy to misread:

- **Disappear timing.** A pixel of size `s > 0` does not go idle after `ceil(s / 0.1)` disappear calls. That many calls only bring the size to zero or below. The idle flag is set on the call after that, so it takes `ceil(s / 0.1) + 1` calls. The final size lies in (-0.1, 0], so it is negative whenever `s` is not a multiple of 0.1 (`Pixels.DisappearReachesIdle`).
- **Resize.** A resize does not cancel the pending frame. The resize observer only calls `initPixels`. A running loop carries on over the new pixels (`PixelCard.PixelCard.InitPixels` keeps `frame`).
- **Unmount.** The effect's cleanup does not drop the pixels. It only cancels the frame; `pixelsRef` is left as it is (`PixelCard.PixelCard.Teardown`).
- **Reconfiguration.** A mounted card is reconfigured in place. Each quiz answer card keeps its `key` while its `variant` changes (src/app/planets/gamescene.tsx:240-248). When a round closes, the correct answer's card switches to blue and a wrongly chosen card to pink. Both switch back to default on the next question. The other cards stay default throughout, so after a timeout only the correct card changes. The three variants resolve to different settings (`PixelCard.AnswerCardSettings`). So each switch cancels that card's pending frame and rebuilds its grid at the new gap (`PixelCard.PixelCard.Rerender`); a card whose variant stays the same is left alone.
- **First appear call.** The first `appear` call never grows a pixel, even with delay 0, because the guard is `counter <= delay`.

## Model

| member | source | states |
|---|---|---|
| Pixels.RandomValue | src/app/components/PixelCard.tsx:45-47 | a draw in [0, 1) scaled into [min, max) lands in [min, max) |
| Pixels.ScaledSpeed | src/app/components/PixelCard.tsx:31 | the pixel's speed lies in [0.1, 0.9] times the effective speed, and strictly below 0.9 times it when that speed is positive; below 0.09 for an effective speed of at most 0.1 |
| Pixels.NewParams | src/app/components/PixelCard.tsx:24-43 | the constructor copies position, size and colour; sets minSize 0.5 and maxSizeInteger 2; gives maxSize in [0.5, 2), sizeStep in [0, 0.4), speed in [0.1, 0.9)·speed and counterStep at least (width + height)·0.01; an effective speed in [0, 0.1] with a non-negative delay yields a well-formed pixel |
| Pixels.CenterOffset | src/app/components/PixelCard.tsx:49-50 | the draw offset keeps the square centred in the 2-unit cell: offset + size/2 = maxSizeInteger/2 |
| Pixels.Shimmered | src/app/components/PixelCard.tsx:89-100 | at or above maxSize the direction becomes reverse; at or below minSize (and below maxSize) it becomes forward; in between it is kept; the size then moves by exactly ∓speed and nothing else changes |
| Pixels.Appeared | src/app/components/PixelCard.tsx:60-75 | `appear` always clears idle; within the delay (counter ≤ delay) it only advances the counter; after it, the shimmer flag latches on once size ≥ maxSize and is never cleared; unlatched it grows by exactly sizeStep; latched it shimmers |
| Pixels.Disappeared | src/app/components/PixelCard.tsx:77-87 | `disappear` always clears the shimmer flag and zeroes the counter; at size ≤ 0 it sets idle and keeps the size; otherwise it shrinks by exactly 0.1 and leaves idle alone |
| Pixels.InitialInv | src/app/components/PixelCard.tsx:32-42 | a freshly constructed pixel satisfies the tick invariant |
| Pixels.Step | src/app/components/PixelCard.tsx:241 | the frame loop's `pixel[fnName]()` runs `appear` for the appearing direction, which always leaves the pixel non-idle, and `disappear` for the disappearing one, which always clears the shimmer |
| Pixels.StepPreservesInv | src/app/components/PixelCard.tsx:60-100 | every `appear` or `disappear` keeps the size in (-0.1, maxSize + max(sizeStep, speed)) and shimmering only after the delay |
| Pixels.ShimmerStaysInBand | src/app/components/PixelCard.tsx:89-100 | a shimmering size within one speed of [minSize, maxSize] stays within it |
| Pixels.Decrements | src/app/components/PixelCard.tsx:80-85 | the number of 0.1 decrements that bring a size to zero or below is its ceiling in tenths |
| Pixels.DisappearCountsDown | src/app/components/PixelCard.tsx:80-85 | for k up to that count, k calls of `disappear` take exactly k·0.1 off the size and do not change idle |
| Pixels.DisappearReachesIdle | src/app/components/PixelCard.tsx:77-87 | from a size above -0.1, `disappear` reaches idle after ceil(size/0.1) + 1 calls with final size in (-0.1, 0], and a pixel that was not idle is not idle after any fewer calls |
| Pixels.DisappearStaysIdle | src/app/components/PixelCard.tsx:80-82 | further calls of `disappear` keep an idle pixel idle with its size unchanged |
| Pixels.AppearDelayPhase | src/app/components/PixelCard.tsx:60-65 | while the counter stays within the delay, n calls of `appear` only advance the counter by n counterSteps |
| Pixels.AppearGrowPhase | src/app/components/PixelCard.tsx:66-73 | after the delay and below maxSize, n calls of `appear` grow the size by n sizeSteps and leave the shimmer flag off |
| Pixels.AppearReachesShimmer | src/app/components/PixelCard.tsx:60-75 | for a positive size step and counter step, a fresh pixel spends d calls on the delay at size 0, g calls growing to at least maxSize, and latches the shimmer on call d + g + 1 |
| Pixels.Pixel.constructor | src/app/components/PixelCard.tsx:24-43 | the new pixel's parameters are `NewParams` of its arguments and draws, and its state is size 0, counter 0, all flags false |
| Pixels.Pixel.Appear | src/app/components/PixelCard.tsx:60-75 | updates the fields in place to `Appeared` of the old state |
| Pixels.Pixel.Disappear | src/app/components/PixelCard.tsx:77-87 | updates the fields in place to `Disappeared` of the old state |
| Pixels.Pixel.Shimmer | src/app/components/PixelCard.tsx:89-100 | updates the fields in place to `Shimmered` of the old state |
| PixelCard.ParseInt | src/app/components/PixelCard.tsx:107 | `parseInt` of a printed number truncates toward zero |
| PixelCard.GetEffectiveSpeed | src/app/components/PixelCard.tsx:103-116 | the result lies in [0, 0.1]; it is 0 exactly when reduced motion is on or the parsed value is ≤ 0; it is 0.1 from 100 up and parsed·0.001 in between |
| PixelCard.EffectiveSpeedMonotone | src/app/components/PixelCard.tsx:103-116 | a larger speed setting never gives a smaller effective speed |
| PixelCard.VariantNamed | src/app/components/PixelCard.tsx:118-147 | any name other than blue, yellow or pink falls back to the default variant; every variant has a positive gap and a speed in (0, 100); only pink switches focus off |
| PixelCard.Resolve | src/app/components/PixelCard.tsx:178-182 | each given prop overrides the variant's value, each missing one comes from the variant (default "default"), and a gap left to the variant is positive |
| PixelCard.Split | src/app/components/PixelCard.tsx:199 | splitting the palette gives at least one piece and no piece contains a comma |
| PixelCard.JoinSplit | src/app/components/PixelCard.tsx:199 | joining the split pieces with the separator gives the palette string back |
| PixelCard.SplitJoin | src/app/components/PixelCard.tsx:199 | splitting a join of separator-free pieces gives the pieces back |
| PixelCard.ColorIndex | src/app/components/PixelCard.tsx:203 | `floor(random · length)` is a valid palette index |
| PixelCard.AxisExact | src/app/components/PixelCard.tsx:201-202 | the coordinates a `c += gap` loop visits from a multiple of gap are exactly the multiples of gap in [from, extent), strictly increasing |
| PixelCard.GridExact | src/app/components/PixelCard.tsx:201-202 | the grid holds exactly the points (x, y) with 0 ≤ x < width, 0 ≤ y < height and both multiples of gap, each once, in x-major order, cols × rows of them |
| PixelCard.PointAt | src/app/components/PixelCard.tsx:201-202 | the inner loop's point at (i, j) is grid point number i·rows + j |
| PixelCard.AnswerCardSettings | src/app/planets/gamescene.tsx:240-248 | the default, blue (correct answer once the round is closed) and pink (wrongly chosen answer) cards resolve to pairwise different settings (gaps 5, 10 and 6), so each switch re-runs the card's effect; only pink switches focus off |
| PixelCard.Remainder | src/app/components/PixelCard.tsx:231 | `timePassed % timeInterval` lies in [0, interval), and timePassed = k·interval + remainder for the whole number k = floor(timePassed / interval) ≥ 0 |
| PixelCard.CarryOver | src/app/components/PixelCard.tsx:225-231 | after a due frame the reference time has moved forward by a whole number k ≥ 1 of frame intervals and lies less than one interval behind now |
| PixelCard.PixelCard.PixelAt | src/app/components/PixelCard.tsx:203-216 | the pixel built for a grid point sits at that point with a colour from the palette, takes the centre distance as its delay (0 under reduced motion, when its speed is 0 as well) and is well formed |
| PixelCard.PixelCard.constructor | src/app/components/PixelCard.tsx:159-182 | the resolved gap, speed, colours and focus setting, no pixels, no frame, the reference time set to now |
| PixelCard.PixelCard.InitPixels | src/app/components/PixelCard.tsx:184-222 | without a container, canvas or context nothing changes; otherwise the pixel array is replaced by one fresh pixel per grid point, in grid order, each built by `PixelAt` from its cell's draws and distance and in its initial state; the pending frame is kept |
| PixelCard.PixelCard.AddColumn | src/app/components/PixelCard.tsx:202-219 | the inner loop appends one fresh pixel per y of the column, in order, keeping the earlier ones |
| PixelCard.PixelCard.HandleAnimation | src/app/components/PixelCard.tsx:251-256 | cancels any pending frame and schedules exactly one for the given direction |
| PixelCard.PixelCard.FocusChange | src/app/components/PixelCard.tsx:260-267 | a focus move inside the card, or any focus move with focus switched off, changes nothing; otherwise it triggers the direction |
| PixelCard.NextTimePrevious | src/app/components/PixelCard.tsx:231 | after a due frame the new reference time lies less than one interval behind now and at least one interval after the old one |
| PixelCard.PixelCard.Teardown | src/app/components/PixelCard.tsx:277-282 | the effect cleanup cancels the pending frame and leaves the pixels and settings |
| PixelCard.PixelCard.Rerender | src/app/components/PixelCard.tsx:269-284 | a render whose resolved gap, speed, colours and focus setting all equal the current ones changes nothing; any other render adopts the new settings, cancels the pending frame, and (with a container and a context) replaces the pixels by one fresh pixel per grid point of the new gap, each built from the new settings |
| PixelCard.PixelCard.RunFrame | src/app/components/PixelCard.tsx:224-249 | below the frame interval no pixel is touched and the reference time is kept; otherwise the remainder carries over and, with a context, every pixel takes exactly one step of the direction in order, and the loop is cancelled exactly when all pixels are then idle |
| PixelCard.StepAll | src/app/components/PixelCard.tsx:238-245 | every pixel takes exactly one step, the invariant is kept, and the result says whether all pixels are idle |
| PixelCard.FramesToIdle | src/app/components/PixelCard.tsx:77-87 | the number of disappear frames is at least every pixel's idle count and equals one of them |
| PixelCard.DisappearEndsLoop | src/app/components/PixelCard.tsx:238-248 | after `FramesToIdle` disappear frames every pixel is idle, so the loop cancels itself |
| PixelCard.AppearKeepsLoopRunning | src/app/components/PixelCard.tsx:238-248 | under `appear` a frame over at least one pixel never cancels the loop |
| GameScene.Reward | src/app/planets/gamescene.tsx:125-127 | the reward is 50 plus twice the seconds left when the timer is on, and 50 when it is off |
| GameScene.Deduct | src/app/planets/gamescene.tsx:133 | a penalty takes the amount when there is enough money and otherwise leaves 0; the result is never negative and never more than before |
| GameScene.NextIndex | src/app/planets/gamescene.tsx:145 | the next index is in range, one up from any index but the last, and 0 after the last |
| GameScene.Countdown | src/app/planets/gamescene.tsx:94-100 | a tick times out exactly when at most one second was left, then showing 0; otherwise it takes one second off and leaves at least one |
| GameScene.LoadedQuestions | src/app/planets/gamescene.tsx:74-86 | a non-empty loaded list replaces the questions; anything else keeps them, so the list stays non-empty |
| GameScene.Loaded | src/app/planets/gamescene.tsx:74-86 | the load effect stores those questions and ends loading whatever happened |
| GameScene.NextQuestionScheduled | src/app/planets/gamescene.tsx:143-144 | `nextQuestion` schedules one more advance and changes nothing else |
| GameScene.Answered | src/app/planets/gamescene.tsx:116-141 | ignored while the round is closed or loading; otherwise it records the answer, closes the round and schedules the reveal; a right answer adds the reward to score and money and shows it; a wrong one leaves the score and takes the penalty from money |
| GameScene.TimedOut | src/app/planets/gamescene.tsx:110-114 | a timeout closes the round, takes the timeout penalty and schedules the advance |
| GameScene.Ticked | src/app/planets/gamescene.tsx:89-108 | with no running interval nothing changes; otherwise the time goes down by one, or at one second or less it shows 0 and times out |
| GameScene.Revealed | src/app/planets/gamescene.tsx:137-140 | the reveal hides the popup and schedules the advance |
| GameScene.Advanced | src/app/planets/gamescene.tsx:144-152 | the advance moves to the next question mod the list length, resets the time to 30 only with the timer on, reopens the round and clears the selection |
| GameScene.WithTimer | src/app/planets/gamescene.tsx:186-188 | saving the settings sets the timer flag and nothing else |
| GameScene.StartValid | src/app/planets/gamescene.tsx:52-61 | the first render satisfies the quiz invariant with 100 money and 30 seconds |
| GameScene.LoadedValid | src/app/planets/gamescene.tsx:74-86 | the load effect keeps the quiz invariant |
| GameScene.AnsweredValid | src/app/planets/gamescene.tsx:116-141 | answering keeps the quiz invariant |
| GameScene.TickedValid | src/app/planets/gamescene.tsx:89-114 | a tick keeps the quiz invariant |
| GameScene.RevealedValid | src/app/planets/gamescene.tsx:137-140 | the reveal keeps the quiz invariant |
| GameScene.AdvancedValid | src/app/planets/gamescene.tsx:144-152 | the advance keeps the quiz invariant |
| GameScene.AnswerSettlesRound | src/app/planets/gamescene.tsx:117-136 | once a round is answered, further answers and ticks change nothing |
| GameScene.AnswerPayout | src/app/planets/gamescene.tsx:123-134 | a right answer adds the same amount, at least 50, to score and money; a wrong one keeps the score and takes at most 20 from money without going below 0 |
| GameScene.CountdownTimesOut | src/app/planets/gamescene.tsx:92-101 | counting down from t seconds leaves t - k after k < t ticks and times out on exactly the t-th |
| GameScene.AdvanceCycles | src/app/planets/gamescene.tsx:145 | the k-th advance from the first question shows question k mod n, so every question comes round in order |
| GameScene.Apply | src/app/planets/gamescene.tsx:74-153 | every event keeps the quiz invariant |
| GameScene.RunKeepsInvariant | src/app/planets/gamescene.tsx:74-153 | along any sequence of events the invariant holds and the score never decreases |
| GameScene.SessionBounds | src/app/planets/gamescene.tsx:52-61 | from the first render, money, score and time left are never negative and the shown question exists |
| GameScene.GameScene.constructor | src/app/planets/gamescene.tsx:52-71 | the first render's state: fallback questions, index 0, 30 seconds, score 0, money 100, active, loading, timer on |
| GameScene.GameScene.LoadQuestions | src/app/planets/gamescene.tsx:74-86 | updates the fields to `Loaded` of the old state |
| GameScene.GameScene.HandleAnswer | src/app/planets/gamescene.tsx:116-141 | updates the fields to `Answered` of the old state |
| GameScene.GameScene.NextQuestion | src/app/planets/gamescene.tsx:143-144 | updates the fields to `NextQuestionScheduled` of the old state |
| GameScene.GameScene.HandleTimeOut | src/app/planets/gamescene.tsx:110-114 | updates the fields to `TimedOut` of the old state |
| GameScene.GameScene.Tick | src/app/planets/gamescene.tsx:92-101 | updates the fields to `Ticked` of the old state |
| GameScene.GameScene.RevealElapsed | src/app/planets/gamescene.tsx:137-140 | updates the fields to `Revealed` of the old state |
| GameScene.GameScene.AdvanceElapsed | src/app/planets/gamescene.tsx:144-152 | updates the fields to `Advanced` of the old state |
| GameScene.GameScene.SetTimerEnabled | src/app/planets/gamescene.tsx:186-188 | updates the fields to `WithTimer` of the old state |
| GameContainer.HasConnection | src/components/game-container.tsx:56-58 | the `some` over connections holds exactly when a connection runs from `from` to `to` |
| GameContainer.Filter | src/components/game-container.tsx:54-59 | the filter never lengthens the list, and a planet is in the result exactly when it is in the input and passes the connection test |
| GameContainer.AvailablePlanets | src/components/game-container.tsx:49-60 | with no planet visited every planet is available; afterwards a planet is available exactly when it is on the map and connected to the last planet visited, in either direction |
| GameContainer.FilterExact | src/components/game-container.tsx:54-59 | the filter keeps planets in order and keeps each one, as often as it occurs, exactly when it passes the condition |
| GameContainer.AvailableExact | src/components/game-container.tsx:49-60 | with no planet visited every planet is available; afterwards the available planets are the order-preserving sublist of those listed among the last planet's connections or with a connection to it, each with its multiplicity |
| GameContainer.Launched | src/components/game-container.tsx:75-79 | a flight start sets the rotation and marks the rocket as moving, nothing else |
| GameContainer.Moved | src/components/game-container.tsx:92-96 | a flight frame sets the position and keeps the rocket moving, nothing else |
| GameContainer.Landed | src/components/game-container.tsx:108-119 | landing on a planet stops the rocket, shows the planet screen, makes it the current and last visited planet and appends its id to the visited list |
| GameContainer.AdventureStarted | src/components/game-container.tsx:121-127 | with no current planet nothing changes; otherwise only the screen becomes loading |
| GameContainer.BackToPlanet | src/components/game-container.tsx:138-143 | going back from loading only sets the planet screen |
| GameContainer.QuestionsGenerated | src/components/game-container.tsx:129-136 | generated questions are stored, the quiz is shown and the planet screen is set |
| GameContainer.InSpace | src/components/game-container.tsx:145-155 | landing back in space stops the rocket, shows space, clears the current planet and the rotation, and keeps the last visited planet and the visited list |
| GameContainer.GameSceneClosed | src/components/game-container.tsx:285-288 | the `onClose` callback hides the quiz and drops the questions |
| GameContainer.RunKeepsHistory | src/components/game-container.tsx:108-155 | along any sequence of events the visited list only grows (the old list stays a prefix), the last visited planet is the last id in it, the current planet is the last visited one, and loading is only over a planet |
| GameContainer.SessionConsistent | src/components/game-container.tsx:27-35 | from the first render the history stays consistent; a last visited planet exists exactly when the visited list is non-empty |
| GameContainer.LateGenerationAfterCancel | src/components/game-container.tsx:129-143 | backing out of loading does not stop a generation in flight: its completion still opens the quiz |
| GameContainer.LateGenerationAfterReturn | src/components/game-container.tsx:129-155 | a flight back to space that lands during generation leaves, once the questions arrive, the planet screen with no planet, so neither the planet view nor the quiz is shown |
| GameContainer.GameContainer.constructor | src/components/game-container.tsx:27-47 | the first render: space screen, no planets, rocket at (50, 85) unrotated and still, nothing visited, no quiz |
| GameContainer.GameContainer.Available | src/components/game-container.tsx:49-60 | the component's available planets are all of them before the first trip, and afterwards exactly the map's planets connected to its last visited planet |
| GameContainer.GameContainer.LaunchRocket | src/components/game-container.tsx:75-79 | updates the state as the `Launch` event does |
| GameContainer.GameContainer.RocketFrame | src/components/game-container.tsx:92-96 | updates the state as the `Frame` event does |
| GameContainer.GameContainer.PlanetReached | src/components/game-container.tsx:109-118 | updates the state as the `PlanetLanding` event does |
| GameContainer.GameContainer.HandleStartAdventure | src/components/game-container.tsx:121-127 | updates the state as the `StartAdventure` event does |
| GameContainer.GameContainer.HandleQuestionsGenerated | src/components/game-container.tsx:129-136 | updates the state as the `Generated` event does |
| GameContainer.GameContainer.HandleLoadingBack | src/components/game-container.tsx:138-143 | updates the state as the `LoadingBack` event does |
| GameContainer.GameContainer.SpaceReached | src/components/game-container.tsx:146-154 | updates the state as the `SpaceLanding` event does |
| GameContainer.GameContainer.CloseGameScene | src/components/game-container.tsx:285-288 | updates the state as the `SceneClosed` event does |

## Left out

- Canvas painting (`fillRect`, `clearRect`, `fillStyle`, the canvas and style sizes) is not modelled; `draw` is modelled only as its centring offset.
- `requestAnimationFrame`, `cancelAnimationFrame`, `performance.now`, `setTimeout` and `setInterval` are not modelled as primitives. Their state is a pending-frame field and pending-callback counters, and time is an input.
- The resize observer, the `prefers-reduced-motion` media query and the focus `contains` test are environment hooks. Their results are parameters.
- `Math.random` and `Math.sqrt` are parameters. A distance is tied to its point only through its square.
- Numbers are exact `real`s and unbounded integers, so floating-point rounding is not modelled. The repeated 0.1 decrements are therefore exact here.
- The rocket's easing curve and `atan2` rotation (src/components/game-container.tsx:62-106) are float animation. Their results arrive as parameters of `Launch` and `Frame`.
- JSX rendering, the planet graph, the page files, the settings modals and context, the save-questions route, the loading screen's mocked generator and the auth pages are UI or I/O. They are not part of this model. The planet graph receives `availablePlanets` but does not use it, so the filter limits nothing on screen.
- The superseded `game-container.jsx` is not part of this model.
- `PixelCard.ParseInt`: models `parseInt(value.toString(), 10)` only for numbers printed without an exponent. Below 1e-6 or from 1e21 up, JavaScript prints an exponent and `parseInt` stops at the first digit group; that case is left out.
- `PixelCard.VariantNamed`: a variant name that is an inherited object key (such as "toString") is not modelled. All other unknown names fall back to the default.
- `PixelCard.PixelCard.InitPixels`: requires a positive gap. With a gap of 0 or less and a box of positive width, the source's loops never end. A gap of 0 or less is outside the model, even for a zero-width box, where the source would return.
- `PixelCard.PixelCard.Rerender`: requires a positive gap for the new settings when they differ from the old ones, for the same reason.
- The `gap` prop is an integer here. The source's `gap?: number` also accepts fractions, but no caller passes a gap and every variant's gap is an integer.
- `PixelCard.PixelCard.RunFrame`: assumes a frame is pending when it fires, as the browser guarantees.
- The resize observer's initial callback after `observe`, which runs `initPixels` a second time right after the effect's own call, is not modelled; both calls rebuild the same grid from fresh draws.
- `GameScene.GameScene.Tick`: the interval's creation and clearing by the effect is folded into the guard. A tick that fires between a state change and the effect's cleanup is not modelled.
- Callbacks reading state captured by an earlier render are not modelled. This covers `nextQuestion`'s `questions.length` and `settings.timerEnabled`, and `handleStartAdventure`'s `currentPlanet`; the model uses current values. React's double invocation of updaters in development mode is not modelled either.
- The quiz's `error` state is never set to a message in the code and is not modelled. Neither are showing or hiding the settings modal, or the non-timer settings fields.
- The planets' artwork fields (colour, image, size, glow, background, alien) are not modelled; they do not affect navigation.
- `GameContainer.GameSceneClosed` and the `SceneClosed` event model the `onClose` callback passed at src/components/game-container.tsx:285-288. `GameScene` takes no props (src/app/planets/gamescene.tsx:50), so that callback is never called in the program and the generated questions are never shown. The model keeps the event so it matches what the container would do.
