# Whack-a-mole game engine in Dafny

A model of the game engine of the `WhackAMoleGame` class in `script.js`, with the
DOM removed. What is left is a small sequential state machine over:

- two phase flags, `gameActive` and `paused`;
- the integer `score`;
- the countdown, in hundredths of a second (3000 at the start of a game);
- whether the 10 ms countdown interval is installed (`timerRunning`);
- the set of holes (0..5, standing for `hole1`..`hole6`) that show the mole;
- how many post-hit re-activation callbacks are queued and have not yet fired (`pending`).

Each thing that can happen to the game is a pure function from state to state:

- the start/stop, resume and end buttons;
- key presses and clicks on a hole;
- one firing of the countdown interval;
- one firing of a queued 100 ms re-activation.

`Routing.Step` dispatches one event. `Traces.Run` processes a sequence of events
in arrival order, one at a time, as the browser's single event loop does.

Modules:

- `Keys` (keys.dfy) holds the hole type, the upper-casing applied to key names, and the `keyMap` table.
- `Game` (game.dfy) holds the state record and the invariant. It also holds the control operations (start, pause, resume, end, reset), the timer callback, the hole operations and hit/miss.
- `Routing` (routing.dfy) holds the button, keyboard and mouse handlers and the event dispatcher.
- `Traces` (traces.dfy) holds runs over event sequences and the properties that hold along them.

The invariant `Game.Inv` holds in the initial state, and every event preserves it. It says:

- the two flags are never both set;
- the interval is installed exactly while `gameActive`;
- the countdown stays within 0..3000;
- at most one hole shows a mole;
- no hole shows one while both flags are clear.

In these places the model follows the code as written:

- The resume and end button handlers check nothing (script.js:179-180). Once play has begun, the page shows those two buttons only while paused (script.js:52-54, 128-132). If the resume handler were invoked on a stopped game, it would run that game again with an empty board.
- Pausing keeps the mole on the board (script.js:47-55).
- The post-hit re-activation is never cancelled. When it fires it clears the board and only then checks `gameActive` (script.js:140-143, 100).
- Because of this, a hit can be followed by a pause, with the callback firing before the resume. If no other callback is queued, the resumed game shows no mole until the next start. `Traces.PauseDuringHitDelayLosesMole` shows this sequence. `Traces.EmptyBoardStaysEmpty` shows that only a fresh start brings the mole back.
- The hit hole keeps its mole during the 100 ms delay, so a second hit in that window scores again and queues a second callback. `pending` is therefore a count, not a flag.

## Model

| member | source | states |
|---|---|---|
| Keys.ToUpper | script.js:184 | the upper-cased key name has the same length, and each character is the upper case of the original one |
| Keys.ToUpperIdempotent | script.js:184 | upper-casing an already upper-cased key name changes nothing |
| Keys.KeyMapBijective | script.js:23-30 | an upper-cased key selects hole i exactly when it is the single letter QWEASD[i]; no other key selects a hole |
| Keys.KeyLettersDistinct | script.js:23-30 | the six key-map letters are pairwise distinct, so the six keys name six distinct holes |
| Keys.UpperCharToLetter | script.js:184 | a character upper-cases to a key-map letter exactly when it is that letter or its lower case (and, for S, also the long s) |
| Keys.HoleForKeyCases | script.js:184-196 | a key press selects hole h exactly when it is one character long and that character is h's letter in either case |
| Keys.HoleForKeyCaseInsensitive | script.js:184-196 | upper-casing the key name before the lookup does not change the hole it selects |
| Keys.UpperChar | script.js:184 | no contract of its own; `Keys.ToUpper` applies it per character and `Keys.UpperCharToLetter` states which characters it maps to a key-map letter |
| Keys.KeyMap | script.js:23-30 | no contract of its own; `Keys.KeyMapBijective` states that it maps exactly the six letters QWEASD to holes 0..5 |
| Keys.HoleForKey | script.js:184-196 | no contract of its own; `Keys.HoleForKeyCases` and `Keys.HoleForKeyCaseInsensitive` state which key presses select which hole |
| Game.ResetGame | script.js:78-83 | no contract of its own; `Game.StartGame` states its effect: score 0 and a full clock |
| Game.StartTimer | script.js:85-87 | no contract of its own; `Game.StartGame` and `Game.ResumeGame` state the installed interval |
| Game.StopTimer | script.js:50 | no contract of its own; `Game.PauseGame`, `Game.EndGame` and `Game.Tick` state the removed interval |
| Game.DeactivateAllHoles | script.js:118-126 | no contract of its own; `Game.EndGame` and `Game.ReactivationFired` state the cleared board |
| Game.Initial | script.js:2-7 | the constructor's state is stopped, has score 0, a full 30.00 s clock and nothing queued, and satisfies the invariant |
| Game.ActivateHole | script.js:106-116 | afterwards exactly one hole, the given one, shows the mole; nothing else changes |
| Game.ActivateNextMole | script.js:99-104 | while the game is not active nothing changes; otherwise exactly one hole shows the mole, the picked one |
| Game.StartGame | script.js:36-45 | from any state, start (reset, flags, timer, next mole) gives running flags, an installed timer, score 0, a full clock, the mole in the picked hole alone, and an invariant-satisfying state; queued re-activations stay queued |
| Game.PauseGame | script.js:47-55 | pause gives the paused flags and removes the timer; score, clock, holes and the queue are kept; the invariant is preserved |
| Game.ResumeGame | script.js:57-63 | resume gives the running flags and reinstalls the timer from any state; score, clock, holes and the queue are kept; the invariant is preserved |
| Game.EndGame | script.js:65-76 | end clears both flags, removes the timer and empties all six holes; the score is kept as the final score; the invariant is preserved |
| Game.Tick | script.js:85-97 | without an installed interval a tick does nothing; with time left it lowers the clock by exactly one hundredth and changes nothing else; at zero it removes the interval and ends the game with the score and the queued re-activations kept; the clock never rises and never goes negative |
| Game.HitMole | script.js:134-144 | hitting a hole without the mole changes nothing; hitting the mole's hole adds exactly 1 to the score and queues one re-activation, leaving the board as it is |
| Game.MissHole | script.js:146-150 | a miss subtracts exactly 1 from the score and changes nothing else |
| Game.ReactivationFired | script.js:140-143 | with nothing queued nothing happens; otherwise one callback is consumed, the board is cleared, and the mole reappears in the picked hole alone only if the game is active |
| Game.PauseResumeRoundTrip | script.js:47-63 | pausing and then resuming a running game returns exactly the state before the pause |
| Game.PauseResumeIdempotent | script.js:47-63 | pausing twice equals pausing once; resuming a running game changes nothing |
| Game.DoubleHitScoresTwice | script.js:134-143 | two hits on the mole's hole inside the delay score 2 and queue 2 re-activations |
| Routing.StartStop | script.js:170-177 | the button starts a stopped game, pauses a running one, and does nothing while paused; queued re-activations are always kept |
| Routing.HoleKey | script.js:193-202 | while running, a hole key is a hit when that hole shows the mole and a miss otherwise; any other key, or any key while not running, changes nothing |
| Routing.HandleKeyboard | script.js:183-203 | space starts from stopped, pauses from running and resumes from paused; Escape ends only a paused game; space and Escape keep the queued re-activations; a hole key while running scores +1 and queues one re-activation on the mole's hole, and scores -1 elsewhere, with the board and clock unchanged; every other key, and hole keys while not running, change nothing; the invariant is preserved |
| Routing.HandleMouseClick | script.js:205-213 | a click while not running changes nothing; while running the score rises by 1 exactly when the hole shows the mole and the click was on the picture, and falls by 1 exactly otherwise; a re-activation is queued exactly on a hit, and a miss leaves the queue as it is; nothing but score and queue changes |
| Routing.Step | script.js:164-181 | every event preserves the invariant; a start (start/stop button or space while stopped) gives a running game with score 0, a full clock and the mole in the picked hole; any other event never raises the clock and moves the score by at most one point; only a firing re-activation removes a queued one |
| Routing.NoScoringUnlessRunning | script.js:193-206 | from a state that is not running, an event that is not a start leaves the score unchanged, and a start (start/stop button or space while stopped) gives a running game with score 0 |
| Routing.KeyboardCaseInsensitive | script.js:184 | handling a key gives the same state as handling its upper-cased name |
| Traces.Run | script.js:164-168 | processing events one at a time in order preserves the invariant |
| Traces.ReachableStatesSatisfyInv | script.js:1-217 | every state reachable from the constructor's state satisfies the invariant |
| Traces.NonStartStep | script.js:183-213 | an event that is not a start leaves the clock no higher, moves the score by at most one, and never adds a mole or a callback to an empty board with nothing queued |
| Traces.CountdownNeverRises | script.js:87-95 | along any run without a start the countdown never goes up |
| Traces.ScoreMovesByAtMostOnePerEvent | script.js:137-147 | along any run without a start the score changes by at most one point per event |
| Traces.EmptyBoardStaysEmpty | script.js:99-143 | once the board is empty and no re-activation is queued, no run without a start shows a mole again |
| Traces.PauseDuringHitDelayLosesMole | script.js:134-143 | the sequence hit, pause, re-activation fires, resume leaves a running game with an empty board, nothing queued and the point scored |
| Traces.TicksCountDown | script.js:87-91 | while time is left, n ticks of a running game lower the clock by exactly n and change nothing else |
| Traces.TimeRunsOut | script.js:87-95 | a running game left alone ends after its remaining hundredths plus one tick, with an empty board, a zero clock and the score kept |

## Left out

- DOM work is not modelled. This covers element lookup and creation, text content, the `display` style, the CSS class as presentation, and the two-decimal display of the clock. Holes are assumed to be the six `.hole` elements with ids `hole1`..`hole6` in document order.
- The button labels are not modelled. The start/stop handler also compares its label text (script.js:170-177), but the label always agrees with the flags, so only the flags are modelled.
- Button visibility is not modelled: Step accepts ResumeClicked and EndClicked in every phase, while the page shows those buttons only while paused (script.js:52-54, 128-132).
- `showScoreIndicator` and its 1 s removal (script.js:152-162) are not modelled. They are presentation only and do not affect game state.
- Real-time scheduling is not modelled. `setInterval` and `setTimeout` become the explicit `TimerTick` and `ReactivationDue` events. Which of them arrives when is left to whoever builds the event sequence.
- The pending callbacks are counted but not ordered. They all do the same thing, so their order does not matter.
- `Math.random` is the `pick` parameter. Uniformity of the draw is not modelled.
- The clock counts in integer hundredths. Floating-point accumulation in `remainingTime -= 0.01` is not modelled, so a game lasts exactly 3000 ticks plus the one that ends it.
- The score is an unbounded integer. JavaScript numbers lose precision above 2^53, which 30 s of play cannot reach.
- Keys.ToUpper: upper-cases a-z, dotless i and long s, and leaves every other character unchanged. JavaScript's `toUpperCase` also changes other non-ASCII letters and expands some characters, such as ß to SS. None of those results is a space, "ESCAPE" or a key-map letter, so routing is unaffected.
- `preventDefault` on the space bar is not modelled. It is browser behaviour.
