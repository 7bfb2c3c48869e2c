/** The game engine's state and the transitions its control, timer and hole
    operations make on it, with the DOM work removed.

    Time is counted in hundredths of a second, so the 0.01 decrement of each
    10 ms timer tick is exactly 1 and a game lasts 3000 ticks. The random hole
    choice is a parameter `pick`. The running interval timer is the flag
    `timerRunning`; the post-hit re-activation callbacks still queued are the
    count `pending`.
 */
module Game {
  import opened Keys

  /** Length of a game in hundredths of a second (30.00 s). */
  const Duration := 3000

  datatype GameState = GameState(
    gameActive: bool,
    paused: bool,
    timerRunning: bool,   // the 10 ms countdown interval is installed
    score: int,
    remaining: int,       // hundredths of a second left
    active: set<Hole>,    // holes showing the mole
    pending: nat          // post-hit re-activation callbacks not yet fired
  )

  predicate Running(g: GameState) { g.gameActive && !g.paused }
  predicate Paused(g: GameState) { !g.gameActive && g.paused }
  /** Before the first start and after an end: both flags clear. */
  predicate Stopped(g: GameState) { !g.gameActive && !g.paused }

  /** What every reachable state satisfies. */
  predicate Inv(g: GameState)
  {
    && !(g.gameActive && g.paused)
    && g.timerRunning == g.gameActive
    && 0 <= g.remaining <= Duration
    && |g.active| <= 1
    && (Stopped(g) ==> g.active == {})
  }

  /** The state the constructor builds: idle, score 0, full time, no mole, no timers. */
  function Initial(): (g: GameState)
    ensures Inv(g) && Stopped(g)
    ensures g.score == 0 && g.remaining == Duration && g.pending == 0
  {
    GameState(false, false, false, 0, Duration, {}, 0)
  }

  /** Score back to 0 and the clock back to the full duration; nothing else changes. */
  function ResetGame(g: GameState): GameState
  {
    g.(score := 0, remaining := Duration)
  }

  /** Installs the countdown interval, replacing any installed one. */
  function StartTimer(g: GameState): GameState
  {
    g.(timerRunning := true)
  }

  /** Removes the countdown interval; a no-op when none is installed. */
  function StopTimer(g: GameState): GameState
  {
    g.(timerRunning := false)
  }

  /** Every hole loses its mole; nothing else changes. */
  function DeactivateAllHoles(g: GameState): GameState
  {
    g.(active := {})
  }

  /** Clears the board, then shows the mole in hole h alone. */
  function ActivateHole(g: GameState, h: Hole): (r: GameState)
    ensures forall x: Hole :: x in r.active <==> x == h
    ensures |r.active| == 1
    ensures r.(active := g.active) == g
  {
    var cleared := DeactivateAllHoles(g);
    cleared.(active := cleared.active + {h})
  }

  /** Moves the mole to the randomly picked hole, but only while the game is active. */
  function ActivateNextMole(g: GameState, pick: Hole): (r: GameState)
    ensures !g.gameActive ==> r == g
    ensures g.gameActive ==> |r.active| == 1 && pick in r.active
    ensures r.(active := g.active) == g
  {
    if !g.gameActive then g
    else ActivateHole(DeactivateAllHoles(g), pick)
  }

  /** Start: reset score and clock, set the flags to running, install the timer and
      show one mole. A re-activation still pending from an earlier game stays queued. */
  function StartGame(g: GameState, pick: Hole): (r: GameState)
    ensures Inv(r) && Running(r) && r.timerRunning
    ensures r.score == 0 && r.remaining == Duration
    ensures forall h: Hole :: h in r.active <==> h == pick
    ensures r.pending == g.pending
  {
    var reset := ResetGame(g).(gameActive := true, paused := false);
    ActivateNextMole(StartTimer(reset), pick)
  }

  /** Pause: flags to paused and the timer removed. Score, clock and holes are kept. */
  function PauseGame(g: GameState): (r: GameState)
    ensures Paused(r) && !r.timerRunning
    ensures r.score == g.score && r.remaining == g.remaining
    ensures r.active == g.active && r.pending == g.pending
    ensures Inv(g) ==> Inv(r)
  {
    StopTimer(g.(gameActive := false, paused := true))
  }

  /** Resume: flags to running and the timer reinstalled. The handler itself checks
      nothing; once play has begun, the page offers it only while paused. */
  function ResumeGame(g: GameState): (r: GameState)
    ensures Running(r) && r.timerRunning
    ensures r.score == g.score && r.remaining == g.remaining
    ensures r.active == g.active && r.pending == g.pending
    ensures Inv(g) ==> Inv(r)
  {
    StartTimer(g.(gameActive := true, paused := false))
  }

  /** End: both flags cleared, the timer removed and the board cleared. The score is
      kept as the final score; nothing checks the prior phase. */
  function EndGame(g: GameState): (r: GameState)
    ensures Stopped(r) && !r.timerRunning
    ensures forall h: Hole :: h !in r.active
    ensures r.score == g.score && r.remaining == g.remaining && r.pending == g.pending
    ensures Inv(g) ==> Inv(r)
  {
    DeactivateAllHoles(StopTimer(g.(gameActive := false, paused := false)))
  }

  function Max(a: int, b: int): int
  {
    if a < b then b else a
  }

  /** One firing of the 10 ms interval. With time left it takes off one hundredth,
      clamped at zero; at zero it removes itself and ends the game. Without an
      installed interval there is nothing to fire. */
  function Tick(g: GameState): (r: GameState)
    ensures !g.timerRunning ==> r == g
    ensures g.timerRunning && g.remaining > 0 ==>
              r.remaining == g.remaining - 1 && r.(remaining := g.remaining) == g
    ensures g.timerRunning && g.remaining <= 0 ==>
              Stopped(r) && !r.timerRunning && r.active == {} && r.score == g.score
              && r.remaining == g.remaining && r.pending == g.pending
    ensures r.remaining <= g.remaining
    ensures g.remaining >= 0 ==> r.remaining >= 0
    ensures Inv(g) ==> Inv(r)
  {
    if !g.timerRunning then g
    else if g.remaining > 0 then g.(remaining := Max(g.remaining - 1, 0))
    else EndGame(StopTimer(g))
  }

  /** A hit on hole h: only a hole showing the mole scores. The mole stays where it
      is and a re-activation is queued for 100 ms later. */
  function HitMole(g: GameState, h: Hole): (r: GameState)
    ensures h !in g.active ==> r == g
    ensures h in g.active ==> r.score == g.score + 1 && r.pending == g.pending + 1
    ensures r.(score := g.score, pending := g.pending) == g
    ensures Inv(g) ==> Inv(r)
  {
    if h !in g.active then g
    else g.(score := g.score + 1, pending := g.pending + 1)
  }

  /** A miss costs one point and leaves the board as it is. */
  function MissHole(g: GameState): (r: GameState)
    ensures r.score == g.score - 1
    ensures r.(score := g.score) == g
    ensures Inv(g) ==> Inv(r)
  {
    g.(score := g.score - 1)
  }

  /** The oldest queued post-hit callback fires: it clears the board, then asks for
      the next mole, which appears only while the game is active. It is never
      cancelled, so after a pause or an end it just leaves the board empty. */
  function ReactivationFired(g: GameState, pick: Hole): (r: GameState)
    ensures g.pending == 0 ==> r == g
    ensures g.pending > 0 ==> r.pending == g.pending - 1
    ensures g.pending > 0 && g.gameActive ==> forall h: Hole :: h in r.active <==> h == pick
    ensures g.pending > 0 && !g.gameActive ==> r.active == {}
    ensures r.(active := g.active, pending := g.pending) == g
    ensures Inv(g) ==> Inv(r)
  {
    if g.pending == 0 then g
    else ActivateNextMole(DeactivateAllHoles(g), pick).(pending := g.pending - 1)
  }

  /** Pausing and then resuming a running game gives back exactly the same state. */
  lemma PauseResumeRoundTrip(g: GameState)
    requires Inv(g) && Running(g)
    ensures ResumeGame(PauseGame(g)) == g
  {
  }

  /** Pausing twice is pausing once; resuming a running game changes nothing. */
  lemma PauseResumeIdempotent(g: GameState)
    requires Inv(g)
    ensures PauseGame(PauseGame(g)) == PauseGame(g)
    ensures Running(g) ==> ResumeGame(g) == g
  {
  }

  /** Inside the 100 ms window the hit hole still shows the mole, so hitting it
      again scores again and queues a second re-activation. */
  lemma DoubleHitScoresTwice(g: GameState, h: Hole)
    requires h in g.active
    ensures HitMole(HitMole(g, h), h).score == g.score + 2
    ensures HitMole(HitMole(g, h), h).pending == g.pending + 2
  {
  }
}
