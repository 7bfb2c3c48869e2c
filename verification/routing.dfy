/** Routing of the player's inputs and of the timers' callbacks onto the engine:
    the start/stop, resume and end buttons, key presses, clicks on a hole, the
    countdown interval and the post-hit re-activation.
 */
module Routing {
  import opened Keys
  import opened Game

  datatype Event =
    | StartStopClicked
    | ResumeClicked
    | EndClicked
    | KeyDown(key: string)
    | HoleClicked(hole: Hole, onImage: bool)   // onImage: the click landed on the mole picture
    | TimerTick
    | ReactivationDue

  /** The start/stop button: start when stopped, pause when running, else nothing.
      (Its label always agrees with the flags, so only the flags are consulted.) */
  function StartStop(g: GameState, pick: Hole): (r: GameState)
    ensures Stopped(g) ==> Running(r) && r.score == 0 && r.remaining == Duration && r.active == {pick}
    ensures Running(g) ==> Paused(r) && r.score == g.score && r.remaining == g.remaining && r.active == g.active
    ensures !Stopped(g) && !Running(g) ==> r == g
    ensures r.pending == g.pending
    ensures Inv(g) ==> Inv(r)
  {
    if !g.gameActive && !g.paused then StartGame(g, pick)
    else if g.gameActive && !g.paused then PauseGame(g)
    else g
  }

  /** Phase-independent part of a key press: a hole key while running is a hit
      when that hole shows the mole and a miss otherwise; any other key, or any key
      while not running, changes nothing. */
  function HoleKey(g: GameState, k: string): (r: GameState)
    ensures !Running(g) || KeyMap(k).None? ==> r == g
    ensures Running(g) && KeyMap(k).Some? && KeyMap(k).value in g.active ==>
              r.score == g.score + 1 && r.pending == g.pending + 1
    ensures Running(g) && KeyMap(k).Some? && KeyMap(k).value !in g.active ==>
              r.score == g.score - 1 && r.pending == g.pending
    ensures r.(score := g.score, pending := g.pending) == g
  {
    if !g.gameActive || g.paused then g
    else match KeyMap(k)
      case None => g
      case Some(h) => if h in g.active then HitMole(g, h) else MissHole(g)
  }

  /** A key press, routed on its upper-cased name: space toggles start, pause and
      resume by phase; Escape ends a paused game; the six hole keys hit or miss. */
  function HandleKeyboard(g: GameState, key: string, pick: Hole): (r: GameState)
    ensures ToUpper(key) == " " ==>
              r.pending == g.pending
              && (Stopped(g) ==> Running(r) && r.score == 0 && r.remaining == Duration && r.active == {pick})
              && (Running(g) ==> Paused(r) && r.score == g.score && r.remaining == g.remaining && r.active == g.active)
              && (Paused(g) ==> Running(r) && r.score == g.score && r.remaining == g.remaining && r.active == g.active)
    ensures ToUpper(key) == "ESCAPE" ==>
              r.pending == g.pending
              && (Paused(g) ==> Stopped(r) && r.active == {} && r.score == g.score && r.remaining == g.remaining)
              && (!g.paused ==> r == g)
    ensures ToUpper(key) != " " && HoleForKey(key).None? && !(ToUpper(key) == "ESCAPE" && g.paused) ==> r == g
    ensures !Running(g) && HoleForKey(key).Some? ==> r == g
    ensures Running(g) && HoleForKey(key).Some? ==>
              r.active == g.active && r.remaining == g.remaining && Running(r)
              && (HoleForKey(key).value in g.active ==> r.score == g.score + 1 && r.pending == g.pending + 1)
              && (HoleForKey(key).value !in g.active ==> r.score == g.score - 1 && r.pending == g.pending)
    ensures Inv(g) ==> Inv(r)
  {
    var k := ToUpper(key);
    if k == " " then
      if !g.gameActive && !g.paused then StartGame(g, pick)
      else if g.gameActive && !g.paused then PauseGame(g)
      else if !g.gameActive && g.paused then ResumeGame(g)
      else g
    else
      var g' := if k == "ESCAPE" && g.paused then EndGame(g) else g;
      HoleKey(g', k)
  }

  /** A click on hole h while running: a hit only when h shows the mole and the click
      landed on the picture; any other click there is a miss. Ignored otherwise. */
  function HandleMouseClick(g: GameState, h: Hole, onImage: bool): (r: GameState)
    ensures !Running(g) ==> r == g
    ensures Running(g) ==> (r.score == g.score + 1 <==> h in g.active && onImage)
    ensures Running(g) ==> (r.score == g.score - 1 <==> !(h in g.active && onImage))
    ensures Running(g) ==> r.pending == g.pending + (if h in g.active && onImage then 1 else 0)
    ensures r.(score := g.score, pending := g.pending) == g
    ensures Inv(g) ==> Inv(r)
  {
    if !g.gameActive || g.paused then g
    else if h in g.active && onImage then HitMole(g, h)
    else MissHole(g)
  }

  /** The events that start a game: the start/stop button or the space bar while stopped. */
  predicate IsStart(g: GameState, e: Event)
  {
    Stopped(g) && (e == StartStopClicked || (e.KeyDown? && ToUpper(e.key) == " "))
  }

  /** Dispatches one event. `pick` is the hole the random draw yields, used only by
      the events that show a new mole. */
  function Step(g: GameState, e: Event, pick: Hole): (r: GameState)
    ensures Inv(g) ==> Inv(r)
    ensures IsStart(g, e) ==>
              Running(r) && r.score == 0 && r.remaining == Duration && r.active == {pick}
    ensures !IsStart(g, e) ==> r.remaining <= g.remaining
    ensures !IsStart(g, e) ==> g.score - 1 <= r.score <= g.score + 1
    ensures e != ReactivationDue ==> r.pending >= g.pending
  {
    match e
    case StartStopClicked => StartStop(g, pick)
    case ResumeClicked => ResumeGame(g)
    case EndClicked => EndGame(g)
    case KeyDown(key) => HandleKeyboard(g, key, pick)
    case HoleClicked(h, onImage) => HandleMouseClick(g, h, onImage)
    case TimerTick => Tick(g)
    case ReactivationDue => ReactivationFired(g, pick)
  }

  /** Only the player's key presses and clicks reach the hit and miss rules, and they
      reach them only while running: no event changes the score of a game that is not
      running, except a start, which resets it. */
  lemma NoScoringUnlessRunning(g: GameState, e: Event, pick: Hole)
    requires Inv(g) && !Running(g)
    ensures !IsStart(g, e) ==> Step(g, e, pick).score == g.score
    ensures IsStart(g, e) ==> Running(Step(g, e, pick)) && Step(g, e, pick).score == 0
  {
  }

  /** Key routing depends only on the upper-cased key name. */
  lemma KeyboardCaseInsensitive(g: GameState, key: string, pick: Hole)
    ensures HandleKeyboard(g, ToUpper(key), pick) == HandleKeyboard(g, key, pick)
  {
    ToUpperIdempotent(key);
  }
}
