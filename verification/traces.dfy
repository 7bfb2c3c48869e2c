/** Runs of the engine over a sequence of events, processed one at a time in
    arrival order, and the properties that hold along every run.
 */
module Traces {
  import opened Keys
  import opened Game
  import opened Routing

  /** One event together with the hole the random draw yields if the event needs one. */
  datatype Input = Input(event: Event, pick: Hole)

  /** The state after processing the inputs in order. */
  function Run(g: GameState, inputs: seq<Input>): (r: GameState)
    ensures Inv(g) ==> Inv(r)
    decreases |inputs|
  {
    if |inputs| == 0 then g
    else Run(Step(g, inputs[0].event, inputs[0].pick), inputs[1..])
  }

  /** Every state reachable from the initial one satisfies the invariant: the two
      flags are never both set, the timer runs exactly while the game is active,
      the clock stays within [0, 30.00 s], at most one hole shows a mole, and none
      does while stopped. */
  lemma ReachableStatesSatisfyInv(inputs: seq<Input>)
    ensures Inv(Run(Initial(), inputs))
  {
  }

  /** No input along the run starts a game. */
  predicate NoRestart(g: GameState, inputs: seq<Input>)
    decreases |inputs|
  {
    |inputs| == 0
    || (!IsStart(g, inputs[0].event)
        && NoRestart(Step(g, inputs[0].event, inputs[0].pick), inputs[1..]))
  }

  /** Any event other than a start leaves the clock no higher, moves the score by at
      most one, and cannot bring a mole back to an empty board with nothing queued. */
  lemma NonStartStep(g: GameState, e: Event, pick: Hole)
    requires !IsStart(g, e)
    ensures Step(g, e, pick).remaining <= g.remaining
    ensures g.score - 1 <= Step(g, e, pick).score <= g.score + 1
    ensures g.active == {} && g.pending == 0 ==>
              Step(g, e, pick).active == {} && Step(g, e, pick).pending == 0
  {
  }

  /** Between starts the countdown never goes up. */
  lemma {:induction false} CountdownNeverRises(g: GameState, inputs: seq<Input>)
    requires NoRestart(g, inputs)
    ensures Run(g, inputs).remaining <= g.remaining
    decreases |inputs|
  {
    if |inputs| > 0 {
      var e := inputs[0];
      NonStartStep(g, e.event, e.pick);
      CountdownNeverRises(Step(g, e.event, e.pick), inputs[1..]);
    }
  }

  /** Between starts each event moves the score by at most one point. */
  lemma {:induction false} ScoreMovesByAtMostOnePerEvent(g: GameState, inputs: seq<Input>)
    requires NoRestart(g, inputs)
    ensures g.score - |inputs| <= Run(g, inputs).score <= g.score + |inputs|
    decreases |inputs|
  {
    if |inputs| > 0 {
      var e := inputs[0];
      NonStartStep(g, e.event, e.pick);
      ScoreMovesByAtMostOnePerEvent(Step(g, e.event, e.pick), inputs[1..]);
    }
  }

  /** Once the board is empty and no re-activation is queued, only a fresh start
      shows a mole again: hits need a mole, and misses, ticks, pause, resume and end
      never add one. */
  lemma {:induction false} EmptyBoardStaysEmpty(g: GameState, inputs: seq<Input>)
    requires g.active == {} && g.pending == 0
    requires NoRestart(g, inputs)
    ensures Run(g, inputs).active == {} && Run(g, inputs).pending == 0
    decreases |inputs|
  {
    if |inputs| > 0 {
      var e := inputs[0];
      NonStartStep(g, e.event, e.pick);
      EmptyBoardStaysEmpty(Step(g, e.event, e.pick), inputs[1..]);
    }
  }

  /** Hitting the mole, pausing before the 100 ms re-activation fires, letting it fire
      and resuming leaves a running game with an empty board and nothing queued: the
      callback is not cancelled by the pause and shows no mole while paused. */
  lemma PauseDuringHitDelayLosesMole(g: GameState, h: Hole, pick: Hole)
    requires Inv(g) && Running(g) && h in g.active && g.pending == 0
    ensures var r := Run(g, [Input(KeyDown([KeyLetters[h]]), pick), Input(KeyDown(" "), pick),
                             Input(ReactivationDue, pick), Input(KeyDown(" "), pick)]);
            Running(r) && r.active == {} && r.pending == 0 && r.score == g.score + 1
  {
    var key := [KeyLetters[h]];
    KeyMapBijective(key, h);
    assert ToUpper(key) == key;
    assert ToUpper(" ") == " ";
    var inputs := [Input(KeyDown(key), pick), Input(KeyDown(" "), pick),
                   Input(ReactivationDue, pick), Input(KeyDown(" "), pick)];
    var g1 := Step(g, KeyDown(key), pick);
    assert g1 == g.(score := g.score + 1, pending := 1);
    var g2 := Step(g1, KeyDown(" "), pick);
    assert Paused(g2) && g2.active == g.active && g2.pending == 1;
    var g3 := Step(g2, ReactivationDue, pick);
    assert Paused(g3) && g3.active == {} && g3.pending == 0;
    var g4 := Step(g3, KeyDown(" "), pick);
    assert Running(g4) && g4.active == {} && g4.pending == 0 && g4.score == g.score + 1;
    assert inputs[1..][1..][1..][1..] == [];
    assert Run(g, inputs) == Run(g1, inputs[1..]) == Run(g2, inputs[2..])
        == Run(g3, inputs[3..]) == Run(g4, []);
  }

  /** n timer ticks. */
  function Ticks(n: nat): (s: seq<Input>)
    ensures |s| == n && forall i :: 0 <= i < n ==> s[i].event == TimerTick
  {
    seq(n, _ => Input(TimerTick, 0))
  }

  /** While time is left, each tick takes one hundredth off and touches nothing else. */
  lemma {:induction false} TicksCountDown(g: GameState, n: nat)
    requires Inv(g) && Running(g) && n <= g.remaining
    ensures Run(g, Ticks(n)) == g.(remaining := g.remaining - n)
    decreases n
  {
    if n > 0 {
      var g' := Step(g, TimerTick, 0);
      assert g' == g.(remaining := g.remaining - 1);
      assert Ticks(n)[1..] == Ticks(n - 1);
      TicksCountDown(g', n - 1);
    }
  }

  /** Left alone, a running game ends by itself: after its remaining hundredths have
      ticked away, one more tick stops it, clears the board and keeps the score. */
  lemma TimeRunsOut(g: GameState)
    requires Inv(g) && Running(g)
    ensures var r := Run(g, Ticks(g.remaining + 1));
            Stopped(r) && r.active == {} && r.remaining == 0 && r.score == g.score && !r.timerRunning
  {
    var n := g.remaining;
    var zero := g.(remaining := 0);
    TicksCountDown(g, n);
    assert Ticks(n + 1) == Ticks(n) + [Input(TimerTick, 0)];
    RunAppend(g, Ticks(n), [Input(TimerTick, 0)]);
    assert Run(zero, [Input(TimerTick, 0)]) == Step(zero, TimerTick, 0);
  }

  /** Running two input sequences back to back is running their concatenation. */
  lemma {:induction false} RunAppend(g: GameState, a: seq<Input>, b: seq<Input>)
    ensures Run(g, a + b) == Run(Run(g, a), b)
    decreases |a|
  {
    if |a| > 0 {
      assert (a + b)[0] == a[0];
      assert (a + b)[1..] == a[1..] + b;
      RunAppend(Step(g, a[0].event, a[0].pick), a[1..], b);
    } else {
      assert a + b == b;
    }
  }
}
