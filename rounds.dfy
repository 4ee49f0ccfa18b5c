// A round as any interleaving of the keyboard, ball and AI threads' loop
// iterations, each taken as one atomic step on the shared record; the
// pipe only grows while they run. What holds for every interleaving:
// the round's invariant, at most one tag per step, no ball tag after the
// ball thread has returned, and nothing at all once the round is over.

module Rounds {
  import opened PongDefs
  import opened Rules
  import opened Pong

  /** The thread that runs one iteration of its loop next. */
  datatype Event = KeyPressed(key: int) | BallTimer | AiTimer

  /** The shared record, and whether the ball thread is still running. */
  datatype Round = Round(state: GameState, ballRunning: bool)

  /**
   * One loop iteration of the thread the event names. The keyboard and AI
   * threads test the termination flag before each iteration and have
   * returned once it is set; the ball thread never tests it and returns
   * after a miss.
   */
  function Fire(r: Round, rows: int, e: Event): Round
  {
    match e
    case KeyPressed(key) =>
      if r.state.terminationFlag == 0 then r.(state := KeyStep(r.state, rows, key)) else r
    case AiTimer =>
      if r.state.terminationFlag == 0 then r.(state := AiTick(r.state, rows)) else r
    case BallTimer =>
      if r.ballRunning then
        var t := BallTick(r.state, rows);
        Round(t.state, !t.terminal)
      else
        r
  }

  /** The round after the events, in order. */
  function Run(r: Round, rows: int, events: seq<Event>): Round
    decreases |events|
  {
    if events == [] then r else Fire(Run(r, rows, events[..|events| - 1]), rows, events[|events| - 1])
  }

  /** The invariant of a round: the layout, both paddles in range, and a running ball in the field. */
  predicate RoundInv(r: Round, rows: int, cols: int)
  {
    Layout(r.state, rows, cols) && PaddlesInRange(r.state, rows) && (r.ballRunning ==> BallInField(r.state, rows))
  }

  /** Every step keeps the round's invariant. */
  lemma FireKeepsInv(r: Round, rows: int, cols: int, e: Event)
    requires RoundInv(r, rows, cols)
    ensures RoundInv(Fire(r, rows, e), rows, cols)
  {
    match e
    case KeyPressed(key) => KeyStepKeepsInPlay(r.state, rows, cols, key);
    case AiTimer => AiTickKeepsInPlay(r.state, rows, cols);
    case BallTimer =>
      if r.ballRunning {
        BallTickKeepsInPlay(r.state, rows, cols);
      }
  }

  /** A round started by the reset keeps its invariant whatever the threads do, in whatever order. */
  lemma {:induction false} RunKeepsInv(r: Round, rows: int, cols: int, events: seq<Event>)
    requires RoundInv(r, rows, cols)
    ensures RoundInv(Run(r, rows, events), rows, cols)
  {
    if events != [] {
      RunKeepsInv(r, rows, cols, events[..|events| - 1]);
      FireKeepsInv(Run(r, rows, events[..|events| - 1]), rows, cols, events[|events| - 1]);
    }
  }

  /** The reset at the start of a round establishes the invariant with the ball thread running. */
  lemma ResetStartsInv(s: GameState, rows: int, cols: int, rnd: nat)
    requires rows >= PADDLE_WIDTH && cols >= 4
    ensures RoundInv(Round(RoundReset(s, FieldBot(rows), cols, rnd), true), rows, cols)
  {
    RoundResetStartsRound(s, rows, cols, rnd);
  }

  /**
   * A step appends at most one tag and removes none; a ball step of a
   * running ball appends exactly one, QUIT_TAG when the thread returns and
   * BALL_TAG when it goes on, and the returning step stops the controller.
   */
  lemma FireAppends(r: Round, rows: int, e: Event)
    ensures var t := Fire(r, rows, e);
      && r.state.pipe <= t.state.pipe
      && |t.state.pipe| <= |r.state.pipe| + 1
      && (e.BallTimer? && r.ballRunning ==>
            t.state.pipe == r.state.pipe + [if t.ballRunning then BALL_TAG else QUIT_TAG])
      && (e.BallTimer? && r.ballRunning && !t.ballRunning ==> !ControllerRuns(t.state))
      && (!r.ballRunning ==> !t.ballRunning)
  {
    match e
    case KeyPressed(key) => KeyWritesAtMostOneTag(r.state, rows, key);
    case AiTimer =>
    case BallTimer => BallTickFrame(r.state, rows);
  }

  /** Over any interleaving the pipe only grows, by at most one tag per step. */
  lemma {:induction false} RunAppends(r: Round, rows: int, events: seq<Event>)
    ensures var t := Run(r, rows, events);
      r.state.pipe <= t.state.pipe && |t.state.pipe| <= |r.state.pipe| + |events|
  {
    if events != [] {
      RunAppends(r, rows, events[..|events| - 1]);
      FireAppends(Run(r, rows, events[..|events| - 1]), rows, events[|events| - 1]);
    }
  }

  /**
   * Once the ball thread has returned it stays gone: the ball stays where
   * it was and no later step writes a BALL_TAG.
   */
  lemma {:induction false} NoBallTagAfterMiss(r: Round, rows: int, events: seq<Event>)
    requires !r.ballRunning
    ensures var t := Run(r, rows, events);
      && !t.ballRunning
      && t.state.ballX == r.state.ballX && t.state.ballY == r.state.ballY
      && r.state.pipe <= t.state.pipe
      && forall i :: |r.state.pipe| <= i < |t.state.pipe| ==> t.state.pipe[i] != BALL_TAG
  {
    if events != [] {
      var events' := events[..|events| - 1];
      NoBallTagAfterMiss(r, rows, events');
      var m := Run(r, rows, events');
      match events[|events| - 1]
      case KeyPressed(key) => KeyWritesAtMostOneTag(m.state, rows, key);
      case AiTimer =>
      case BallTimer =>
    }
  }

  /**
   * After the controller has raised the termination flag and the ball
   * thread has returned, no thread changes anything.
   */
  lemma {:induction false} NothingAfterRoundEnds(r: Round, rows: int, events: seq<Event>)
    requires r.state.terminationFlag != 0 && !r.ballRunning
    ensures Run(r, rows, events) == r
  {
    if events != [] {
      NothingAfterRoundEnds(r, rows, events[..|events| - 1]);
    }
  }

  /**
   * After the termination flag is raised, only the ball thread can still
   * write, so every later tag is a ball tag or the QUIT_TAG of its miss.
   */
  lemma {:induction false} OnlyBallAfterTermination(r: Round, rows: int, events: seq<Event>)
    requires r.state.terminationFlag != 0
    ensures var t := Run(r, rows, events);
      && t.state.terminationFlag == r.state.terminationFlag
      && r.state.pipe <= t.state.pipe
      && forall i :: |r.state.pipe| <= i < |t.state.pipe| ==>
           t.state.pipe[i] == BALL_TAG || t.state.pipe[i] == QUIT_TAG
  {
    if events != [] {
      var events' := events[..|events| - 1];
      OnlyBallAfterTermination(r, rows, events');
      var m := Run(r, rows, events');
      if events[|events| - 1].BallTimer? && m.ballRunning {
        BallTickFrame(m.state, rows);
      }
    }
  }

  /**
   * The play key read by the keyboard thread after a miss and before the
   * controller tests its condition sets `playFlag` back to 1: the
   * controller then goes on although the ball thread has returned.
   */
  lemma PlayKeyAfterMissRevivesRound(r: Round, rows: int)
    requires r.ballRunning
    requires r.state.terminationFlag == 0 && r.state.exitFlag == 0
    requires BallTick(r.state, rows).terminal
    ensures !ControllerRuns(Run(r, rows, [BallTimer]).state)
    ensures var t := Run(r, rows, [BallTimer, KeyPressed(PLAY_KEY)]);
      !t.ballRunning && ControllerRuns(t.state)
  {
    BallTickFrame(r.state, rows);
    assert [BallTimer, KeyPressed(PLAY_KEY)][..1] == [BallTimer];
  }

  /**
   * Such a revived round never stops by itself: with the ball thread gone,
   * the controller's condition holds after any steps that do not press
   * the quit key.
   */
  lemma {:induction false} RevivedRoundOnlyEndsOnQuit(r: Round, rows: int, events: seq<Event>)
    requires !r.ballRunning && ControllerRuns(r.state)
    requires forall i :: 0 <= i < |events| ==> events[i] != KeyPressed(QUIT_KEY)
    ensures ControllerRuns(Run(r, rows, events).state)
  {
    if events != [] {
      var events' := events[..|events| - 1];
      RevivedRoundOnlyEndsOnQuit(r, rows, events');
      NoBallTagAfterMiss(r, rows, events');
    }
  }
}
