// The main thread of pong.c: the wait for the start key, the reset at the
// start of each round, the controller loop that turns pipe tags into
// screen updates, and the choice of the end-of-round banner.

module Pong {
  import opened PongDefs
  import opened Screen
  import opened Rules
  import opened Support

  datatype Option<T> = None | Some(value: T)

  // ---------------------------------------------------------------------
  // Waiting for the start key

  /** The value a key code keeps once stored in a `char`, as far as comparing it with ' ' or 'q' goes: its low byte. */
  function LowByte(key: int): int
  {
    key % 256
  }

  /** A key the start-key wait skips over. */
  predicate Ignored(key: int)
  {
    LowByte(key) != PLAY_KEY && LowByte(key) != QUIT_KEY
  }

  /** How the wait ended: at the index of the start key, at the index of the quit key, or not yet. */
  datatype StartWait = Start(at: nat) | Quit(at: nat) | Waiting

  /**
   * The loop before each round, over the codes successive `getch` calls
   * return: 'q' ends the program, ' ' starts the round, and every other
   * key, including "no key pending", is skipped.
   */
  method WaitForStart(keys: seq<int>) returns (w: StartWait)
    ensures w.Start? ==> w.at < |keys| && LowByte(keys[w.at]) == PLAY_KEY
    ensures w.Quit? ==> w.at < |keys| && LowByte(keys[w.at]) == QUIT_KEY
    ensures !w.Waiting? ==> forall j :: 0 <= j < w.at ==> Ignored(keys[j])
    ensures w.Waiting? ==> forall j :: 0 <= j < |keys| ==> Ignored(keys[j])
  {
    var i := 0;
    while i < |keys|
      invariant i <= |keys|
      invariant forall j :: 0 <= j < i ==> Ignored(keys[j])
    {
      var c := LowByte(keys[i]);
      if c == QUIT_KEY {
        return Quit(i);
      }
      if c == PLAY_KEY {
        return Start(i);
      }
      i := i + 1;
    }
    return Waiting;
  }

  /**
   * For "no key" and the one-byte key codes, only ' ' starts and only 'q'
   * quits; the arrow keys are skipped.
   */
  lemma ByteKeysDecide(key: int)
    requires NO_KEY <= key < 256
    ensures LowByte(key) == PLAY_KEY <==> key == PLAY_KEY
    ensures LowByte(key) == QUIT_KEY <==> key == QUIT_KEY
    ensures Ignored(KEY_UP) && Ignored(KEY_DOWN) && Ignored(NO_KEY)
  {
  }

  /** A wider key code whose low byte is a space also starts a round. */
  lemma WideKeyStarts()
    ensures LowByte(PLAY_KEY + 256) == PLAY_KEY
    ensures !Ignored(PLAY_KEY + 256)
  {
  }

  // ---------------------------------------------------------------------
  // Starting a round

  /** The record after main's reset; `rnd` is the value `rand()` returned. */
  function RoundReset(s: GameState, bottomRow: int, cols: int, rnd: nat): GameState
  {
    var pos := CDiv(PADDLE_WIDTH / 2 + bottomRow - PADDLE_WIDTH / 2, 2);
    var col := cols - 1;
    s.(playFlag := 1, terminationFlag := 0,
       paddlePos := pos, paddleCol := col,
       aiPaddlePos := pos, aiPaddleCol := 1,
       ballXOld := col - 1, ballX := col - 1,
       ballYOld := pos, ballY := pos,
       ballDirX := -1, ballDirY := if rnd % 2 == 0 then 1 else -1)
  }

  /** The screen after main's reset: cleared, then both paddles and the ball drawn. */
  function RoundScreen(s: GameState): map<Pos, Cell>
  {
    BallDrawn(PaddleDrawn(PaddleDrawn(map[], s, KBD_TAG), s, AI_TAG), s)
  }

  /**
   * A reset starts the round: both paddles centred at half the bottom row,
   * the player's at the last column and the AI's at column 1, the ball
   * just in front of the player's paddle heading for the AI with a
   * vertical direction of +1 or -1 picked by the random value, and the old
   * ball position equal to the current one. The exit flag, the winner, the
   * paddles' old rows and the pipe are left as they were. On a terminal at
   * least a paddle high and four columns wide this is a state of play.
   */
  lemma RoundResetStartsRound(s: GameState, rows: int, cols: int, rnd: nat)
    requires rows >= PADDLE_WIDTH && cols >= 4
    ensures var t := RoundReset(s, FieldBot(rows), cols, rnd);
      && t.playFlag == 1 && t.terminationFlag == 0
      && t.paddlePos == FieldBot(rows) / 2 && t.aiPaddlePos == t.paddlePos
      && t.paddleCol == cols - 1 && t.aiPaddleCol == AI_COL
      && t.ballX == t.paddleCol - 1 && t.ballY == t.paddlePos
      && t.ballXOld == t.ballX && t.ballYOld == t.ballY
      && t.ballDirX == -1
      && (t.ballDirY == 1 || t.ballDirY == -1)
      && (t.ballDirY == 1 <==> rnd % 2 == 0)
      && t.exitFlag == s.exitFlag && t.winner == s.winner && t.pipe == s.pipe
      && t.paddlePosOld == s.paddlePosOld && t.aiPaddlePosOld == s.aiPaddlePosOld
      && InPlay(t, rows, cols)
  {
    var b := FieldBot(rows);
    assert CDiv(PADDLE_WIDTH / 2 + b - PADDLE_WIDTH / 2, 2) == b / 2;
  }

  /** Whether `p` is one of the cells of a paddle centred at row `pos` of column `col`. */
  predicate InPaddle(p: Pos, col: int, pos: int)
  {
    p.col == col && pos - PADDLE_WIDTH / 2 <= p.row <= pos + PADDLE_WIDTH / 2
  }

  /**
   * The screen a round starts on holds the player's paddle in its colour,
   * the AI's paddle in its colour and the ball, and nothing else.
   */
  lemma RoundScreenShape(s: GameState)
    requires s.paddleCol != s.aiPaddleCol
    requires s.ballX != s.paddleCol && s.ballX != s.aiPaddleCol
    ensures var m := RoundScreen(s); var ball := Pos(s.ballY, s.ballX);
      && (forall p :: p in m <==>
            InPaddle(p, s.paddleCol, s.paddlePos) || InPaddle(p, s.aiPaddleCol, s.aiPaddlePos) || p == ball)
      && (forall p :: InPaddle(p, s.paddleCol, s.paddlePos) ==> p in m && m[p] == Cell(' ', PaddlePair))
      && (forall p :: InPaddle(p, s.aiPaddleCol, s.aiPaddlePos) ==> p in m && m[p] == Cell(' ', AiPair))
      && ball in m && m[ball] == BALL_CELL
  {
    PaddleCellsShape(s.paddleCol, s.paddlePos, Cell(' ', PaddlePair));
    PaddleCellsShape(s.aiPaddleCol, s.aiPaddlePos, Cell(' ', AiPair));
  }

  /** Centre the player's paddle at half the bottom row in the last column, and draw it. */
  method PlacePlayerPaddle(g: GameData, scr: Terminal)
    modifies g, scr
    ensures g.State() == old(g.State()).(paddlePos := CDiv(PADDLE_WIDTH / 2 + g.bottomRow - PADDLE_WIDTH / 2, 2),
                                         paddleCol := g.cols - 1)
    ensures scr.cells == PaddleDrawn(old(scr.cells), g.State(), KBD_TAG)
    ensures g.bottomRow == old(g.bottomRow)
  {
    g.paddlePos := CDiv(PADDLE_WIDTH / 2 + g.bottomRow - PADDLE_WIDTH / 2, 2);
    g.paddleCol := g.cols - 1;
    DrawPaddle(g, scr, KBD_TAG);
  }

  /** Put the AI's paddle level with the player's in column 1, and draw it. */
  method PlaceAiPaddle(g: GameData, scr: Terminal)
    modifies g, scr
    ensures g.State() == old(g.State()).(aiPaddlePos := old(g.paddlePos), aiPaddleCol := 1)
    ensures scr.cells == PaddleDrawn(old(scr.cells), g.State(), AI_TAG)
    ensures g.bottomRow == old(g.bottomRow)
  {
    g.aiPaddlePos := g.paddlePos;
    g.aiPaddleCol := 1;
    DrawPaddle(g, scr, AI_TAG);
  }

  /** Serve: the ball in front of the player's paddle, heading for the AI, and draw it. */
  method PlaceBall(g: GameData, scr: Terminal, rnd: nat)
    modifies g, scr
    ensures g.State() == old(g.State()).(ballX := old(g.paddleCol) - 1, ballXOld := old(g.paddleCol) - 1,
                                         ballY := old(g.paddlePos), ballYOld := old(g.paddlePos),
                                         ballDirX := -1, ballDirY := if rnd % 2 == 0 then 1 else -1)
    ensures scr.cells == BallDrawn(old(scr.cells), g.State())
    ensures g.bottomRow == old(g.bottomRow)
  {
    g.ballX := g.paddleCol - 1;
    g.ballXOld := g.ballX;
    g.ballY := g.paddlePos;
    g.ballYOld := g.ballY;
    g.ballDirX := -1;
    g.ballDirY := if rnd % 2 == 0 then 1 else -1;
    DrawBall(g, scr);
  }

  /** Lines 159-182 of main: reset the record for a new round and draw it on a cleared screen. */
  method NewRound(g: GameData, scr: Terminal, rnd: nat)
    modifies g, scr
    ensures g.State() == RoundReset(old(g.State()), g.bottomRow, g.cols, rnd)
    ensures scr.cells == RoundScreen(g.State())
    ensures g.bottomRow == old(g.bottomRow)
  {
    g.playFlag := 1;
    g.terminationFlag := 0;
    scr.Clear();
    PlacePlayerPaddle(g, scr);
    ghost var afterPlayer := g.State();
    PlaceAiPaddle(g, scr);
    PlaceBall(g, scr, rnd);
    assert PaddleDrawn(map[], afterPlayer, KBD_TAG) == PaddleDrawn(map[], g.State(), KBD_TAG);
  }

  // ---------------------------------------------------------------------
  // The controller

  /** What the controller does on the screen for one tag read from the pipe. */
  function Render(cells: map<Pos, Cell>, s: GameState, tag: Tag): map<Pos, Cell>
  {
    var afterKbd := if tag == KBD_TAG then PaddleDrawn(PaddleErased(cells, s, KBD_TAG), s, KBD_TAG) else cells;
    var afterAi := if tag == AI_TAG then PaddleDrawn(PaddleErased(afterKbd, s, AI_TAG), s, AI_TAG) else afterKbd;
    if tag == BALL_TAG then BallDrawn(BallErased(afterAi, s), s) else afterAi
  }

  /** Whether two screens show the same at `p`. */
  predicate SameAt(a: map<Pos, Cell>, b: map<Pos, Cell>, p: Pos)
  {
    (p in a <==> p in b) && (p in a ==> a[p] == b[p])
  }

  /**
   * A paddle tag touches only that paddle's column: the cells of the
   * paddle at its current row end up drawn in its colour, even when the
   * old row equals the current one, the cells only the old row covered end
   * up blank, and every other cell is as it was.
   */
  lemma RenderPaddle(cells: map<Pos, Cell>, s: GameState, tag: Tag)
    requires tag == KBD_TAG || tag == AI_TAG
    ensures var out := Render(cells, s, tag);
      var col := if tag == KBD_TAG then s.paddleCol else s.aiPaddleCol;
      var pos := if tag == KBD_TAG then s.paddlePos else s.aiPaddlePos;
      var was := if tag == KBD_TAG then s.paddlePosOld else s.aiPaddlePosOld;
      && (forall p :: InPaddle(p, col, pos) ==>
            p in out && out[p] == Cell(' ', if tag == KBD_TAG then PaddlePair else AiPair))
      && (forall p :: InPaddle(p, col, was) && !InPaddle(p, col, pos) ==> p in out && out[p] == BLANK)
      && (forall p :: !InPaddle(p, col, was) && !InPaddle(p, col, pos) ==> SameAt(out, cells, p))
  {
    var col := PaddleColumn(s, tag);
    var was := if tag == KBD_TAG then s.paddlePosOld else s.aiPaddlePosOld;
    var pos := if tag == KBD_TAG then s.paddlePos else s.aiPaddlePos;
    PaddleCellsShape(col, was, BLANK);
    PaddleCellsShape(col, pos, Cell(' ', PaddleStyle(tag)));
  }

  /**
   * A ball tag leaves the ball drawn at its current cell, its old cell
   * blank when it moved, and every other cell as it was.
   */
  lemma RenderBall(cells: map<Pos, Cell>, s: GameState)
    ensures var out := Render(cells, s, BALL_TAG);
      var now := Pos(s.ballY, s.ballX);
      var was := Pos(s.ballYOld, s.ballXOld);
      && now in out && out[now] == BALL_CELL
      && (was != now ==> was in out && out[was] == BLANK)
      && (forall p :: p != now && p != was ==> SameAt(out, cells, p))
  {
  }

  /** A quit tag, or any tag other than the three drawing tags, leaves the screen alone. */
  lemma RenderOtherTag(cells: map<Pos, Cell>, s: GameState, tag: Tag)
    requires tag != KBD_TAG && tag != AI_TAG && tag != BALL_TAG
    ensures Render(cells, s, tag) == cells
    ensures Render(cells, s, QUIT_TAG) == cells
  {
  }

  /** Rendering reads positions only, never the pipe. */
  lemma RenderIgnoresPipe(cells: map<Pos, Cell>, s: GameState, tag: Tag, pipe: seq<Tag>)
    ensures Render(cells, s.(pipe := pipe), tag) == Render(cells, s, tag)
  {
  }

  /** The body of the controller loop for one tag: erase, then draw, the entity the tag names. */
  method Dispatch(g: GameData, scr: Terminal, tag: Tag)
    modifies scr
    ensures scr.cells == Render(old(scr.cells), g.State(), tag)
  {
    if tag == KBD_TAG {
      DeletePaddle(g, scr, KBD_TAG);
      DrawPaddle(g, scr, KBD_TAG);
    }
    if tag == AI_TAG {
      DeletePaddle(g, scr, AI_TAG);
      DrawPaddle(g, scr, AI_TAG);
    }
    if tag == BALL_TAG {
      DeleteBall(g, scr);
      DrawBall(g, scr);
    }
  }

  /** The condition of the controller loop. */
  predicate ControllerRuns(s: GameState)
  {
    s.exitFlag == 0 && s.playFlag != 0
  }

  /** The screen after rendering `tags` in order. */
  function RenderAll(cells: map<Pos, Cell>, s: GameState, tags: seq<Tag>): map<Pos, Cell>
    decreases |tags|
  {
    if tags == [] then cells else Render(RenderAll(cells, s, tags[..|tags| - 1]), s, tags[|tags| - 1])
  }

  /**
   * The controller loop, run on the tags already in the pipe. While the
   * round runs it reads and renders every pending tag, oldest first, and
   * then waits for more (`finished` is false). Once the round has stopped
   * it reads nothing and raises the termination flag for the other threads.
   */
  method ControllerLoop(g: GameData, scr: Terminal) returns (finished: bool)
    modifies g, scr
    ensures finished <==> !ControllerRuns(old(g.State()))
    ensures finished ==> g.State() == old(g.State()).(terminationFlag := 1) && scr.cells == old(scr.cells)
    ensures !finished ==> g.State() == old(g.State()).(pipe := [])
    ensures !finished ==> scr.cells == RenderAll(old(scr.cells), old(g.State()), old(g.pipe))
    ensures g.bottomRow == old(g.bottomRow)
  {
    ghost var s0 := g.State();
    ghost var k := 0;
    while ControllerRuns(g.State()) && |g.pipe| > 0
      invariant 0 <= k <= |s0.pipe|
      invariant g.State() == s0.(pipe := s0.pipe[k..])
      invariant scr.cells == RenderAll(old(scr.cells), s0, s0.pipe[..k])
      invariant g.bottomRow == old(g.bottomRow)
      invariant !ControllerRuns(s0) ==> k == 0
      decreases |g.pipe|
    {
      var tag := g.pipe[0];
      g.pipe := g.pipe[1..];
      Dispatch(g, scr, tag);
      RenderIgnoresPipe(RenderAll(old(scr.cells), s0, s0.pipe[..k]), s0, tag, g.pipe);
      assert s0.pipe[..k + 1][..k] == s0.pipe[..k];
      k := k + 1;
    }
    assert ControllerRuns(s0) ==> s0.pipe[..k] == s0.pipe;
    assert s0.pipe[0..] == s0.pipe;
    finished := !ControllerRuns(g.State());
    if finished {
      g.terminationFlag := 1;
    }
  }

  // ---------------------------------------------------------------------
  // The end of a round

  /** What main does after the controller loop: the banner to show, if any, and whether another round follows. */
  datatype RoundEnd = RoundEnd(banner: Option<string>, again: bool)

  /**
   * The banner is shown exactly when the player did not quit, and then
   * another round follows; it reads "GAME LOST" when the AI won and
   * "GAME WON" when the player did.
   */
  function AfterRound(s: GameState): (r: RoundEnd)
    ensures r.banner.Some? <==> s.exitFlag == 0
    ensures r.again <==> s.exitFlag == 0
    ensures r.banner == Some("GAME LOST") <==> s.exitFlag == 0 && s.winner != PLAYER_WON
    ensures r.banner == Some("GAME WON") <==> s.exitFlag == 0 && s.winner == PLAYER_WON
  {
    var banner := if s.exitFlag == 0 then Some(if s.winner != 0 then "GAME LOST" else "GAME WON") else None;
    RoundEnd(banner, s.exitFlag == 0)
  }
}
