// The game rules of support.c as functions on a snapshot of the shared
// record: one iteration of each handler thread's loop, and the screen
// cells the draw and delete routines write. The methods in support.dfy
// are proved to compute exactly these functions.

module Rules {
  import opened PongDefs
  import opened Screen

  function Abs(x: int): int
  {
    if x < 0 then -x else x
  }

  function Sign(x: int): int
  {
    if x < 0 then -1 else if x == 0 then 0 else 1
  }

  /** C's integer division, which truncates toward zero. */
  function CDiv(a: int, b: int): int
    requires b != 0
  {
    if (a < 0) == (b < 0) then Abs(a) / Abs(b) else -(Abs(a) / Abs(b))
  }

  /** The AI's step `diff / (diff == 0 ? 1 : abs(diff))` is the sign of `diff`. */
  lemma UnitStepIsSign(diff: int)
    ensures CDiv(diff, if diff == 0 then 1 else Abs(diff)) == Sign(diff)
  {
    if diff != 0 {
      assert Abs(diff) / Abs(diff) == 1;
    }
  }

  // ---------------------------------------------------------------------
  // The invariant a round keeps

  /** Terminal and column layout a round is played on. */
  predicate Layout(s: GameState, rows: int, cols: int)
  {
    && rows >= PADDLE_WIDTH
    && cols >= 4
    && s.paddleCol == cols - 1
    && s.aiPaddleCol == AI_COL
  }

  /** Both paddle centres are in the reachable range. */
  predicate PaddlesInRange(s: GameState, rows: int)
  {
    && PADDLE_TOP <= s.paddlePos <= PaddleBot(rows)
    && PADDLE_TOP <= s.aiPaddlePos <= PaddleBot(rows)
  }

  /**
   * The ball is inside the field, at a column from the AI paddle's up to
   * but excluding the player's, moving diagonally. The AI paddle's own
   * column is reachable: the AI's hit test is made one column further on.
   */
  predicate BallInField(s: GameState, rows: int)
  {
    && FIELD_TOP <= s.ballY <= FieldBot(rows)
    && AI_COL <= s.ballX < s.paddleCol
    && (s.ballDirY == 1 || s.ballDirY == -1)
    && (s.ballDirX == 1 || s.ballDirX == -1)
  }

  /** The state of a round whose ball is still in play. */
  predicate InPlay(s: GameState, rows: int, cols: int)
  {
    Layout(s, rows, cols) && PaddlesInRange(s, rows) && BallInField(s, rows)
  }

  // ---------------------------------------------------------------------
  // Keyboard thread

  /** One iteration of the keyboard thread's loop, for the code `getch` returned. */
  function KeyStep(s: GameState, rows: int, key: int): GameState
  {
    if key == KEY_UP then
      s.(paddlePosOld := s.paddlePos,
         paddlePos := if s.paddlePos > PADDLE_TOP then s.paddlePos - 1 else s.paddlePos,
         pipe := s.pipe + [KBD_TAG])
    else if key == KEY_DOWN then
      s.(paddlePosOld := s.paddlePos,
         paddlePos := if s.paddlePos < PaddleBot(rows) then s.paddlePos + 1 else s.paddlePos,
         pipe := s.pipe + [KBD_TAG])
    else if key == PLAY_KEY then
      s.(playFlag := 1)
    else if key == QUIT_KEY then
      s.(exitFlag := 1, pipe := s.pipe + [QUIT_TAG])
    else
      s
  }

  /**
   * An arrow key records the old position, moves the paddle one row in
   * the key's direction unless it is at the bound, stays in the reachable
   * range, and always writes one KBD_TAG; nothing else changes.
   */
  lemma ArrowKeyMovesPaddle(s: GameState, rows: int, key: int)
    requires key == KEY_UP || key == KEY_DOWN
    ensures var t := KeyStep(s, rows, key);
      && t.paddlePosOld == s.paddlePos
      && Abs(t.paddlePos - s.paddlePos) <= 1
      && (key == KEY_UP ==> t.paddlePos <= s.paddlePos)
      && (key == KEY_DOWN ==> t.paddlePos >= s.paddlePos)
      && (key == KEY_UP ==> (t.paddlePos == s.paddlePos <==> s.paddlePos <= PADDLE_TOP))
      && (key == KEY_DOWN ==> (t.paddlePos == s.paddlePos <==> s.paddlePos >= PaddleBot(rows)))
      && (PADDLE_TOP <= s.paddlePos <= PaddleBot(rows) ==> PADDLE_TOP <= t.paddlePos <= PaddleBot(rows))
      && t.pipe == s.pipe + [KBD_TAG]
      && t == s.(paddlePos := t.paddlePos, paddlePosOld := t.paddlePosOld, pipe := t.pipe)
  {
  }

  /** On a 21-row terminal the reachable range is [2, 18]; up at row 2 stays at 2 and still writes a KBD_TAG. */
  lemma UpAtTopExample(s: GameState)
    requires s.paddlePos == 2
    ensures PADDLE_TOP == 2 && PaddleBot(21) == 18
    ensures KeyStep(s, 21, KEY_UP).paddlePos == 2
    ensures KeyStep(s, 21, KEY_UP).pipe == s.pipe + [KBD_TAG]
  {
  }

  /**
   * The play key only sets `playFlag`; the quit key sets `exitFlag` and
   * writes one QUIT_TAG; any other key changes nothing.
   */
  lemma OtherKeys(s: GameState, rows: int, key: int)
    requires key != KEY_UP && key != KEY_DOWN
    ensures var t := KeyStep(s, rows, key);
      && (key == PLAY_KEY ==> t == s.(playFlag := 1))
      && (key == QUIT_KEY ==> t == s.(exitFlag := 1, pipe := s.pipe + [QUIT_TAG]))
      && (key != PLAY_KEY && key != QUIT_KEY ==> t == s)
  {
  }

  /** A key writes one tag exactly when it is an arrow or the quit key. */
  lemma KeyWritesAtMostOneTag(s: GameState, rows: int, key: int)
    ensures var t := KeyStep(s, rows, key);
      && s.pipe <= t.pipe
      && |t.pipe| == |s.pipe| + (if key in {KEY_UP, KEY_DOWN, QUIT_KEY} then 1 else 0)
  {
  }

  /** Any key keeps a round's invariant. */
  lemma KeyStepKeepsInPlay(s: GameState, rows: int, cols: int, key: int)
    requires Layout(s, rows, cols) && PaddlesInRange(s, rows)
    ensures var t := KeyStep(s, rows, key);
      Layout(t, rows, cols) && PaddlesInRange(t, rows)
      && (BallInField(s, rows) ==> BallInField(t, rows))
  {
  }

  // ---------------------------------------------------------------------
  // Ball thread

  /** The outcome of one ball tick: the new state and whether the thread returned. */
  datatype Tick = Tick(state: GameState, terminal: bool)

  /** Record the old position, advance one step, and mirror off the top or bottom wall. */
  function Advance(s: GameState, rows: int): GameState
  {
    var y := s.ballY + s.ballDirY;
    var x := s.ballX + s.ballDirX;
    var t := s.(ballYOld := s.ballY, ballXOld := s.ballX, ballY := y, ballX := x);
    if y < FIELD_TOP || y > FieldBot(rows) then
      t.(ballDirY := -s.ballDirY, ballY := y + 2 * -s.ballDirY)
    else
      t
  }

  /**
   * The hit test against a paddle centred at `pos`: the row the ball came
   * from along its current vertical direction is within half a paddle.
   */
  predicate Catches(pos: int, s: GameState)
  {
    Abs(pos - s.ballY - -s.ballDirY) <= PADDLE_WIDTH / 2
  }

  /** Reverse the horizontal direction and move two columns the new way. */
  function Bounce(s: GameState): GameState
  {
    s.(ballDirX := -s.ballDirX, ballX := s.ballX + 2 * -s.ballDirX)
  }

  /** A miss: the round stops, `winner` is recorded and a QUIT_TAG is written. */
  function Miss(s: GameState, winner: int): Tick
  {
    Tick(s.(playFlag := 0, winner := winner, pipe := s.pipe + [QUIT_TAG]), true)
  }

  /**
   * One iteration of the ball thread's loop. The player's paddle is tested
   * when the ball reaches its column, the AI's when the ball reaches the
   * column past the AI's, `aiPaddleCol - 1`.
   */
  function BallTick(s: GameState, rows: int): Tick
  {
    var a := Advance(s, rows);
    if a.ballX == a.paddleCol && !Catches(a.paddlePos, a) then
      Miss(a, AI_WON)
    else
      var b := if a.ballX == a.paddleCol then Bounce(a) else a;
      if b.ballX + 1 == b.aiPaddleCol && !Catches(b.aiPaddlePos, b) then
        Miss(b, PLAYER_WON)
      else
        var c := if b.ballX + 1 == b.aiPaddleCol then Bounce(b) else b;
        Tick(c.(pipe := c.pipe + [BALL_TAG]), false)
  }

  /**
   * A tick records the pre-tick position as old, leaves the paddles, the
   * exit and termination flags alone, and writes exactly one tag: QUIT_TAG
   * when it is terminal, BALL_TAG otherwise. Only a terminal tick changes
   * `playFlag` (to 0) or `winner`.
   */
  lemma BallTickFrame(s: GameState, rows: int)
    ensures var r := BallTick(s, rows); var t := r.state;
      && t.ballYOld == s.ballY && t.ballXOld == s.ballX
      && t == s.(ballX := t.ballX, ballY := t.ballY, ballXOld := t.ballXOld, ballYOld := t.ballYOld,
                 ballDirX := t.ballDirX, ballDirY := t.ballDirY,
                 playFlag := t.playFlag, winner := t.winner, pipe := t.pipe)
      && t.pipe == s.pipe + [if r.terminal then QUIT_TAG else BALL_TAG]
      && (r.terminal ==> t.playFlag == 0)
      && (!r.terminal ==> t.playFlag == s.playFlag && t.winner == s.winner)
  {
  }

  /** Away from walls and paddles the ball moves by exactly its direction. */
  lemma BallMovesStraight(s: GameState, rows: int)
    requires FIELD_TOP <= s.ballY + s.ballDirY <= FieldBot(rows)
    requires s.ballX + s.ballDirX != s.paddleCol
    requires s.ballX + s.ballDirX + 1 != s.aiPaddleCol
    ensures var r := BallTick(s, rows);
      && !r.terminal
      && r.state.ballY == s.ballY + s.ballDirY
      && r.state.ballX == s.ballX + s.ballDirX
      && r.state.ballDirY == s.ballDirY && r.state.ballDirX == s.ballDirX
  {
  }

  /**
   * Wall reflection: a ball in the field with a unit vertical direction is
   * still in the field after the tick with a unit direction, which flipped
   * exactly when the advanced row left the field; the row is then the
   * advanced row mirrored across the wall it crossed.
   */
  lemma WallReflection(s: GameState, rows: int)
    requires FIELD_TOP <= s.ballY <= FieldBot(rows)
    requires FieldBot(rows) >= 1
    requires s.ballDirY == 1 || s.ballDirY == -1
    ensures var t := BallTick(s, rows).state; var y := s.ballY + s.ballDirY;
      && FIELD_TOP <= t.ballY <= FieldBot(rows)
      && (t.ballDirY == 1 || t.ballDirY == -1)
      && (t.ballDirY == -s.ballDirY <==> (y < FIELD_TOP || y > FieldBot(rows)))
      && (y < FIELD_TOP ==> t.ballY == FIELD_TOP + (FIELD_TOP - y))
      && (y > FieldBot(rows) ==> t.ballY == FieldBot(rows) - (y - FieldBot(rows)))
      && (FIELD_TOP <= y <= FieldBot(rows) ==> t.ballY == y)
  {
  }

  /**
   * A player hit reverses the horizontal direction and leaves the ball two
   * columns from the paddle on the far side of where it arrived, so never
   * on the paddle's column; the tick is not terminal.
   */
  lemma PlayerPaddleHit(s: GameState, rows: int)
    requires s.ballDirX == 1 || s.ballDirX == -1
    requires s.aiPaddleCol < s.paddleCol - 1
    requires s.ballX + s.ballDirX == s.paddleCol
    requires Catches(s.paddlePos, Advance(s, rows))
    ensures var r := BallTick(s, rows);
      && !r.terminal
      && r.state.ballDirX == -s.ballDirX
      && r.state.ballX == s.paddleCol + 2 * r.state.ballDirX
      && r.state.ballX != s.paddleCol
      && r.state.pipe == s.pipe + [BALL_TAG]
  {
  }

  /**
   * On a 21 x 50 terminal, a ball at row 10, column 48, moving down and
   * right onto the player's paddle at row 10 of column 49 is caught and
   * ends the tick at row 11, column 47, moving left, still in play.
   */
  lemma HitExample(s: GameState)
    requires InPlay(s, 21, 50)
    requires s.ballY == 10 && s.ballX == 48 && s.ballDirY == 1 && s.ballDirX == 1
    requires s.paddlePos == 10
    ensures var r := BallTick(s, 21);
      && !r.terminal && r.state.ballY == 11 && r.state.ballX == 47 && r.state.ballDirX == -1
      && InPlay(r.state, 21, 50)
  {
  }

  /**
   * On a 21 x 50 terminal, a ball at row 10, column 2, moving down and left
   * ends a tick that is not terminal on the AI paddle's own column. The
   * next tick advances it to column 0, where the AI's hit test is made;
   * with the AI paddle at row 10 the ball is caught and ends at row 12,
   * column 2, moving right.
   */
  lemma AiColumnExample(s: GameState)
    requires InPlay(s, 21, 50)
    requires s.ballY == 10 && s.ballX == 2 && s.ballDirY == 1 && s.ballDirX == -1
    requires s.aiPaddlePos == 10
    ensures var r := BallTick(s, 21);
      && !r.terminal && r.state.ballX == AI_COL && InPlay(r.state, 21, 50)
      && Advance(r.state, 21).ballX == AI_COL - 1
      && var r2 := BallTick(r.state, 21);
         !r2.terminal && r2.state.ballY == 12 && r2.state.ballX == 2 && r2.state.ballDirX == 1
  {
  }

  /** The same at the AI's side, whose test is on the column past the AI's paddle. */
  lemma AiPaddleHit(s: GameState, rows: int)
    requires s.ballX + s.ballDirX != s.paddleCol
    requires s.ballX + s.ballDirX + 1 == s.aiPaddleCol
    requires Catches(s.aiPaddlePos, Advance(s, rows))
    ensures var r := BallTick(s, rows);
      && !r.terminal
      && r.state.ballDirX == -s.ballDirX
      && r.state.ballX == s.ballX + s.ballDirX + 2 * r.state.ballDirX
      && r.state.pipe == s.pipe + [BALL_TAG]
  {
  }

  /** A miss at the player's column ends the round won by the AI, with one QUIT_TAG and no BALL_TAG. */
  lemma PlayerMisses(s: GameState, rows: int)
    requires s.ballX + s.ballDirX == s.paddleCol
    requires !Catches(s.paddlePos, Advance(s, rows))
    ensures var r := BallTick(s, rows);
      && r.terminal
      && r.state.playFlag == 0
      && r.state.winner == AI_WON
      && r.state.pipe == s.pipe + [QUIT_TAG]
      && BALL_TAG !in r.state.pipe[|s.pipe|..]
  {
  }

  /** A miss at the AI's side ends the round won by the player. */
  lemma AiMisses(s: GameState, rows: int)
    requires s.ballX + s.ballDirX != s.paddleCol
    requires s.ballX + s.ballDirX + 1 == s.aiPaddleCol
    requires !Catches(s.aiPaddlePos, Advance(s, rows))
    ensures var r := BallTick(s, rows);
      && r.terminal
      && r.state.playFlag == 0
      && r.state.winner == PLAYER_WON
      && r.state.pipe == s.pipe + [QUIT_TAG]
      && BALL_TAG !in r.state.pipe[|s.pipe|..]
  {
  }

  /**
   * In a round, a tick that is terminal is a miss at one of the two sides,
   * and a tick that is not keeps the round's invariant.
   */
  lemma BallTickKeepsInPlay(s: GameState, rows: int, cols: int)
    requires InPlay(s, rows, cols)
    ensures var r := BallTick(s, rows);
      && Layout(r.state, rows, cols) && PaddlesInRange(r.state, rows)
      && (!r.terminal ==> BallInField(r.state, rows))
      && (r.terminal ==> r.state.ballX == s.paddleCol || r.state.ballX + 1 == AI_COL)
  {
    var a := Advance(s, rows);
    assert FIELD_TOP <= a.ballY <= FieldBot(rows);
    assert a.ballX == s.paddleCol ==> s.ballDirX == 1;
    assert a.ballX + 1 == AI_COL ==> s.ballDirX == -1;
  }

  // ---------------------------------------------------------------------
  // AI thread

  /** One iteration of the AI thread's loop: one row toward the ball, unless that leaves the reachable range. */
  function AiTick(s: GameState, rows: int): GameState
  {
    var diff := s.ballY - s.aiPaddlePos;
    var next := s.aiPaddlePos + CDiv(diff, if diff == 0 then 1 else Abs(diff));
    s.(aiPaddlePosOld := s.aiPaddlePos,
       aiPaddlePos := if next >= PADDLE_TOP && next <= PaddleBot(rows) then next else s.aiPaddlePos,
       pipe := s.pipe + [AI_TAG])
  }

  /**
   * The AI paddle records its old row and moves by the sign of the
   * distance to the ball's row, or stays where that move would leave the
   * reachable range; it never passes the ball's row. One AI_TAG is
   * written and nothing else changes.
   */
  lemma AiStep(s: GameState, rows: int)
    ensures var t := AiTick(s, rows); var next := s.aiPaddlePos + Sign(s.ballY - s.aiPaddlePos);
      && t.aiPaddlePosOld == s.aiPaddlePos
      && (PADDLE_TOP <= next <= PaddleBot(rows) ==> t.aiPaddlePos == next)
      && (!(PADDLE_TOP <= next <= PaddleBot(rows)) ==> t.aiPaddlePos == s.aiPaddlePos)
      && (s.aiPaddlePos <= s.ballY ==> s.aiPaddlePos <= t.aiPaddlePos <= s.ballY)
      && (s.ballY <= s.aiPaddlePos ==> s.ballY <= t.aiPaddlePos <= s.aiPaddlePos)
      && t.pipe == s.pipe + [AI_TAG]
      && t == s.(aiPaddlePos := t.aiPaddlePos, aiPaddlePosOld := t.aiPaddlePosOld, pipe := t.pipe)
  {
    UnitStepIsSign(s.ballY - s.aiPaddlePos);
  }

  /** An AI tick keeps a round's invariant. */
  lemma AiTickKeepsInPlay(s: GameState, rows: int, cols: int)
    requires Layout(s, rows, cols) && PaddlesInRange(s, rows)
    ensures var t := AiTick(s, rows);
      Layout(t, rows, cols) && PaddlesInRange(t, rows)
      && (BallInField(s, rows) ==> BallInField(t, rows))
  {
    AiStep(s, rows);
  }

  /** `n` AI ticks in a row, with nothing else happening in between. */
  function AiTicks(s: GameState, rows: int, n: nat): GameState
  {
    if n == 0 then s else AiTick(AiTicks(s, rows, n - 1), rows)
  }

  /** The row the AI paddle can get closest to the ball: the ball's row clamped to the reachable range. */
  function AiTarget(ballY: int, rows: int): int
  {
    if ballY < PADDLE_TOP then PADDLE_TOP
    else if ballY > PaddleBot(rows) then PaddleBot(rows)
    else ballY
  }

  /**
   * While the ball's row stays put, the AI paddle closes in on it at one
   * row per tick, never overshooting, until it is as close as the
   * reachable range allows; each tick writes one AI_TAG.
   */
  lemma {:induction false} AiConverges(s: GameState, rows: int, n: nat)
    requires rows >= PADDLE_WIDTH
    requires PADDLE_TOP <= s.aiPaddlePos <= PaddleBot(rows)
    ensures var t := AiTicks(s, rows, n); var target := AiTarget(s.ballY, rows);
      && t.ballY == s.ballY
      && PADDLE_TOP <= t.aiPaddlePos <= PaddleBot(rows)
      && Abs(target - t.aiPaddlePos) == (if Abs(target - s.aiPaddlePos) <= n then 0 else Abs(target - s.aiPaddlePos) - n)
      && (s.aiPaddlePos <= target ==> s.aiPaddlePos <= t.aiPaddlePos <= target)
      && (target <= s.aiPaddlePos ==> target <= t.aiPaddlePos <= s.aiPaddlePos)
      && t.pipe == s.pipe + seq(n, _ => AI_TAG)
  {
    if n > 0 {
      AiConverges(s, rows, n - 1);
      var p := AiTicks(s, rows, n - 1);
      AiStep(p, rows);
      assert p.pipe + [AI_TAG] == s.pipe + seq(n, _ => AI_TAG);
    }
  }

  // ---------------------------------------------------------------------
  // Drawing

  /** The `n` cells of column `col` from row `top` down, each holding `c`. */
  function ColumnRun(col: int, top: int, n: nat, c: Cell): map<Pos, Cell>
  {
    if n == 0 then map[] else ColumnRun(col, top, n - 1, c)[Pos(top + n - 1, col) := c]
  }

  /** A column run covers exactly its `n` cells, all holding its cell value. */
  lemma {:induction false} ColumnRunShape(col: int, top: int, n: nat, c: Cell)
    ensures forall p :: p in ColumnRun(col, top, n, c) <==> p.col == col && top <= p.row < top + n
    ensures forall p :: p in ColumnRun(col, top, n, c) ==> ColumnRun(col, top, n, c)[p] == c
    ensures |ColumnRun(col, top, n, c)| == n
  {
    if n > 0 {
      ColumnRunShape(col, top, n - 1, c);
      assert Pos(top + n - 1, col) !in ColumnRun(col, top, n - 1, c);
    }
  }

  /** The cells of a paddle centred at row `pos` of column `col`. */
  function PaddleCells(col: int, pos: int, c: Cell): map<Pos, Cell>
  {
    ColumnRun(col, pos - PADDLE_WIDTH / 2, PADDLE_WIDTH, c)
  }

  /** A paddle is PADDLE_WIDTH cells of its column, PADDLE_WIDTH / 2 on each side of its centre. */
  lemma PaddleCellsShape(col: int, pos: int, c: Cell)
    ensures forall p :: p in PaddleCells(col, pos, c) <==>
      p.col == col && pos - PADDLE_WIDTH / 2 <= p.row <= pos + PADDLE_WIDTH / 2
    ensures forall p :: p in PaddleCells(col, pos, c) ==> PaddleCells(col, pos, c)[p] == c
    ensures |PaddleCells(col, pos, c)| == PADDLE_WIDTH
  {
    ColumnRunShape(col, pos - PADDLE_WIDTH / 2, PADDLE_WIDTH, c);
  }

  /** The draw and delete routines pick the player's paddle for KBD_TAG and the AI's for any other tag. */
  function PaddleColumn(s: GameState, tag: Tag): int
  {
    if tag == KBD_TAG then s.paddleCol else s.aiPaddleCol
  }

  function PaddleStyle(tag: Tag): Style
  {
    if tag == KBD_TAG then PaddlePair else AiPair
  }

  /** How `delete_paddle` leaves the screen: the paddle's cells at its old row blanked. */
  function PaddleErased(cells: map<Pos, Cell>, s: GameState, tag: Tag): map<Pos, Cell>
  {
    var pos := if tag == KBD_TAG then s.paddlePosOld else s.aiPaddlePosOld;
    cells + PaddleCells(PaddleColumn(s, tag), pos, BLANK)
  }

  /** How `draw_paddle` leaves the screen: the paddle's cells at its current row in its colour. */
  function PaddleDrawn(cells: map<Pos, Cell>, s: GameState, tag: Tag): map<Pos, Cell>
  {
    var pos := if tag == KBD_TAG then s.paddlePos else s.aiPaddlePos;
    cells + PaddleCells(PaddleColumn(s, tag), pos, Cell(' ', PaddleStyle(tag)))
  }

  const BALL_CELL: Cell := Cell('o', BallPair)

  /** How `delete_ball` leaves the screen. */
  function BallErased(cells: map<Pos, Cell>, s: GameState): map<Pos, Cell>
  {
    cells[Pos(s.ballYOld, s.ballXOld) := BLANK]
  }

  /** How `draw_ball` leaves the screen. */
  function BallDrawn(cells: map<Pos, Cell>, s: GameState): map<Pos, Cell>
  {
    cells[Pos(s.ballY, s.ballX) := BALL_CELL]
  }
}
