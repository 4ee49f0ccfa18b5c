// The routines of support.c that act on the shared record: the body of
// each handler thread's loop as one step, and the routines that erase and
// draw paddles and the ball. Each is proved to do what the corresponding
// function of the Rules module says.

module Support {
  import opened PongDefs
  import opened Screen
  import opened Rules

  /** The keyboard thread's loop body, for the code `getch` returned. */
  method KeyboardStep(g: GameData, key: int)
    modifies g
    ensures g.State() == KeyStep(old(g.State()), g.rows, key)
    ensures g.bottomRow == old(g.bottomRow)
  {
    if key == KEY_UP {
      g.paddlePosOld := g.paddlePos;
      if g.paddlePos > PADDLE_TOP {
        g.paddlePos := g.paddlePos - 1;
      }
      g.pipe := g.pipe + [KBD_TAG];
    } else if key == KEY_DOWN {
      g.paddlePosOld := g.paddlePos;
      if g.paddlePos < PaddleBot(g.rows) {
        g.paddlePos := g.paddlePos + 1;
      }
      g.pipe := g.pipe + [KBD_TAG];
    } else if key == PLAY_KEY {
      g.playFlag := 1;
    } else if key == QUIT_KEY {
      g.exitFlag := 1;
      g.pipe := g.pipe + [QUIT_TAG];
    }
  }

  /** Record the old ball position, advance it, and mirror it off the top or bottom wall. */
  method MoveBall(g: GameData)
    modifies g
    ensures g.State() == Advance(old(g.State()), g.rows)
    ensures g.bottomRow == old(g.bottomRow)
  {
    g.ballYOld := g.ballY;
    g.ballXOld := g.ballX;
    g.ballY := g.ballY + g.ballDirY;
    g.ballX := g.ballX + g.ballDirX;
    if g.ballY < FIELD_TOP || g.ballY > FieldBot(g.rows) {
      g.ballDirY := g.ballDirY * -1;
      g.ballY := g.ballY + 2 * g.ballDirY;
    }
  }

  /** The ball hit a paddle: reverse its column direction and move it two columns. */
  method BounceBall(g: GameData)
    modifies g
    ensures g.State() == Bounce(old(g.State()))
    ensures g.bottomRow == old(g.bottomRow)
  {
    g.ballDirX := g.ballDirX * -1;
    g.ballX := g.ballX + 2 * g.ballDirX;
  }

  /** The ball is out: stop the round, record the winner, and wake the controller. */
  method EndRound(g: GameData, winner: int)
    modifies g
    ensures g.State() == Miss(old(g.State()), winner).state
    ensures g.bottomRow == old(g.bottomRow)
  {
    g.playFlag := 0;
    g.winner := winner;
    g.pipe := g.pipe + [QUIT_TAG];
  }

  /** The ball thread's loop body; `terminal` is true when the thread returns. */
  method BallStep(g: GameData) returns (terminal: bool)
    modifies g
    ensures Tick(g.State(), terminal) == BallTick(old(g.State()), g.rows)
    ensures g.bottomRow == old(g.bottomRow)
  {
    MoveBall(g);

    // the player's paddle
    if g.ballX == g.paddleCol {
      if Abs(g.paddlePos - g.ballY - -g.ballDirY) <= PADDLE_WIDTH / 2 {
        BounceBall(g);
      } else {
        EndRound(g, AI_WON);
        return true;
      }
    }

    // the AI's paddle
    if g.ballX + 1 == g.aiPaddleCol {
      if Abs(g.aiPaddlePos - g.ballY - -g.ballDirY) <= PADDLE_WIDTH / 2 {
        BounceBall(g);
      } else {
        EndRound(g, PLAYER_WON);
        return true;
      }
    }

    g.pipe := g.pipe + [BALL_TAG];
    return false;
  }

  /** The AI thread's loop body. */
  method AiStep(g: GameData)
    modifies g
    ensures g.State() == AiTick(old(g.State()), g.rows)
    ensures g.bottomRow == old(g.bottomRow)
  {
    var diff := g.ballY - g.aiPaddlePos;
    var next := g.aiPaddlePos + CDiv(diff, if diff == 0 then 1 else Abs(diff));
    g.aiPaddlePosOld := g.aiPaddlePos;
    if next >= PADDLE_TOP && next <= PaddleBot(g.rows) {
      g.aiPaddlePos := next;
    }
    g.pipe := g.pipe + [AI_TAG];
  }

  /** `delete_paddle`: blank the cells of the tag's paddle at its old row. */
  method DeletePaddle(g: GameData, scr: Terminal, tag: Tag)
    modifies scr
    ensures scr.cells == PaddleErased(old(scr.cells), g.State(), tag)
  {
    var player := tag == KBD_TAG;
    var row := (if player then g.paddlePosOld else g.aiPaddlePosOld) - PADDLE_WIDTH / 2;
    var col := if player then g.paddleCol else g.aiPaddleCol;
    for i := 0 to PADDLE_WIDTH
      invariant scr.cells == old(scr.cells) + ColumnRun(col, row, i, BLANK)
    {
      scr.Put(row + i, col, ' ', Plain);
    }
  }

  /** `draw_paddle`: paint the cells of the tag's paddle at its current row in its colour. */
  method DrawPaddle(g: GameData, scr: Terminal, tag: Tag)
    modifies scr
    ensures scr.cells == PaddleDrawn(old(scr.cells), g.State(), tag)
  {
    var player := tag == KBD_TAG;
    var row := (if player then g.paddlePos else g.aiPaddlePos) - PADDLE_WIDTH / 2;
    var col := if player then g.paddleCol else g.aiPaddleCol;
    for i := 0 to PADDLE_WIDTH
      invariant scr.cells == old(scr.cells) + ColumnRun(col, row, i, Cell(' ', PaddleStyle(tag)))
    {
      scr.Put(row + i, col, ' ', if player then PaddlePair else AiPair);
    }
  }

  /** `delete_ball`: blank the ball's old cell. */
  method DeleteBall(g: GameData, scr: Terminal)
    modifies scr
    ensures scr.cells == BallErased(old(scr.cells), g.State())
  {
    scr.Put(g.ballYOld, g.ballXOld, ' ', Plain);
  }

  /** `draw_ball`: an 'o' at the ball's current cell. */
  method DrawBall(g: GameData, scr: Terminal)
    modifies scr
    ensures scr.cells == BallDrawn(old(scr.cells), g.State())
  {
    scr.Put(g.ballY, g.ballX, 'o', BallPair);
  }
}
