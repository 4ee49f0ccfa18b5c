// The definitions of support.h: field geometry as functions of the terminal
// height, the pipe tags, the keys, and the game record shared by the threads.

module PongDefs {

  /** Top row of the playing field. */
  const FIELD_TOP: int := 0
  /** Column of the AI paddle. */
  const AI_COL: int := 1
  /** Rows covered by a paddle; must be odd. */
  const PADDLE_WIDTH: int := 5
  /** Topmost row the centre of a paddle can reach. */
  const PADDLE_TOP: int := PADDLE_WIDTH / 2

  /** Bottom row of the playing field on a terminal `rows` rows high. */
  function FieldBot(rows: int): int
  {
    rows - 1
  }

  /** Bottommost row the centre of a paddle can reach. */
  function PaddleBot(rows: int): int
  {
    rows - PADDLE_WIDTH / 2 - 1
  }

  /** A paddle is odd in width, so its centre row has PADDLE_WIDTH / 2 rows on each side. */
  lemma PaddleIsCentred()
    ensures PADDLE_WIDTH % 2 == 1
    ensures PADDLE_WIDTH == 2 * (PADDLE_WIDTH / 2) + 1
    ensures PADDLE_TOP == PADDLE_WIDTH / 2
  {
  }

  /** A paddle whose centre is in the reachable range lies entirely inside the field. */
  lemma ReachableRangeInField(rows: int, pos: int)
    requires PADDLE_TOP <= pos <= PaddleBot(rows)
    ensures FIELD_TOP <= pos - PADDLE_WIDTH / 2
    ensures pos + PADDLE_WIDTH / 2 <= FieldBot(rows)
    ensures rows >= PADDLE_WIDTH
  {
  }

  /** The reachable range is non-empty exactly when the terminal is at least a paddle high. */
  lemma ReachableRangeNonEmpty(rows: int)
    ensures PADDLE_TOP <= PaddleBot(rows) <==> rows >= PADDLE_WIDTH
  {
  }

  // Tags written to the pipe; each is one character plus its terminating NUL.

  type Tag = string

  const KBD_TAG: Tag := "k"
  const AI_TAG: Tag := "a"
  const BALL_TAG: Tag := "b"
  const QUIT_TAG: Tag := "q"
  /** Bytes per tag written to or read from the pipe (`sizeof "k"`). */
  const TAG_SIZE: int := |KBD_TAG| + 1

  /** The four tags are pairwise distinct, so a tag selects at most one branch of the controller. */
  lemma TagsDistinct()
    ensures KBD_TAG != AI_TAG && KBD_TAG != BALL_TAG && KBD_TAG != QUIT_TAG
    ensures AI_TAG != BALL_TAG && AI_TAG != QUIT_TAG
    ensures BALL_TAG != QUIT_TAG
    ensures |KBD_TAG| + 1 == TAG_SIZE && |AI_TAG| + 1 == TAG_SIZE
    ensures |BALL_TAG| + 1 == TAG_SIZE && |QUIT_TAG| + 1 == TAG_SIZE
  {
  }

  // Keys, as the integer codes `getch` returns.

  const QUIT_KEY: int := 'q' as int
  const PLAY_KEY: int := ' ' as int
  /** ncurses' KEY_DOWN (octal 0402). */
  const KEY_DOWN: int := 0x102
  /** ncurses' KEY_UP (octal 0403). */
  const KEY_UP: int := 0x103
  /** ncurses' ERR, returned by a non-blocking `getch` when no key is pending. */
  const NO_KEY: int := -1

  /** `winner` value when the player won the round. */
  const PLAYER_WON: int := 0
  /** `winner` value when the AI won the round. */
  const AI_WON: int := 1

  /**
   * A snapshot of the shared game record: every field the rules read or
   * write, with `pipe` holding the tags written and not yet read.
   */
  datatype GameState = GameState(
    paddlePos: int,
    paddleCol: int,
    aiPaddlePos: int,
    aiPaddleCol: int,
    ballX: int,
    ballY: int,
    paddlePosOld: int,
    aiPaddlePosOld: int,
    ballXOld: int,
    ballYOld: int,
    exitFlag: int,
    playFlag: int,
    ballDirX: int,
    ballDirY: int,
    terminationFlag: int,
    winner: int,
    pipe: seq<Tag>)

  /**
   * The game record shared between the threads. `rows` and `cols` are the
   * terminal size read at start-up; `bottomRow` is the bottom row cached
   * by the main thread.
   */
  class GameData {
    const rows: int
    const cols: int
    var bottomRow: int

    var paddlePos: int
    var paddleCol: int
    var aiPaddlePos: int
    var aiPaddleCol: int
    var ballX: int
    var ballY: int
    var paddlePosOld: int
    var aiPaddlePosOld: int
    var ballXOld: int
    var ballYOld: int
    var exitFlag: int
    var playFlag: int
    var ballDirX: int
    var ballDirY: int
    var terminationFlag: int
    var winner: int
    /** Tags written to the pipe and not yet read by the controller, oldest first. */
    var pipe: seq<Tag>

    /** The record's fields as a value. */
    function State(): GameState
      reads this
    {
      GameState(paddlePos, paddleCol, aiPaddlePos, aiPaddleCol, ballX, ballY,
                paddlePosOld, aiPaddlePosOld, ballXOld, ballYOld, exitFlag, playFlag,
                ballDirX, ballDirY, terminationFlag, winner, pipe)
    }

    /**
     * Start-up: neither flag set, an empty pipe, and the bottom row cached
     * from the terminal height. Fields the program leaves uninitialised
     * until the first round are zero here.
     */
    constructor (rows: int, cols: int)
      ensures this.rows == rows && this.cols == cols
      ensures bottomRow == rows - 1
      ensures exitFlag == 0 && playFlag == 0 && pipe == []
    {
      this.rows := rows;
      this.cols := cols;
      bottomRow := rows - 1;
      exitFlag, playFlag := 0, 0;
      pipe := [];
      paddlePos, paddleCol, aiPaddlePos, aiPaddleCol := 0, 0, 0, 0;
      ballX, ballY, paddlePosOld, aiPaddlePosOld := 0, 0, 0, 0;
      ballXOld, ballYOld, ballDirX, ballDirY := 0, 0, 0, 0;
      terminationFlag, winner := 0, 0;
    }
  }
}
