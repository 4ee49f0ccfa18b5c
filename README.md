# Terminal Pong: the game rules, verified

This project models the core of a terminal Pong game written in C with
ncurses and pthreads. A player's paddle faces an AI paddle and a ball.
Three threads each run a loop over a shared record (`game_data`):

- a keyboard thread, which moves the player's paddle and sets the play and exit flags;
- a ball thread, which advances the ball, reflects it off the walls and paddles, and ends the round on a miss;
- an AI thread, which moves the AI paddle one row toward the ball.

After each change a thread writes a one-character tag to a pipe. The main
thread is the only one that draws. It reads the tags and erases, then
redraws, the paddle or ball that a tag names. It also owns the round
lifecycle: it waits for the start key, resets the record, runs the
controller loop, and shows the end-of-round banner.

The model takes the threads and the terminal away:

- The record is a class, `PongDefs.GameData`. Its fields are those of `game_data`.
- The pipe is a field `pipe: seq<Tag>`. Producers append to it and the controller takes tags from the front.
- Each thread's loop body is one atomic step, a method that changes the record in place. Each method is proved to compute a pure function of the record's value (`PongDefs.GameState`). Those functions are `Rules.KeyStep`, `Rules.BallTick` and `Rules.AiTick`.
- The lemmas about the game rules are stated over those functions.
- The screen is a map from cell positions to a glyph and a colour pair. The draw and delete routines write cells into it in loops, as the C code does.
- The terminal size (`getmaxy`, `getmaxx`) becomes the constants `rows` and `cols` of the record. The field and paddle bounds are functions of `rows`.
- `rand()` becomes a parameter `rnd`. A key press becomes the integer code `getch` returned.
- `Rounds` models a round as any interleaving of the three threads' steps. It proves what holds for every order: the round's invariant, the growth of the pipe, and what happens after a miss or after the termination flag is raised.

Files: `defs.dfy` (support.h), `screen.dfy` (the abstract terminal),
`rules.dfy` and `support.dfy` (support.c), `pong.dfy` (pong.c),
`rounds.dfy` (interleavings of the threads' steps).

Behaviour of the C code that the model keeps:

- The player's hit test fires when the advanced ball is on the paddle's column, `ball_x == paddle_col`. The AI's fires when the advanced ball is one column past its paddle, `ball_x + 1 == ai_paddle_col`, that is at column 0. A ball heading left therefore first ends a tick on the AI paddle's own column, 1, and is tested on the next tick (`Rules.AiColumnExample`).
- The hit test uses the vertical direction after any wall reflection in the same tick.
- An arrow key that cannot move the paddle still writes a `KBD_TAG`.
- A miss writes `QUIT_TAG`, the same tag the quit key writes.
- The AI's step `diff / abs(diff)` uses C's truncating division, modelled as `Rules.CDiv`. `Rules.UnitStepIsSign` proves it equals the sign of `diff`.
- The start-key wait stores `getch`'s result in a `char`. So only the low byte of the key code is compared with `' '` and `'q'` (`Pong.LowByte`). For the one-byte codes and "no key", only `' '` starts and only `'q'` quits (`Pong.ByteKeysDecide`). A wider code such as 288 (ncurses' `KEY_F(24)`) also starts a round (`Pong.WideKeyStarts`).
- The keyboard thread also handles the play key, setting `play_flag` to 1. The thread can read that key after a miss has cleared `play_flag` and before the controller tests it. The controller then goes on with the ball thread gone (`Rounds.PlayKeyAfterMissRevivesRound`). Such a round ends only when the quit key is pressed (`Rounds.RevivedRoundOnlyEndsOnQuit`).

Geometry and lifecycle details of the code:

- The reachable range of a paddle is `[PADDLE_WIDTH / 2, rows - PADDLE_WIDTH / 2 - 1]`, which is `[2, rows - 3]`.
- Both paddles start at row `(W/2 + bottom_row - W/2) / 2`, which is `bottom_row / 2`.
- A miss writes `QUIT_TAG`, the same tag as the quit key.
- A window resize only resizes the ncurses window. It updates no field of the record, and its handler is marked unfinished.

pong.c reads `data.bottom_row` and sets `data.signal_fd`, but support.h's `game_data` declares neither. The model adds `bottomRow` to the record. The signal descriptor is not part of this model.

## Model

| member | source | states |
|---|---|---|
| PongDefs.PaddleIsCentred | support.h:42-43 | the paddle width is odd, so a paddle has `PADDLE_WIDTH / 2` rows on each side of its centre, and `PADDLE_TOP` is that half-width |
| PongDefs.ReachableRangeInField | support.h:39-44 | a paddle centred anywhere in `[PADDLE_TOP, PADDLE_BOT]` lies within `[FIELD_TOP, FIELD_BOT]` = `[0, rows - 1]` |
| PongDefs.ReachableRangeNonEmpty | support.h:43-44 | the reachable range is non-empty exactly when the terminal is at least `PADDLE_WIDTH` rows high |
| PongDefs.TagsDistinct | support.h:49-53 | the tags "k", "a", "b", "q" are pairwise distinct and each is `TAG_SIZE` bytes with its NUL |
| PongDefs.GameData.constructor | pong.c:99-117 | start-up: both flags 0, an empty pipe, `bottom_row` = terminal height - 1 |
| Rules.UnitStepIsSign | support.c:188-189 | `diff / (diff == 0 ? 1 : abs(diff))` under C division is the sign of `diff` |
| Rules.ArrowKeyMovesPaddle | support.c:59-73 | up/down: old position saved; moves at most one row, in the key's direction, and stays put exactly at the bound; stays within the reachable range; writes exactly one `KBD_TAG` even when rejected; nothing else changes |
| Rules.UpAtTopExample | support.c:59-65 | on a 21-row terminal the range is [2, 18]; up at row 2 stays at 2 and writes one `KBD_TAG` |
| Rules.OtherKeys | support.c:75-89 | the play key sets only `play_flag = 1` and writes nothing; the quit key sets `exit_flag = 1` and writes one `QUIT_TAG`; other keys change nothing |
| Rules.KeyWritesAtMostOneTag | support.c:57-90 | a key appends one tag exactly for up, down and quit, none otherwise, and removes none |
| Rules.KeyStepKeepsInPlay | support.c:57-90 | a key step keeps the layout, both paddles in range and the ball in the field |
| Rules.BallTickFrame | support.c:105-171 | a ball tick saves the pre-tick position as old, leaves paddles and other flags alone, appends exactly `QUIT_TAG` if terminal and `BALL_TAG` otherwise; only a terminal tick clears `play_flag` or sets `winner` |
| Rules.BallMovesStraight | support.c:106-109 | with no wall or paddle in the way the ball moves by exactly (`ball_diry`, `ball_dirx`) and keeps its direction |
| Rules.WallReflection | support.c:111-116 | from a row in `[0, FIELD_BOT]` with unit direction, the new row is in `[0, FIELD_BOT]`, the direction stays ±1 and flips exactly when the advanced row left the field, and the row is mirrored across the crossed wall |
| Rules.PlayerPaddleHit | support.c:118-127 | a caught ball at the player's column reverses `ball_dirx`, ends two columns away from the paddle (never on its column), and the tick writes `BALL_TAG` |
| Rules.HitExample | support.c:118-127 | on a 21 x 50 terminal, a ball at (10, 48) moving (+1, +1) onto the player's paddle at row 10 of column 49 is caught and ends the tick at (11, 47) moving left, still in the field |
| Rules.AiColumnExample | support.c:144-153 | on a 21 x 50 terminal, a ball at (10, 2) moving (+1, -1) ends a non-terminal tick on the AI paddle's column 1; the next tick tests it at column 0 and, the paddle at row 10 catching it, leaves it at (12, 2) moving right |
| Rules.AiPaddleHit | support.c:144-153 | a caught ball one column past the AI's paddle (`ai_paddle_col - 1`) reverses `ball_dirx` and moves two columns the new way |
| Rules.PlayerMisses | support.c:128-141 | a miss at the player's column: terminal, `play_flag = 0`, `winner = 1`, exactly one `QUIT_TAG` and no `BALL_TAG` |
| Rules.AiMisses | support.c:154-168 | a miss at the AI's side: terminal, `play_flag = 0`, `winner = 0`, exactly one `QUIT_TAG` and no `BALL_TAG` |
| Rules.BallTickKeepsInPlay | support.c:105-171 | in a round, a non-terminal tick keeps the ball in the field, at a column from the AI paddle's up to but excluding the player's (`AI_COL <= ball_x < paddle_col`), with unit directions, and a terminal tick is a miss at one of the two sides |
| Rules.AiStep | support.c:188-196 | old AI row saved; moves by sign(ball_y - pos) or not at all when that leaves the reachable range (rejected, not clamped); never passes the ball's row; one `AI_TAG`; nothing else changes |
| Rules.AiTickKeepsInPlay | support.c:188-196 | an AI step keeps both paddles in range and the ball in the field |
| Rules.AiConverges | support.c:186-199 | over n AI ticks with the ball's row fixed, the distance to the ball's row clamped to the range shrinks by one per tick down to 0, without overshoot, staying in range, and n `AI_TAG`s are written |
| Rules.ColumnRunShape | support.c:215-219 | writing n rows of a column from a base row covers exactly those n cells with the written value |
| Rules.PaddleCellsShape | support.c:209-243 | a paddle's cells are exactly `PADDLE_WIDTH` cells of its column, rows pos - W/2 .. pos + W/2 |
| Support.KeyboardStep | support.c:57-90 | the keyboard loop body computes `KeyStep` on the record |
| Support.MoveBall | support.c:106-116 | saves the old ball position, advances it, and reflects it off the top or bottom wall |
| Support.BounceBall | support.c:126-127 | negates `ball_dirx` and moves the ball two columns in the new direction |
| Support.EndRound | support.c:130-137 | clears `play_flag`, sets `winner`, writes `QUIT_TAG` |
| Support.BallStep | support.c:105-171 | the ball loop body computes `BallTick`: the new record, and whether the thread returns |
| Support.AiStep | support.c:188-196 | the AI loop body computes `AiTick` on the record |
| Support.DeletePaddle | support.c:207-220 | blanks the `PADDLE_WIDTH` cells of the tag's paddle at its old row, in its column (player's for `KBD_TAG`, AI's otherwise) |
| Support.DrawPaddle | support.c:227-244 | paints the `PADDLE_WIDTH` cells of the tag's paddle at its current row in its colour pair |
| Support.DeleteBall | support.c:246-249 | blanks the ball's old cell |
| Support.DrawBall | support.c:251-256 | draws 'o' in the ball colour at the ball's current cell |
| Pong.WaitForStart | pong.c:150-157 | returns the first key whose `char` value is ' ' (start) or 'q' (quit), with every earlier key ignored, or reports that no such key came |
| Pong.ByteKeysDecide | pong.c:150-157 | for "no key" and one-byte codes only ' ' starts and only 'q' quits; arrows and "no key" are ignored |
| Pong.WideKeyStarts | pong.c:150-153 | a key code whose low byte is ' ' also leaves the wait, because the code is stored in a `char` |
| Pong.RoundResetStartsRound | pong.c:159-181 | `play_flag = 1`, `termination_flag = 0`; both paddles at `bottom_row / 2`, player at column width - 1, AI at column 1; ball at (paddle row, paddle column - 1) with old = current, `ball_dirx = -1`, `ball_diry` ±1 by the parity of the random value; exit flag, winner, old paddle rows and pipe unchanged; the result is a state of play |
| Pong.RoundScreenShape | pong.c:163-182 | the screen a round starts on holds exactly the two paddles in their colours and the ball |
| Pong.PlacePlayerPaddle | pong.c:166-170 | places the player's paddle and draws it |
| Pong.PlaceAiPaddle | pong.c:172-175 | places the AI's paddle level with the player's and draws it |
| Pong.PlaceBall | pong.c:177-182 | serves the ball and draws it |
| Pong.NewRound | pong.c:159-182 | the round reset computes `RoundReset` on the record and leaves the screen as `RoundScreen` |
| Pong.RenderPaddle | pong.c:212-221 | `KBD_TAG` / `AI_TAG` change only that paddle's column: its current cells end up drawn even when old equals current, cells only the old position covered end up blank, all else unchanged |
| Pong.RenderBall | pong.c:222-226 | `BALL_TAG` leaves 'o' at the ball's current cell, its old cell blank when it moved, all else unchanged |
| Pong.RenderOtherTag | pong.c:212-226 | a quit tag, or any tag other than the three drawing tags, draws nothing |
| Pong.Dispatch | pong.c:210-228 | the controller loop body renders one tag as `Render` says |
| Pong.ControllerLoop | pong.c:205-232 | while `exit_flag == 0 && play_flag != 0` every pending tag is rendered in order; once the condition fails nothing is read and `termination_flag` becomes 1 |
| Pong.AfterRound | pong.c:234-244 | the banner is shown exactly when `exit_flag == 0`, "GAME LOST" iff `winner != 0`, "GAME WON" iff `winner == 0`; another round follows exactly when `exit_flag == 0` |
| Rounds.FireKeepsInv | support.c:45-200 | every thread's step keeps the round's invariant (layout, paddles in range, running ball in the field) |
| Rounds.RunKeepsInv | pong.c:184-203 | whatever order the three spawned threads run in, the round's invariant holds |
| Rounds.ResetStartsInv | pong.c:159-182 | the reset establishes the invariant with the ball thread running |
| Rounds.FireAppends | support.c:64-171 | each step appends at most one tag; a running ball's tick appends exactly one, `QUIT_TAG` iff the thread returns, and then the controller's condition fails |
| Rounds.RunAppends | support.c:64-196 | over any interleaving the pipe only grows, by at most one tag per step |
| Rounds.NoBallTagAfterMiss | support.c:139-141 | after the ball thread returns, the ball stays put and no later step writes `BALL_TAG` |
| Rounds.NothingAfterRoundEnds | support.c:48-49 | once `termination_flag` is set and the ball thread has returned, no step changes anything |
| Rounds.OnlyBallAfterTermination | support.c:186-187 | once `termination_flag` is set, only ball and quit tags can still be written |
| Rounds.PlayKeyAfterMissRevivesRound | support.c:75-78 | a play key read after a miss sets `play_flag` back to 1, so the controller goes on with the ball thread gone |
| Rounds.RevivedRoundOnlyEndsOnQuit | pong.c:206 | with the ball thread gone and the controller's condition true, only the quit key makes it false |

## Left out

- Threads, the mutex, `usleep` timing, and unsynchronised access to shared fields. Each loop body is one atomic step, and `Rounds` covers every order of such steps. Interleavings inside a step are not modelled.
- The pipe as file descriptors: it is a sequence of tags. A blocking read on an empty pipe is modelled by `Pong.ControllerLoop` returning with `finished` false.
- Pong.ControllerLoop: runs over the tags already in the pipe with the flags fixed. In the program a thread can clear `play_flag` while the controller is blocked in `read`, and the controller then reads one more tag before it tests the condition. That timing is not modelled.
- The signal thread, `signalfd`, `termination_handler`, and `resize_handler`. The terminal size is fixed for the whole game (`rows`, `cols`), although `FIELD_BOT` and `PADDLE_BOT` read the current height each time. A quit at the start-key wait is reported as `Quit`; the process exit that follows is not modelled.
- `restore_key_rate` and the `xset`/`popen`/`system` calls: shell I/O.
- ncurses set-up, colour-pair registration, `refresh`, and the text layout of the menus. The banner is modelled only as the string chosen.
- `srand`/`rand`: the random value is a parameter.
- 32-bit `int` overflow: not modelled. Every position stays within the terminal's size (`Rules.InPlay`, `Rounds.RunKeepsInv`).
- The joins and teardown after the last round (pong.c:246-255).
- Fields that the program leaves uninitialised until the first round are 0 in `PongDefs.GameData.constructor`.
