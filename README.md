# Missile-command game, tic-tac-toe and stopwatch controllers in Dafny

This project models and verifies four small controllers from an embedded
course repository. Each one is a tick- or step-driven update of a handful
of static variables, with the hardware calls at its edges:

- **The plane's patrol state machine** (`lab06/main/plane.c`, module
  `PlaneMachine`). It has three states: INIT, IDLE and FLY. An idle-frame
  gate of 16 frames decides when it flies. The explode request is sticky. In
  flight the plane moves one pixel per tick, as an `int16` that wraps at its
  limit. The module-level state is the class `Plane`. Its `Tick` runs the
  source's two switches (transition, then action) and returns the triangle it
  draws. `Tick` is proved against the pure function `Next`.
- **The missile status layer** (`lab06/main/missile.c`, module
  `MissileStatus`). It covers the state enumeration, the fields of
  `missile_t` that the code touches, the explode-request setter, the
  read-only status and position queries, and the collision stub.
- **The tic-tac-toe turn controller** (`lab05/main/game.c`, module
  `TicTacToe`). It is a five-state tick machine with turn switching and the
  one-byte row/column message sent over the serial link. It also covers the
  end-game decision and the flush loop of `start_new_game`. The class `Game`
  holds the file's statics, plus the bytes waiting in the serial receiver
  (`rx`) and the bytes written to it (`tx`); `Game.Arrive` stands for bytes
  coming in from the other board. The board, the navigator and the buttons
  are modules whose source is not part of this model. Each tick receives
  their answers as an `Inputs` value: the A and START levels, the
  navigator's location, and the `board_set` / `board_winner` /
  `board_mark_count` results.
- **The stopwatch alarm step** (`lab03/main/main.c`, module `Stopwatch`).
  It covers the button-priority update of `running` and `timer_ticks`, the
  `isr_max` / `isr_cnt` timing bookkeeping, the main loop's periodic reset,
  and the result of `pin_init`. Each call of the alarm callback is one
  sequential step. Its inputs are the three button levels and the measured
  duration.

Module `Basics` holds the C integer widths as newtypes and the conversions
that wrap into them.

A reachable plane keeps its frame counter between 1 and 17 (`InvRun`), so
the `uint8` counter never wraps. The position starts at `LCD_H / 4` and only
moves right. So while it stays below the `int16` limit, a flight ends only
through an explode request (`BoundaryExitNeedsWrap`). The test
`x_pos <= LEFT_BOUNDARY` can become true only when `x_pos++` overflows.

In the game, `rec_flag` is set by any received byte and cleared only when a
mark is processed. After a rejected remote move, the next local A press
therefore validates the stale received square, not the navigator's. If the
board accepts that square, the press sends back exactly the byte that came
in (`StaleReceivedMove`).

A few things the C code does not do:
- The missile's init, launch and tick functions are declared but have no
  bodies in the code.
- `missile_is_colliding` has a stub body that always returns false.
- The plane never fires its missile: `shoot` is empty, and `plane_init`
  ignores its missile argument.
- The plane starts in an INIT state that becomes IDLE on the first tick.
- In flight the plane moves towards increasing x.

In the game, when the board keeps rejecting a stale received square and no
byte arrives, the local player is locked out: every tick stays in
wait-mark, `rec_flag` stays set, and nothing is sent (`LockedOut`).

## Model

| member | source | states |
|---|---|---|
| `MissileStatus.Exploded` | lab06/main/missile.c:42-44 | after an explode request `explode_me` is set; state, type and position are untouched |
| `MissileStatus.ExplodeIdempotent` | lab06/main/missile.c:42-44 | two explode requests leave the same record as one |
| `MissileStatus.Missile.Explode` | lab06/main/missile.c:42-44 | the method may write only `explode_me`, and leaves the record `Exploded` describes |
| `MissileStatus.Missile.GetPos` | lab06/main/missile.c:52-55 | returns exactly `(x_current, y_current)` and changes nothing |
| `MissileStatus.Missile.GetType` | lab06/main/missile.c:58-60 | returns the `type` field and changes nothing |
| `MissileStatus.Missile.IsColliding` | lab06/main/missile.c:84-91 | a collision is only ever reported for an exploding missile, as the doc comment requires |
| `MissileStatus.CollisionStub` | lab06/main/missile.c:88-91 | as written, no point collides with any missile |
| `MissileStatus.Missile.IsMoving` | lab06/main/missile.c:63-65 | the moving query; with the three others it is exclusive and covering (see `StatusExclusive`, `StatusCovers`) |
| `MissileStatus.Missile.IsExploding` | lab06/main/missile.c:69-72 | the exploding query, true in both explosion states (see `StatusCovers`) |
| `MissileStatus.Missile.IsIdle` | lab06/main/missile.c:75-77 | the idle query (see `StatusExclusive`) |
| `MissileStatus.Missile.IsImpacted` | lab06/main/missile.c:80-82 | the impacted query (see `StatusExclusive`) |
| `MissileStatus.StatusExclusive` | lab06/main/missile.c:63-82 | at most one of moving, exploding, idle and impacted holds; none holds in the init state |
| `MissileStatus.StatusCovers` | lab06/main/missile.c:69-72 | exploding iff the state is grow or shrink; outside init one of the four queries holds |
| `PlaneMachine.InitialState` | lab06/main/plane.c:36-42 | `plane_init` gives state INIT, x = LCD_H/4, y = LCD_W, no request and counter 16, which satisfies the reachability invariant |
| `PlaneMachine.Plane.Init` | lab06/main/plane.c:36-42 | the constructor sets exactly those fields; the missile argument is unused |
| `PlaneMachine.InitTick` | lab06/main/plane.c:55-84 | from INIT one tick always lands in IDLE with the counter one higher |
| `PlaneMachine.IdleTick` | lab06/main/plane.c:58-84 | an IDLE tick flies iff the counter is at least 16 at tick start; otherwise only the counter grows by one |
| `PlaneMachine.FlyExit` | lab06/main/plane.c:65-84 | a FLY tick lands in IDLE iff a request is pending or x <= 0; it then clears the request and leaves the counter at 1 |
| `PlaneMachine.FlyAdvance` | lab06/main/plane.c:85-91 | a tick ending in FLY moves x by one (wrapping at the int16 limit), keeps the counter and request, and draws the triangle at the new x |
| `PlaneMachine.YFixed` | lab06/main/plane.c:52-96 | no tick and no request changes y |
| `PlaneMachine.YFixedRun` | lab06/main/plane.c:52-96 | y stays the value `plane_init` set, over any sequence of calls |
| `PlaneMachine.ExplodeIdempotent` | lab06/main/plane.c:47-49 | an explode request sets only the flag; two equal one |
| `PlaneMachine.Plane.Explode` | lab06/main/plane.c:47-49 | the method writes only the request flag |
| `PlaneMachine.InvStep` | lab06/main/plane.c:52-96 | a tick or an explode request keeps the reachability invariant on the counter |
| `PlaneMachine.InvRun` | lab06/main/plane.c:52-96 | every reachable plane keeps the invariant, so the counter stays at most 17 and never wraps |
| `PlaneMachine.XNonDecreasing` | lab06/main/plane.c:86 | below the int16 limit, x never decreases and grows by at most one per call |
| `PlaneMachine.BoundaryExitNeedsWrap` | lab06/main/plane.c:66-69 | starting right of the boundary, until x wraps a flight ends only through an explode request |
| `PlaneMachine.IdleCountdown` | lab06/main/plane.c:58-84 | with no request, an idle plane counts one frame per tick until the gate opens |
| `PlaneMachine.TicksAdd` | lab06/main/plane.c:52-96 | m + n ticks are m ticks followed by n ticks |
| `PlaneMachine.TicksLast` | lab06/main/plane.c:52-96 | n + 1 ticks are n ticks followed by one more |
| `PlaneMachine.IdlePeriod` | lab06/main/plane.c:59-84 | after a flight ends, by an explode request or at the left boundary, the plane is idle for exactly 16 ticks and flies on the 17th |
| `PlaneMachine.Plane.Tick` | lab06/main/plane.c:52-96 | the two switches produce the state `Next` gives and return the triangle `Drawing` gives; y is unchanged |
| `PlaneMachine.Plane.GetPos` | lab06/main/plane.c:101-104 | returns exactly `(x_pos, y_pos)` and changes nothing |
| `PlaneMachine.Plane.Shoot` | lab06/main/plane.c:112-118 | the empty launch control changes nothing |
| `PlaneMachine.Plane.IsFlying` | lab06/main/plane.c:107-109 | true iff the state is FLY; changes nothing |
| `TicTacToe.DecodeRow` | lab05/main/game.c:106 | the received row is always in 0..15 |
| `TicTacToe.DecodeCol` | lab05/main/game.c:107 | the received column is always in 0..15 |
| `TicTacToe.CodecRoundTrip` | lab05/main/game.c:95-107 | a row and a column in 0..15 decode from their byte unchanged |
| `TicTacToe.CodecOnto` | lab05/main/game.c:95-107 | every byte is the encoding of the square it decodes to |
| `TicTacToe.Encode` | lab05/main/game.c:95 | the byte sent carries the row's low four bits in its high nibble and the column's low four bits in its low nibble |
| `TicTacToe.CodecTruncates` | lab05/main/game.c:95-107 | for every `int8` row and column, the receiver decodes the row and the column modulo 16 |
| `TicTacToe.SwitchTurn` | lab05/main/game.c:172-174 | the turn always changes |
| `TicTacToe.SwitchTurnInvolution` | lab05/main/game.c:172-174 | X goes to O and O to X; switching twice restores the turn |
| `TicTacToe.CheckEndGame` | lab05/main/game.c:203-215 | the game ends iff the current player has won or the mark count reaches the board size; a reported winner is the current player |
| `TicTacToe.EndGameDecision` | lab05/main/game.c:203-215 | the game is over iff the current player won or the board is full; a win is reported before a draw |
| `TicTacToe.Game.CheckEndGameNow` | lab05/main/game.c:203-215 | returns true iff `board_winner(current_turn)` or the mark count reaches `CONFIG_BOARD_SPACES` |
| `TicTacToe.FirstTicks` | lab05/main/game.c:74-169 | after `game_init`, and whatever the rest of the state, the first tick starts a new game with X to move and the receiver flushed; the second waits for a mark |
| `TicTacToe.WaitMarkAdvances` | lab05/main/game.c:89-115 | a wait-mark tick ends in mark or wait-mark, in mark iff the local press or the first received byte names a square `board_set` accepts |
| `TicTacToe.LocalMarkSends` | lab05/main/game.c:91-101 | a valid local press transmits the encoded square, skips `com_read`, and the mark is processed that tick |
| `TicTacToe.SendOnlyOnValidPress` | lab05/main/game.c:89-115 | a tick transmits one byte iff it is a valid local press in wait-mark, and nothing otherwise |
| `TicTacToe.RejectedPressWaits` | lab05/main/game.c:91-115 | a rejected press with no byte received stays in wait-mark and transmits nothing |
| `TicTacToe.MarkTick` | lab05/main/game.c:116-124 | from mark, a finished game goes to wait-restart with the turn kept; otherwise to wait-mark with the turn switched once |
| `TicTacToe.WaitRestartTick` | lab05/main/game.c:125-131 | wait-restart stays put until START reads low, then starts a new game |
| `TicTacToe.ProcessMarkClears` | lab05/main/game.c:177-184 | every tick ending in mark leaves `rec_flag` false, and no other tick clears it |
| `TicTacToe.StaleReceivedMove` | lab05/main/game.c:186-200 | after a rejected received move, the next local press validates the stale received square and, if accepted, sends back the received byte |
| `TicTacToe.LockedOut` | lab05/main/game.c:89-115 | while the board rejects the stale received square and no byte arrives, every tick stays in wait-mark with `rec_flag` set and sends nothing |
| `TicTacToe.LoadedInv` | lab05/main/game.c:52 | the statics start with `rec_flag` false |
| `TicTacToe.InvStep` | lab05/main/game.c:79-154 | a tick or an arrival keeps "`rec_flag` only while waiting for a mark" |
| `TicTacToe.InvRun` | lab05/main/game.c:79-154 | over any run `rec_flag` holds only in wait-mark, so it is false whenever the state is mark |
| `TicTacToe.TxStep` | lab05/main/game.c:95-96 | one call appends at most one byte to the link |
| `TicTacToe.TxGrows` | lab05/main/game.c:95-96 | over any run the transmitted bytes are only appended, at most one per call |
| `TicTacToe.Game.constructor` | lab05/main/game.c:41-76 | the statics as initialised, then `game_init` |
| `TicTacToe.Game.Init` | lab05/main/game.c:74-76 | `game_init` resets only the state |
| `TicTacToe.Game.ComRead` | lab05/main/game.c:103 | reads one byte into `rec_buf` iff one is waiting |
| `TicTacToe.Game.SetRc` | lab05/main/game.c:193-200 | `(r, c)` become the received square iff `rec_flag`, the navigator's otherwise |
| `TicTacToe.Game.CheckValidMark` | lab05/main/game.c:187-190 | `set_rc`, then returns `board_set` for that square and the current turn |
| `TicTacToe.Game.StartNewGame` | lab05/main/game.c:157-169 | the flush loop drains the receiver, leaving the last byte in `rec_buf`, and X is to move |
| `TicTacToe.Game.ProcessMark` | lab05/main/game.c:177-184 | clears `rec_flag` |
| `TicTacToe.Game.SwitchTurnOver` | lab05/main/game.c:172-174 | replaces the turn by the other player |
| `TicTacToe.Game.WaitMarkTick` | lab05/main/game.c:89-115 | the wait-mark branch produces the state `WaitMark` gives |
| `TicTacToe.Game.Tick` | lab05/main/game.c:79-154 | the two switches produce the state `Next` gives |
| `Stopwatch.APressRuns` | lab03/main/main.c:105-115 | with A low the watch runs after the call whatever B and START read |
| `Stopwatch.BPressStops` | lab03/main/main.c:107-115 | with A high and B low the watch stops and the count is unchanged |
| `Stopwatch.StartPressResets` | lab03/main/main.c:109-115 | with only START low the call ends stopped with count 0 |
| `Stopwatch.NoPressKeepsRunning` | lab03/main/main.c:105-113 | with no button pressed `running` keeps its value |
| `Stopwatch.TicksStep` | lab03/main/main.c:105-115 | after the button update the count grows by exactly one iff running; without a START reset it never decreases |
| `Stopwatch.IsrBookkeeping` | lab03/main/main.c:116-118 | `isr_max` becomes max(old, elapsed) and `isr_cnt` grows by one |
| `Stopwatch.ReportResets` | lab03/main/main.c:75-80 | at 500 calls the report check zeroes `isr_max` and `isr_cnt`, and below that it changes nothing |
| `Stopwatch.TicksMonotone` | lab03/main/main.c:105-115 | over any run without a START reset, below the uint64 limit, the count never decreases |
| `Stopwatch.IsrMaxOfCalls` | lab03/main/main.c:116-118 | over a run of calls `isr_max` is the largest duration (or its old value) and `isr_cnt` counts the calls |
| `Stopwatch.CountBounded` | lab03/main/main.c:73-80 | with the report check after every call, the call count stays below 500 |
| `Stopwatch.OrChain` | lab03/main/main.c:86-99 | a chain of calls joined by `||` is 0 iff every call returns 0, else 1; the calls made stop at the first nonzero result |
| `Stopwatch.PinInit` | lab03/main/main.c:86-99 | `pin_init` returns 0 iff all six pin calls succeed; every call before the last one made succeeded, and the last one made failed when the result is 1 |
| `Stopwatch.Watch.constructor` | lab03/main/main.c:11-23 | the globals start stopped, with all counters at zero |
| `Stopwatch.Watch.AlarmCallback` | lab03/main/main.c:102-120 | the callback produces the state `Alarmed` gives and asks for no context switch |
| `Stopwatch.Watch.ReportCheck` | lab03/main/main.c:75-80 | one main-loop pass produces the state `Reported` gives |

## Left out

- Missile init, the three launch functions and the missile tick: they are
  only declared in the source. That covers firing-position selection,
  random spawn, interpolation, radius growth and shrink, and the radius
  collision test.
- `MissileStatus.Missile.IsColliding`: the contract states only the
  doc comment's "must be exploding" half. The radius is not among the
  `missile_t` fields the shown code uses, so the "within the explosion
  radius" half has no field to refer to. The body is the stub that answers
  false.
- The plane's missile launch: `shoot` has an empty body, and `plane_init`
  ignores its missile argument.
- Drawing: the LCD silhouette is returned as a `Triangle` value. The game's
  messages and marks, `board_clear`, `lcd_fillScreen` and
  `graphics_drawGrid` are not modelled.
- `board_set`, `board_winner`, `board_mark_count`, `nav_get_loc` and
  `pin_get_level` are per-tick inputs, because their modules are not part
  of this model. `nav_set_loc` in `start_new_game` is an output to the
  navigator and is left out for the same reason.
- The values of `LCD_W`, `LCD_H`, `CONFIG_BOARD_SPACES` and the `mark_t`
  enumeration come from headers that are not part of this model. The
  dimensions and the board size are constructor parameters. `mark_t` is
  modelled as X or O. The zero-initialised `current_turn` is whatever turn
  the constructor is given; it is overwritten before its first use.
- `coord_t` is modelled as an unbounded integer, because its width is not
  shown.
- The serial link (`com_read`, `com_write`) is a queue of received bytes and
  a list of sent bytes. A read error (negative result) and short writes are
  not modelled.
- `TicTacToe.Encode`: in C, `r << BUF_SHIFT` with a negative `r` is undefined behaviour (game.c line 95). The model gives the two's complement wrap-around value.
- The timing and scheduling setup is not modelled: interrupts, `volatile`,
  gptimer, FreeRTOS, `esp_timer_get_time` and the logging calls. The alarm
  callback is one atomic step whose duration is an input; `watch_update` is
  display output.
- `lab01/main/main.c` (an LCD drawing demo) and `lab05/main/com.c` (UART
  driver wrappers) hold no logic to verify.
