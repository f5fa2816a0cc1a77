/** The tic-tac-toe turn controller of a two-board game: a five-state tick
    machine, the turn switch, and the one-byte row/column message that carries
    a move over the serial link. The board, the navigator and the buttons are
    outside the model; each tick receives what they would answer. */
module TicTacToe {
  import opened Basics

  /** One byte on the serial link, as the uint8 buffers hold it. */
  type Byte = uint8

  datatype Mark = X | O

  datatype GameState = InitSt | NewGameSt | WaitMarkSt | MarkSt | WaitRestartSt

  // ---------------------------------------------------------------------------
  // The move codec (BUF_SHIFT = 4, R_HEX = 0xF0, C_HEX = 0x0F). On a byte,
  // masking with 0xF0 and shifting right by 4 is division by 16, and masking
  // with 0x0F is the remainder modulo 16; on a two's complement `int8` the
  // mask 0x0F is the remainder modulo 16 too, and a shift left by 4 is a
  // multiplication by 16.

  /** `send_buf = (r << BUF_SHIFT) + (c & C_HEX)`: the row in the high nibble,
      the column's low four bits in the low nibble, truncated to the uint8
      buffer. */
  function Encode(r: int8, c: int8): (b: Byte)
    ensures DecodeRow(b) as int == r as int % 16 && DecodeCol(b) as int == c as int % 16
  {
    ToU8(r as int * 16 + (c as int) % 16)
  }

  /** `(rec_buf & R_HEX) >> BUF_SHIFT`, stored in the int8 `r_rec`. */
  function DecodeRow(b: Byte): (r: int8)
    ensures 0 <= r < 16
  {
    (b / 16) as int8
  }

  /** `rec_buf & C_HEX`, stored in the int8 `c_rec`. */
  function DecodeCol(b: Byte): (c: int8)
    ensures 0 <= c < 16
  {
    (b % 16) as int8
  }

  /** Rows and columns up to 15 survive the trip over the link. */
  lemma CodecRoundTrip(r: int8, c: int8)
    requires 0 <= r < 16 && 0 <= c < 16
    ensures DecodeRow(Encode(r, c)) == r && DecodeCol(Encode(r, c)) == c
  {
    assert Encode(r, c) as int == r as int * 16 + c as int;
  }

  /** Every byte is the encoding of the move it decodes to, so decoding is
      one-to-one on bytes. */
  lemma CodecOnto(b: Byte)
    ensures Encode(DecodeRow(b), DecodeCol(b)) == b
  {
    assert (b / 16) as int * 16 + (b % 16) as int == b as int;
  }

  /** Only the low four bits of the row and of the column reach the other
      board: a row outside 0..15 loses its high bits, and a negative column
      keeps its two's complement low nibble. */
  lemma CodecTruncates(r: int8, c: int8)
    ensures DecodeRow(Encode(r, c)) as int == r as int % 16
    ensures DecodeCol(Encode(r, c)) as int == c as int % 16
  {
  }

  // ---------------------------------------------------------------------------
  // Turns and the end of a game

  /** X hands over to O; any other turn hands over to X. */
  function SwitchTurn(t: Mark): (s: Mark)
    ensures s != t
  {
    if t == X then O else X
  }

  lemma SwitchTurnInvolution(t: Mark)
    ensures SwitchTurn(SwitchTurn(t)) == t
    ensures SwitchTurn(X) == O && SwitchTurn(O) == X
  {
  }

  /** What the board answers during one tick: whether `board_set` accepts a
      mark at a square, whether a player has three in a row, and how many
      squares are marked. */
  datatype Board = Board(trySet: (int8, int8, Mark) -> bool, winner: Mark -> bool, markCount: int)

  /** The message `check_end_game` puts on screen. */
  datatype EndGame = Won(player: Mark) | Drawn | Continues

  /** The win test comes first, then the full-board test. */
  function CheckEndGame(turn: Mark, board: Board, spaces: int): (e: EndGame)
    ensures e.Won? ==> e.player == turn
    ensures !e.Continues? <==> board.winner(turn) || board.markCount >= spaces
  {
    if board.winner(turn) then Won(turn)
    else if board.markCount >= spaces then Drawn
    else Continues
  }

  predicate IsOver(e: EndGame)
  {
    !e.Continues?
  }

  lemma EndGameDecision(turn: Mark, board: Board, spaces: int)
    ensures IsOver(CheckEndGame(turn, board, spaces)) <==>
      board.winner(turn) || board.markCount >= spaces
    ensures CheckEndGame(turn, board, spaces) == Won(turn) <==> board.winner(turn)
    ensures CheckEndGame(turn, board, spaces) == Drawn <==>
      !board.winner(turn) && board.markCount >= spaces
  {
  }

  // ---------------------------------------------------------------------------
  // The controller's state and one tick

  /** The file's static variables, plus the bytes waiting in the serial
      receiver (`rx`) and the bytes written to it (`tx`). */
  datatype GameView = GameView(
    state: GameState,
    turn: Mark,
    r: int8,
    c: int8,
    rRec: int8,
    cRec: int8,
    recFlag: bool,
    recBuf: Byte,
    sendBuf: Byte,
    rx: seq<Byte>,
    tx: seq<Byte>)

  /** The inputs of one tick: the levels of buttons A and START (pressed reads
      low), the navigator's location and the board's answers. */
  datatype Inputs = Inputs(aLevel: bool, startLevel: bool, navR: int8, navC: int8, board: Board)

  /** The statics before the first tick: the zero initialisers, `rec_flag`
      false, an empty link, and whatever turn the zeroed `current_turn`
      denotes. */
  function Loaded(turn0: Mark): GameView
  {
    GameView(InitSt, turn0, 0, 0, 0, 0, false, 0, 0, [], [])
  }

  /** The square `set_rc` picks: the received one iff a byte has been
      received, the navigator's otherwise. */
  function Target(v: GameView, io: Inputs): (int8, int8)
  {
    if v.recFlag then (v.rRec, v.cRec) else (io.navR, io.navC)
  }

  /** The effect of `set_rc` (and so of `check_valid_mark`) on the statics. */
  function WithRc(v: GameView, io: Inputs): GameView
  {
    v.(r := Target(v, io).0, c := Target(v, io).1)
  }

  /** The result of `check_valid_mark`. */
  predicate ValidMark(v: GameView, io: Inputs)
  {
    io.board.trySet(Target(v, io).0, Target(v, io).1, v.turn)
  }

  /** The static state after `start_new_game`: the receiver drained into
      `rec_buf` and X to move. */
  function NewGameStarted(v: GameView): GameView
  {
    v.(rx := [], recBuf := if v.rx == [] then v.recBuf else v.rx[|v.rx| - 1], turn := X)
  }

  function MarkProcessed(v: GameView): GameView
  {
    v.(recFlag := false)
  }

  /** The wait-mark transition: a local press that validates is sent and wins
      the tick; otherwise one received byte, if any, is tried. */
  function WaitMark(v: GameView, io: Inputs): GameView
  {
    if !io.aLevel && ValidMark(v, io) then
      var w := WithRc(v, io);
      var b := Encode(w.r, w.c);
      w.(sendBuf := b, tx := w.tx + [b], state := MarkSt)
    else
      var w := if !io.aLevel then WithRc(v, io) else v;
      if w.rx == [] then w.(state := WaitMarkSt)
      else
        var b := w.rx[0];
        var u := w.(recBuf := b, rx := w.rx[1..], recFlag := true,
                    rRec := DecodeRow(b), cRec := DecodeCol(b));
        WithRc(u, io).(state := if ValidMark(u, io) then MarkSt else WaitMarkSt)
  }

  function Transition(v: GameView, io: Inputs, spaces: int): GameView
  {
    match v.state
    case InitSt => v.(state := NewGameSt)
    case NewGameSt => v.(state := WaitMarkSt)
    case WaitMarkSt => WaitMark(v, io)
    case MarkSt =>
      if IsOver(CheckEndGame(v.turn, io.board, spaces)) then v.(state := WaitRestartSt)
      else v.(state := WaitMarkSt, turn := SwitchTurn(v.turn))
    case WaitRestartSt => if !io.startLevel then v.(state := NewGameSt) else v
  }

  function Action(v: GameView): GameView
  {
    match v.state
    case NewGameSt => NewGameStarted(v)
    case MarkSt => MarkProcessed(v)
    case _ => v
  }

  function Next(v: GameView, io: Inputs, spaces: int): GameView
  {
    Action(Transition(v, io, spaces))
  }

  // ---------------------------------------------------------------------------
  // Properties of one tick

  /** From `game_init`, after any history and with any bytes pending, the
      first tick starts a game with X to move and the receiver flushed; the
      second waits for a mark. */
  lemma FirstTicks(v: GameView, io1: Inputs, io2: Inputs, spaces: int)
    requires v.state == InitSt
    ensures var v1 := Next(v, io1, spaces);
      v1.state == NewGameSt && v1.turn == X && v1.rx == [] &&
      Next(v1, io2, spaces).state == WaitMarkSt && Next(v1, io2, spaces).turn == X
  {
  }

  /** A wait-mark tick marks exactly when the local press or the first
      received byte names a square the board accepts. */
  lemma WaitMarkAdvances(v: GameView, io: Inputs, spaces: int)
    requires v.state == WaitMarkSt
    ensures Next(v, io, spaces).state in {WaitMarkSt, MarkSt}
    ensures Next(v, io, spaces).state == MarkSt <==>
      (!io.aLevel && ValidMark(v, io)) ||
      (v.rx != [] && io.board.trySet(DecodeRow(v.rx[0]), DecodeCol(v.rx[0]), v.turn))
  {
  }

  /** A valid local press sends the encoded square, leaves the receiver
      untouched, and the mark is processed in the same tick. */
  lemma LocalMarkSends(v: GameView, io: Inputs, spaces: int)
    requires v.state == WaitMarkSt && !io.aLevel && ValidMark(v, io)
    ensures var w := Next(v, io, spaces);
      w.state == MarkSt && w.tx == v.tx + [Encode(Target(v, io).0, Target(v, io).1)]
      && w.rx == v.rx && w.recBuf == v.recBuf && !w.recFlag && w.turn == v.turn
  {
  }

  /** Only a valid local press writes to the link. */
  lemma SendOnlyOnValidPress(v: GameView, io: Inputs, spaces: int)
    ensures Next(v, io, spaces).tx ==
      if v.state == WaitMarkSt && !io.aLevel && ValidMark(v, io)
      then v.tx + [Encode(Target(v, io).0, Target(v, io).1)] else v.tx
  {
  }

  /** A rejected press with nothing received keeps waiting and sends nothing. */
  lemma RejectedPressWaits(v: GameView, io: Inputs, spaces: int)
    requires v.state == WaitMarkSt && !io.aLevel && !ValidMark(v, io) && v.rx == []
    ensures var w := Next(v, io, spaces);
      w.state == WaitMarkSt && w.tx == v.tx && w.rx == []
  {
  }

  /** From mark: a finished game waits for a restart with the turn kept;
      otherwise the other player is up. */
  lemma MarkTick(v: GameView, io: Inputs, spaces: int)
    requires v.state == MarkSt
    ensures var w := Next(v, io, spaces);
      if io.board.winner(v.turn) || io.board.markCount >= spaces
      then w.state == WaitRestartSt && w.turn == v.turn
      else w.state == WaitMarkSt && w.turn == SwitchTurn(v.turn)
  {
  }

  /** A finished game waits until START reads low, then starts a new one. */
  lemma WaitRestartTick(v: GameView, io: Inputs, spaces: int)
    requires v.state == WaitRestartSt
    ensures io.startLevel ==> Next(v, io, spaces) == v
    ensures !io.startLevel ==> Next(v, io, spaces) == NewGameStarted(v.(state := NewGameSt))
    ensures !io.startLevel ==> Next(v, io, spaces).turn == X && Next(v, io, spaces).rx == []
  {
  }

  /** The received flag is cleared only by processing a mark. */
  lemma ProcessMarkClears(v: GameView, io: Inputs, spaces: int)
    ensures Next(v, io, spaces).state == MarkSt ==> !Next(v, io, spaces).recFlag
    ensures v.recFlag && Next(v, io, spaces).state != MarkSt ==> Next(v, io, spaces).recFlag
  {
  }

  /** A rejected received move leaves the flag set, so the next local press
      validates the stale received square instead of the navigator's, and if
      the board takes it the press sends back the very byte that came in. */
  lemma StaleReceivedMove(v: GameView, b: Byte, io1: Inputs, io2: Inputs, spaces: int)
    requires v.state == WaitMarkSt && v.rx == [b] && io1.aLevel
    requires !io1.board.trySet(DecodeRow(b), DecodeCol(b), v.turn)
    requires !io2.aLevel
    ensures var w := Next(v, io1, spaces);
      w.state == WaitMarkSt && w.recFlag && Target(w, io2) == (DecodeRow(b), DecodeCol(b))
      && (io2.board.trySet(DecodeRow(b), DecodeCol(b), v.turn) ==>
            Next(w, io2, spaces).state == MarkSt && Next(w, io2, spaces).tx == v.tx + [b])
  {
    CodecOnto(b);
  }

  // ---------------------------------------------------------------------------
  // Runs

  /** What can happen between two observations: a tick, or bytes arriving. */
  datatype GameEvent = TickEv(io: Inputs) | ArriveEv(bytes: seq<Byte>)

  function Apply(v: GameView, e: GameEvent, spaces: int): GameView
  {
    match e
    case TickEv(io) => Next(v, io, spaces)
    case ArriveEv(bytes) => v.(rx := v.rx + bytes)
  }

  function Run(v: GameView, evs: seq<GameEvent>, spaces: int): GameView
    decreases |evs|
  {
    if evs == [] then v else Run(Apply(v, evs[0], spaces), evs[1..], spaces)
  }

  /** A pending received square exists only while waiting for a mark. */
  ghost predicate Inv(v: GameView)
  {
    v.recFlag ==> v.state == WaitMarkSt
  }

  lemma LoadedInv(turn0: Mark)
    ensures Inv(Loaded(turn0)) && !Loaded(turn0).recFlag
  {
  }

  lemma InvStep(v: GameView, e: GameEvent, spaces: int)
    requires Inv(v)
    ensures Inv(Apply(v, e, spaces))
  {
  }

  lemma {:induction false} InvRun(v: GameView, evs: seq<GameEvent>, spaces: int)
    requires Inv(v)
    ensures Inv(Run(v, evs, spaces))
    ensures Run(v, evs, spaces).state == MarkSt ==> !Run(v, evs, spaces).recFlag
    decreases |evs|
  {
    if evs != [] {
      InvStep(v, evs[0], spaces);
      InvRun(Apply(v, evs[0], spaces), evs[1..], spaces);
    }
  }

  lemma TxStep(v: GameView, e: GameEvent, spaces: int)
    ensures v.tx <= Apply(v, e, spaces).tx
    ensures |Apply(v, e, spaces).tx| <= |v.tx| + 1
  {
    if e.TickEv? {
      SendOnlyOnValidPress(v, e.io, spaces);
    }
  }

  /** The other side of the stale-flag quirk: while the board keeps rejecting
      the stale received square and no byte arrives, the local player is
      locked out: every tick waits, the flag stays set, nothing is sent. */
  lemma {:induction false} LockedOut(v: GameView, evs: seq<GameEvent>, spaces: int)
    requires v.state == WaitMarkSt && v.recFlag && v.rx == []
    requires forall i :: 0 <= i < |evs| ==>
      evs[i].TickEv? && !evs[i].io.board.trySet(v.rRec, v.cRec, v.turn)
    ensures var w := Run(v, evs, spaces);
      w.state == WaitMarkSt && w.recFlag && w.tx == v.tx && w.rx == []
      && w.turn == v.turn && w.rRec == v.rRec && w.cRec == v.cRec
    decreases |evs|
  {
    if evs != [] {
      var w := Apply(v, evs[0], spaces);
      assert w.state == WaitMarkSt && w.recFlag && w.tx == v.tx && w.rx == []
        && w.turn == v.turn && w.rRec == v.rRec && w.cRec == v.cRec;
      assert forall i :: 0 <= i < |evs[1..]| ==> evs[1..][i] == evs[i + 1];
      LockedOut(w, evs[1..], spaces);
    }
  }

  /** Bytes are only ever appended to the link. */
  lemma {:induction false} TxGrows(v: GameView, evs: seq<GameEvent>, spaces: int)
    ensures v.tx <= Run(v, evs, spaces).tx
    ensures |Run(v, evs, spaces).tx| <= |v.tx| + |evs|
    decreases |evs|
  {
    if evs != [] {
      TxStep(v, evs[0], spaces);
      TxGrows(Apply(v, evs[0], spaces), evs[1..], spaces);
    }
  }

  // ---------------------------------------------------------------------------
  // The file's static state, as an object

  class Game {
    var state: GameState
    var turn: Mark
    var r: int8
    var c: int8
    var rRec: int8
    var cRec: int8
    var recFlag: bool
    var recBuf: Byte
    var sendBuf: Byte
    var rx: seq<Byte>
    var tx: seq<Byte>
    /** CONFIG_BOARD_SPACES. */
    const spaces: int

    function View(): GameView
      reads this
    {
      GameView(state, turn, r, c, rRec, cRec, recFlag, recBuf, sendBuf, rx, tx)
    }

    /** The statics as loaded, then `game_init`. */
    constructor (boardSpaces: int, turn0: Mark)
      ensures View() == Loaded(turn0) && spaces == boardSpaces
    {
      state, turn := InitSt, turn0;
      r, c, rRec, cRec := 0, 0, 0, 0;
      recFlag := false;
      recBuf, sendBuf := 0, 0;
      rx, tx := [], [];
      spaces := boardSpaces;
    }

    /** `game_init`: only the state is reset. */
    method Init()
      modifies this`state
      ensures View() == old(View()).(state := InitSt)
    {
      state := InitSt;
    }

    /** Bytes the other board sends reach the receiver buffer. */
    method Arrive(bytes: seq<Byte>)
      modifies this`rx
      ensures View() == Apply(old(View()), ArriveEv(bytes), spaces)
    {
      rx := rx + bytes;
    }

    /** `com_read` of one byte: reports whether a byte was there. */
    method ComRead() returns (got: bool)
      modifies this`rx, this`recBuf
      ensures got <==> old(rx) != []
      ensures got ==> recBuf == old(rx)[0] && rx == old(rx)[1..]
      ensures !got ==> recBuf == old(recBuf) && rx == old(rx)
    {
      got := rx != [];
      if got {
        recBuf := rx[0];
        rx := rx[1..];
      }
    }

    method SetRc(io: Inputs)
      modifies this`r, this`c
      ensures View() == WithRc(old(View()), io)
    {
      if !recFlag {
        r, c := io.navR, io.navC;
      } else {
        r, c := rRec, cRec;
      }
    }

    method CheckValidMark(io: Inputs) returns (valid: bool)
      modifies this`r, this`c
      ensures View() == WithRc(old(View()), io)
      ensures valid == ValidMark(old(View()), io)
    {
      SetRc(io);
      valid := io.board.trySet(r, c, turn);
    }

    /** Drain the receiver, then hand the move to X. */
    method StartNewGame()
      modifies this`rx, this`recBuf, this`turn
      ensures View() == NewGameStarted(old(View()))
    {
      ghost var pending := rx;
      while true
        invariant View() == old(View()).(rx := rx, recBuf := recBuf)
        invariant |rx| <= |pending| && rx == pending[|pending| - |rx|..]
        invariant recBuf == if |rx| == |pending| then old(recBuf) else pending[|pending| - |rx| - 1]
        decreases |rx|
      {
        var got := ComRead();
        if !got {
          break;
        }
      }
      turn := X;
    }

    method ProcessMark()
      modifies this`recFlag
      ensures View() == MarkProcessed(old(View()))
    {
      recFlag := false;
    }

    method SwitchTurnOver()
      modifies this`turn
      ensures View() == old(View()).(turn := SwitchTurn(old(turn)))
    {
      turn := SwitchTurn(turn);
    }

    method CheckEndGameNow(board: Board) returns (over: bool)
      ensures over <==> board.winner(turn) || board.markCount >= spaces
    {
      over := IsOver(CheckEndGame(turn, board, spaces));
    }

    /** The wait-mark transition: a local press first, then a received move. */
    method WaitMarkTick(io: Inputs)
      modifies this
      ensures View() == WaitMark(old(View()), io)
    {
      var marked := false;
      if !io.aLevel {
        var valid := CheckValidMark(io);
        if valid {
          sendBuf := Encode(r, c);
          tx := tx + [sendBuf];
          state := MarkSt;
          marked := true;
        }
      }
      if !marked {
        var got := ComRead();
        if got {
          recFlag := true;
          rRec := DecodeRow(recBuf);
          cRec := DecodeCol(recBuf);
          var valid := CheckValidMark(io);
          if valid {
            state := MarkSt;
            marked := true;
          }
        }
        if !marked {
          state := WaitMarkSt;
        }
      }
    }

    /** One tick: the transition switch, then the action switch. */
    method Tick(io: Inputs)
      modifies this
      ensures View() == Next(old(View()), io, spaces)
    {
      match state {
        case InitSt =>
          state := NewGameSt;
        case NewGameSt =>
          state := WaitMarkSt;
        case WaitMarkSt =>
          WaitMarkTick(io);
        case MarkSt =>
          var over := CheckEndGameNow(io.board);
          if over {
            state := WaitRestartSt;
          } else {
            state := WaitMarkSt;
            SwitchTurnOver();
          }
        case WaitRestartSt =>
          if !io.startLevel {
            state := NewGameSt;
          } else {
            state := WaitRestartSt;
          }
      }

      match state {
        case NewGameSt =>
          StartNewGame();
        case MarkSt =>
          ProcessMark();
        case _ =>
      }
    }
  }
}
