/** The stopwatch's 100 Hz timer alarm: the buttons start, stop and reset the
    tick count, and every call is timed for a periodic report of the longest
    call. Also the button pins' initialisation result. */
module Stopwatch {
  import opened Basics

  /** Alarm calls between two reports of the longest call (5 s at 100 Hz). */
  const PrintIsrTimeDelay: int32 := 500

  /** The levels read from buttons A, B and START; a pressed button reads
      low (false). */
  datatype Levels = Levels(a: bool, b: bool, start: bool)

  /** The four globals the callback and the main loop share. */
  datatype WatchView = WatchView(running: bool, timerTicks: uint64, isrMax: int64, isrCnt: int32)

  /** The globals before the first alarm. */
  const Loaded: WatchView := WatchView(false, 0, 0, 0)

  /** The button update: A wins over B, B over START. */
  function Buttons(v: WatchView, lv: Levels): WatchView
  {
    if !lv.a then v.(running := true)
    else if !lv.b then v.(running := false)
    else if !lv.start then v.(running := false, timerTicks := 0)
    else v
  }

  /** A running watch counts one tick; the uint64 count wraps. */
  function Counted(v: WatchView): WatchView
  {
    if v.running then v.(timerTicks := ToU64(v.timerTicks as int + 1)) else v
  }

  /** The running maximum of the call's duration and the call count (an
      int32 that wraps). */
  function Timed(v: WatchView, elapsed: int64): WatchView
  {
    v.(isrMax := if elapsed >= v.isrMax then elapsed else v.isrMax,
       isrCnt := ToI32(v.isrCnt as int + 1))
  }

  /** One alarm call that took `elapsed` microseconds. */
  function Alarmed(v: WatchView, lv: Levels, elapsed: int64): WatchView
  {
    Timed(Counted(Buttons(v, lv)), elapsed)
  }

  /** One pass of the main loop's report check. */
  function Reported(v: WatchView): WatchView
  {
    if v.isrCnt >= PrintIsrTimeDelay then v.(isrMax := 0, isrCnt := 0) else v
  }

  function Max(a: int64, b: int64): int64
  {
    if a >= b then a else b
  }

  // ---------------------------------------------------------------------------
  // One alarm call

  lemma APressRuns(v: WatchView, lv: Levels, elapsed: int64)
    requires !lv.a
    ensures Alarmed(v, lv, elapsed).running
    ensures Alarmed(v, lv, elapsed).timerTicks == ToU64(v.timerTicks as int + 1)
  {
  }

  lemma BPressStops(v: WatchView, lv: Levels, elapsed: int64)
    requires lv.a && !lv.b
    ensures !Alarmed(v, lv, elapsed).running
    ensures Alarmed(v, lv, elapsed).timerTicks == v.timerTicks
  {
  }

  lemma StartPressResets(v: WatchView, lv: Levels, elapsed: int64)
    requires lv.a && lv.b && !lv.start
    ensures !Alarmed(v, lv, elapsed).running && Alarmed(v, lv, elapsed).timerTicks == 0
  {
  }

  lemma NoPressKeepsRunning(v: WatchView, lv: Levels, elapsed: int64)
    requires lv.a && lv.b && lv.start
    ensures Alarmed(v, lv, elapsed).running == v.running
  {
  }

  /** After the button update the count grows by exactly one iff the watch
      runs, and below the uint64 limit it shrinks only by a START reset. */
  lemma TicksStep(v: WatchView, lv: Levels, elapsed: int64)
    requires v.timerTicks as int + 1 < 0x1_0000_0000_0000_0000
    ensures var b, w := Buttons(v, lv), Alarmed(v, lv, elapsed);
      (w.timerTicks as int == b.timerTicks as int + 1 <==> w.running)
      && (!w.running ==> w.timerTicks == b.timerTicks)
    ensures !(lv.a && lv.b && !lv.start) ==> Alarmed(v, lv, elapsed).timerTicks >= v.timerTicks
  {
  }

  lemma IsrBookkeeping(v: WatchView, lv: Levels, elapsed: int64)
    ensures Alarmed(v, lv, elapsed).isrMax == Max(v.isrMax, elapsed)
    ensures Alarmed(v, lv, elapsed).isrMax >= v.isrMax && Alarmed(v, lv, elapsed).isrMax >= elapsed
    ensures v.isrCnt < 0x7FFF_FFFF ==> Alarmed(v, lv, elapsed).isrCnt == v.isrCnt + 1
  {
  }

  lemma ReportResets(v: WatchView)
    ensures v.isrCnt >= PrintIsrTimeDelay ==> Reported(v) == v.(isrMax := 0, isrCnt := 0)
    ensures v.isrCnt < PrintIsrTimeDelay ==> Reported(v) == v
    ensures Reported(v).running == v.running && Reported(v).timerTicks == v.timerTicks
  {
  }

  // ---------------------------------------------------------------------------
  // Runs of alarm calls and main-loop passes

  datatype WatchEvent = AlarmEv(levels: Levels, elapsed: int64) | LoopEv

  function Apply(v: WatchView, e: WatchEvent): WatchView
  {
    match e
    case AlarmEv(lv, elapsed) => Alarmed(v, lv, elapsed)
    case LoopEv => Reported(v)
  }

  function Run(v: WatchView, evs: seq<WatchEvent>): WatchView
    decreases |evs|
  {
    if evs == [] then v else Run(Apply(v, evs[0]), evs[1..])
  }

  /** An alarm call with only START pressed: the one way back to zero. */
  predicate IsReset(e: WatchEvent)
  {
    e.AlarmEv? && e.levels.a && e.levels.b && !e.levels.start
  }

  /** Without a START reset, and below the uint64 limit, the tick count never
      decreases, whatever the report check does. */
  lemma {:induction false} TicksMonotone(v: WatchView, evs: seq<WatchEvent>)
    requires forall i :: 0 <= i < |evs| ==> !IsReset(evs[i])
    requires v.timerTicks as int + |evs| < 0x1_0000_0000_0000_0000
    ensures v.timerTicks <= Run(v, evs).timerTicks
    ensures Run(v, evs).timerTicks as int <= v.timerTicks as int + |evs|
    decreases |evs|
  {
    if evs != [] {
      var w := Apply(v, evs[0]);
      assert v.timerTicks <= w.timerTicks && w.timerTicks as int <= v.timerTicks as int + 1;
      TicksMonotone(w, evs[1..]);
    }
  }

  /** The largest of a non-empty list of durations. */
  function MaxOf(ds: seq<int64>): (m: int64)
    requires ds != []
    ensures forall i :: 0 <= i < |ds| ==> ds[i] <= m
    ensures exists i :: 0 <= i < |ds| && ds[i] == m
    decreases |ds|
  {
    if |ds| == 1 then ds[0]
    else
      var rest := MaxOf(ds[1..]);
      assert forall i :: 1 <= i < |ds| ==> ds[i] == ds[1..][i - 1];
      if ds[0] >= rest then ds[0] else rest
  }

  function Alarms(lvs: seq<Levels>, ds: seq<int64>): (evs: seq<WatchEvent>)
    requires |lvs| == |ds|
    ensures |evs| == |ds|
    ensures forall i :: 0 <= i < |ds| ==> evs[i] == AlarmEv(lvs[i], ds[i])
    decreases |ds|
  {
    if ds == [] then [] else [AlarmEv(lvs[0], ds[0])] + Alarms(lvs[1..], ds[1..])
  }

  /** Between two resets by the report check, `isr_max` is the longest of the
      calls (or its old value) and `isr_cnt` counts them. */
  lemma {:induction false} IsrMaxOfCalls(v: WatchView, lvs: seq<Levels>, ds: seq<int64>)
    requires |lvs| == |ds| && ds != []
    requires v.isrCnt as int + |ds| < 0x8000_0000 && 0 <= v.isrCnt
    ensures Run(v, Alarms(lvs, ds)).isrMax == Max(v.isrMax, MaxOf(ds))
    ensures Run(v, Alarms(lvs, ds)).isrCnt as int == v.isrCnt as int + |ds|
    decreases |ds|
  {
    var w := Apply(v, AlarmEv(lvs[0], ds[0]));
    assert w.isrMax == Max(v.isrMax, ds[0]) && w.isrCnt == v.isrCnt + 1;
    assert Alarms(lvs, ds)[1..] == Alarms(lvs[1..], ds[1..]);
    if |ds| > 1 {
      IsrMaxOfCalls(w, lvs[1..], ds[1..]);
      assert MaxOf(ds) == Max(ds[0], MaxOf(ds[1..]));
    }
  }

  /** When the main loop runs after every alarm, the call count stays within
      the report period and never wraps. */
  lemma CountBounded(v: WatchView, lv: Levels, elapsed: int64)
    requires 0 <= v.isrCnt < PrintIsrTimeDelay
    ensures 0 <= Reported(Alarmed(v, lv, elapsed)).isrCnt < PrintIsrTimeDelay
  {
  }

  // ---------------------------------------------------------------------------
  // Button pin initialisation

  datatype Pin = BtnA | BtnB | BtnStart

  /** `pin_reset(pin)` or `pin_input(pin, pullUp)`. */
  datatype PinCall = PinReset(pin: Pin) | PinInput(pin: Pin, pullUp: bool)

  /** The calls `pin_init` chains with `||`, in order. */
  const PinInitCalls: seq<PinCall> := [
    PinReset(BtnA), PinInput(BtnA, true),
    PinReset(BtnB), PinInput(BtnB, true),
    PinReset(BtnStart), PinInput(BtnStart, true)]

  /** The value of a `||` chain (0 or 1) and the calls it actually made. */
  datatype OrResult = OrResult(value: uint8, made: seq<PinCall>)

  /** C's `||` over the results `result` gives for each call: evaluation
      stops at the first nonzero result. */
  function OrChain(calls: seq<PinCall>, result: PinCall -> int): (r: OrResult)
    ensures r.value == 0 || r.value == 1
    ensures r.value == 0 <==> forall i :: 0 <= i < |calls| ==> result(calls[i]) == 0
    ensures r.made <= calls
    ensures forall i :: 0 <= i < |r.made| - 1 ==> result(r.made[i]) == 0
    ensures r.value == 0 ==> r.made == calls
    ensures r.value == 1 ==> r.made != [] && result(r.made[|r.made| - 1]) != 0
    decreases |calls|
  {
    if calls == [] then OrResult(0, [])
    else if result(calls[0]) != 0 then OrResult(1, [calls[0]])
    else
      var rest := OrChain(calls[1..], result);
      assert forall i :: 1 <= i < |calls| ==> calls[i] == calls[1..][i - 1];
      OrResult(rest.value, [calls[0]] + rest.made)
  }

  /** `pin_init`: 0 iff every pin call succeeds; the calls after the first
      failure are not made. */
  function PinInit(result: PinCall -> int): (r: OrResult)
    ensures r.value == 0 <==> forall i :: 0 <= i < 6 ==> result(PinInitCalls[i]) == 0
    ensures r.value == 0 || r.value == 1
    ensures r.made <= PinInitCalls && (r.value == 0 ==> |r.made| == 6)
    ensures forall i :: 0 <= i < |r.made| - 1 ==> result(r.made[i]) == 0
    ensures r.value == 1 ==> r.made != [] && result(r.made[|r.made| - 1]) != 0
  {
    OrChain(PinInitCalls, result)
  }

  // ---------------------------------------------------------------------------
  // The globals, as an object

  class Watch {
    var running: bool
    var timerTicks: uint64
    var isrMax: int64
    var isrCnt: int32

    function View(): WatchView
      reads this
    {
      WatchView(running, timerTicks, isrMax, isrCnt)
    }

    constructor ()
      ensures View() == Loaded
    {
      running, timerTicks, isrMax, isrCnt := false, 0, 0, 0;
    }

    /** `timer_on_alarm_cb` for a call that took `elapsed` microseconds; its
        result asks for no context switch. */
    method AlarmCallback(lv: Levels, elapsed: int64) returns (yieldNeeded: bool)
      modifies this
      ensures View() == Alarmed(old(View()), lv, elapsed)
      ensures !yieldNeeded
    {
      if !lv.a {
        running := true;
      } else if !lv.b {
        running := false;
      } else if !lv.start {
        running := false;
        timerTicks := 0;
      }
      if running {
        timerTicks := ToU64(timerTicks as int + 1);
      }
      isrMax := if elapsed >= isrMax then elapsed else isrMax;
      isrCnt := ToI32(isrCnt as int + 1);
      yieldNeeded := false;
    }

    /** One pass of the main loop's report check. */
    method ReportCheck()
      modifies this`isrMax, this`isrCnt
      ensures View() == Reported(old(View()))
    {
      if isrCnt >= PrintIsrTimeDelay {
        isrMax := 0;
        isrCnt := 0;
      }
    }
  }
}
