/** The plane's patrol state machine: an idle gate counted in frames, then a
    flight that advances one pixel per tick until an explode request or the
    left boundary brings it back to idle. */
module PlaneMachine {
  import opened Basics
  import MissileStatus

  /** Idle frames before the plane flies again. */
  const FramesOffscreen: uint8 := 16
  const LeftBoundary: int16 := 0
  /** Silhouette size in pixels. */
  const Length: int := 6
  const Height: int := 4

  datatype PlaneState = InitSt | IdleSt | FlySt

  datatype PlaneView = PlaneView(
    state: PlaneState,
    xPos: int16,
    yPos: int16,
    explodeFlag: bool,
    frameCounter: uint8)

  /** A white triangle request handed to the display. */
  datatype Triangle = Triangle(x0: int, y0: int, x1: int, y1: int, x2: int, y2: int)

  /** The state `plane_init` establishes, for a display `lcdW` wide and
      `lcdH` high: the start position is (LCD_H / 4, LCD_W) stored in int16. */
  function Initial(lcdW: nat, lcdH: nat): PlaneView
  {
    PlaneView(InitSt, ToI16(lcdH / 4), ToI16(lcdW), false, FramesOffscreen)
  }

  /** The first switch of the tick: choose the next state. */
  function Transition(v: PlaneView): PlaneView
  {
    match v.state
    case InitSt => v.(state := IdleSt)
    case IdleSt => if v.frameCounter >= FramesOffscreen then v.(state := FlySt) else v
    case FlySt =>
      if v.explodeFlag || v.xPos <= LeftBoundary
      then v.(frameCounter := 0, explodeFlag := false, state := IdleSt)
      else v
  }

  /** The second switch of the tick: the action of the state just entered.
      The uint8 counter and the int16 position wrap like their C types. */
  function Action(v: PlaneView): PlaneView
  {
    match v.state
    case InitSt => v
    case IdleSt => v.(frameCounter := ToU8(v.frameCounter as int + 1))
    case FlySt => v.(xPos := ToI16(v.xPos as int + 1))
  }

  function Next(v: PlaneView): PlaneView
  {
    Action(Transition(v))
  }

  /** What a tick ending in `after` draws: the silhouette while flying. */
  function Drawing(after: PlaneView): Option<Triangle>
  {
    if after.state == FlySt then
      var x, y := after.xPos as int, after.yPos as int;
      Some(Triangle(x, y, x + Length, y + Height / 2, x + Length, y - Height / 2))
    else None
  }

  function Exploded(v: PlaneView): PlaneView
  {
    v.(explodeFlag := true)
  }

  /** The calls a client makes on the plane. */
  datatype PlaneEvent = TickEv | ExplodeEv

  function Apply(v: PlaneView, e: PlaneEvent): PlaneView
  {
    match e
    case TickEv => Next(v)
    case ExplodeEv => Exploded(v)
  }

  /** The plane after a sequence of calls, applied from left to right. */
  function Run(v: PlaneView, evs: seq<PlaneEvent>): PlaneView
    decreases |evs|
  {
    if evs == [] then v else Run(Apply(v, evs[0]), evs[1..])
  }

  /** The plane after `n` ticks and no explode request. */
  function Ticks(v: PlaneView, n: nat): PlaneView
    decreases n
  {
    if n == 0 then v else Ticks(Next(v), n - 1)
  }

  /** The frame counter a reachable plane can hold in each state. */
  ghost predicate Inv(v: PlaneView)
  {
    && (v.state == InitSt ==> v.frameCounter == FramesOffscreen)
    && (v.state == IdleSt ==> 1 <= v.frameCounter <= FramesOffscreen + 1)
    && (v.state == FlySt ==> FramesOffscreen <= v.frameCounter <= FramesOffscreen + 1)
  }

  // ---------------------------------------------------------------------------
  // One tick

  lemma InitialState(lcdW: nat, lcdH: nat)
    requires lcdW < 0x8000 && lcdH < 0x2_0000
    ensures var v := Initial(lcdW, lcdH);
      v.state == InitSt && v.xPos as int == lcdH / 4 && v.yPos as int == lcdW
      && !v.explodeFlag && v.frameCounter == 16 && Inv(v)
  {
  }

  /** From init one tick always lands in idle with one more idle frame. */
  lemma InitTick(v: PlaneView)
    requires v.state == InitSt && v.frameCounter < 0xFF
    ensures Next(v) == v.(state := IdleSt, frameCounter := v.frameCounter + 1)
  {
  }

  /** An idle tick flies iff the gate is open at tick start; otherwise it only
      counts one more frame. */
  lemma IdleTick(v: PlaneView)
    requires v.state == IdleSt
    ensures Next(v).state == FlySt <==> v.frameCounter >= FramesOffscreen
    ensures v.frameCounter < FramesOffscreen ==>
      Next(v) == v.(frameCounter := v.frameCounter + 1)
  {
  }

  /** A flying tick with a pending request or at the boundary lands in idle
      with the request cleared and the counter restarted (0, then counted). */
  lemma FlyExit(v: PlaneView)
    requires v.state == FlySt
    ensures Next(v).state == IdleSt <==> v.explodeFlag || v.xPos <= LeftBoundary
    ensures Next(v).state == IdleSt ==>
      Next(v) == v.(state := IdleSt, explodeFlag := false, frameCounter := 1)
  {
  }

  /** Every tick ending in flight moves one pixel right (wrapping at the int16
      limit) and touches neither the counter nor the request, and draws the
      silhouette at the new position. */
  lemma FlyAdvance(v: PlaneView)
    requires Next(v).state == FlySt
    ensures Next(v) == v.(state := FlySt, xPos := ToI16(v.xPos as int + 1))
    ensures v.xPos < 0x7FFF ==> Next(v).xPos == v.xPos + 1
    ensures v.xPos == 0x7FFF ==> Next(v).xPos == -0x8000
    ensures Drawing(Next(v)).Some? && Drawing(Next(v)).value.x0 == Next(v).xPos as int
  {
  }

  /** No tick and no request moves the plane vertically. */
  lemma YFixed(v: PlaneView, e: PlaneEvent)
    ensures Apply(v, e).yPos == v.yPos
  {
  }

  lemma ExplodeIdempotent(v: PlaneView)
    ensures Exploded(Exploded(v)) == Exploded(v)
    ensures Exploded(v) == v.(explodeFlag := true)
  {
  }

  lemma InvStep(v: PlaneView, e: PlaneEvent)
    requires Inv(v)
    ensures Inv(Apply(v, e))
  {
  }

  // ---------------------------------------------------------------------------
  // Sequences of calls

  /** Every reachable plane keeps its counter within the idle gate's range;
      in particular the uint8 counter never wraps. */
  lemma {:induction false} InvRun(v: PlaneView, evs: seq<PlaneEvent>)
    requires Inv(v)
    ensures Inv(Run(v, evs))
    ensures Run(v, evs).frameCounter <= FramesOffscreen + 1
    decreases |evs|
  {
    if evs != [] {
      InvStep(v, evs[0]);
      InvRun(Apply(v, evs[0]), evs[1..]);
    }
  }

  /** The plane's height is the one `plane_init` set, whatever happens. */
  lemma {:induction false} YFixedRun(v: PlaneView, evs: seq<PlaneEvent>)
    ensures Run(v, evs).yPos == v.yPos
    decreases |evs|
  {
    if evs != [] {
      YFixedRun(Apply(v, evs[0]), evs[1..]);
    }
  }

  /** Before the int16 limit is reached the position never decreases: the
      position only moves right, and by at most one per call. */
  lemma {:induction false} XNonDecreasing(v: PlaneView, evs: seq<PlaneEvent>)
    requires v.xPos as int + |evs| <= 0x7FFF
    ensures v.xPos <= Run(v, evs).xPos
    ensures Run(v, evs).xPos as int <= v.xPos as int + |evs|
    decreases |evs|
  {
    if evs != [] {
      XNonDecreasing(Apply(v, evs[0]), evs[1..]);
    }
  }

  /** Starting right of the boundary, a flight ends only by an explode request
      as long as the position has not wrapped: the boundary exit is reachable
      only through int16 overflow. */
  lemma BoundaryExitNeedsWrap(v: PlaneView, evs: seq<PlaneEvent>, k: nat)
    requires v.xPos > LeftBoundary && v.xPos as int + |evs| <= 0x7FFF
    requires k < |evs| && evs[k] == TickEv
    requires Run(v, evs[..k]).state == FlySt
    requires Next(Run(v, evs[..k])).state == IdleSt
    ensures Run(v, evs[..k]).explodeFlag
  {
    XNonDecreasing(v, evs[..k]);
  }

  /** With no request, an idle plane counts up one frame per tick until the
      gate opens. */
  lemma {:induction false} IdleCountdown(v: PlaneView, n: nat)
    requires v.state == IdleSt && v.frameCounter as int + n <= FramesOffscreen as int
    ensures Ticks(v, n) == v.(frameCounter := v.frameCounter + n as uint8)
    decreases n
  {
    if n > 0 {
      IdleCountdown(Next(v), n - 1);
    }
  }

  lemma {:induction false} TicksAdd(v: PlaneView, m: nat, n: nat)
    ensures Ticks(v, m + n) == Ticks(Ticks(v, m), n)
    decreases m
  {
    if m > 0 {
      TicksAdd(Next(v), m - 1, n);
    }
  }

  /** One more tick after n ticks. */
  lemma {:induction false} TicksLast(v: PlaneView, n: nat)
    ensures Ticks(v, n + 1) == Next(Ticks(v, n))
    decreases n
  {
    if n > 0 {
      TicksLast(Next(v), n - 1);
    }
  }

  /** After a flight ends, by an explode request or at the boundary, the
      plane is idle for exactly sixteen ticks (the ending tick included) and
      flies on the seventeenth. */
  lemma IdlePeriod(v: PlaneView)
    requires v.state == FlySt && (v.explodeFlag || v.xPos <= LeftBoundary)
    ensures forall k :: 1 <= k <= 16 ==> Ticks(v, k).state == IdleSt
    ensures Ticks(v, 17).state == FlySt
  {
    var w := Next(v);
    assert w == v.(state := IdleSt, explodeFlag := false, frameCounter := 1);
    forall k | 1 <= k <= 16
      ensures Ticks(v, k).state == IdleSt
    {
      IdleCountdown(w, k - 1);
    }
    IdleCountdown(w, 15);
    TicksLast(v, 16);
  }

  // ---------------------------------------------------------------------------
  // The module-level state of the source, as an object

  class Plane {
    var state: PlaneState
    var xPos: int16
    var yPos: int16
    var explodeFlag: bool
    var frameCounter: uint8

    function View(): PlaneView
      reads this
    {
      PlaneView(state, xPos, yPos, explodeFlag, frameCounter)
    }

    /** `plane_init`; the missile the plane would relaunch is not used. */
    constructor Init(lcdW: nat, lcdH: nat, planeMissile: MissileStatus.Missile)
      ensures state == InitSt && xPos == ToI16(lcdH / 4) && yPos == ToI16(lcdW)
      ensures !explodeFlag && frameCounter == FramesOffscreen
      ensures View() == Initial(lcdW, lcdH) && Inv(View())
    {
      state := InitSt;
      xPos := ToI16(lcdH / 4);
      yPos := ToI16(lcdW);
      explodeFlag := false;
      frameCounter := FramesOffscreen;
    }

    method Explode()
      modifies this`explodeFlag
      ensures View() == Exploded(old(View()))
    {
      explodeFlag := true;
    }

    /** One frame: the transition switch, then the action switch; returns the
        triangle it draws, if any. */
    method Tick() returns (drawn: Option<Triangle>)
      modifies this
      ensures View() == Next(old(View()))
      ensures drawn == Drawing(View())
      ensures yPos == old(yPos)
    {
      match state {
        case InitSt =>
          state := IdleSt;
        case IdleSt =>
          if frameCounter >= FramesOffscreen {
            state := FlySt;
          } else {
            state := IdleSt;
          }
        case FlySt =>
          if explodeFlag || xPos <= LeftBoundary {
            frameCounter := 0;
            explodeFlag := false;
            state := IdleSt;
          } else {
            state := FlySt;
          }
      }

      drawn := None;
      match state {
        case InitSt =>
        case IdleSt =>
          frameCounter := ToU8(frameCounter as int + 1);
        case FlySt =>
          xPos := ToI16(xPos as int + 1);
          drawn := Some(Triangle(xPos as int, yPos as int,
                                 xPos as int + Length, yPos as int + Height / 2,
                                 xPos as int + Length, yPos as int - Height / 2));
          Shoot();
      }
    }

    /** Launch control; its body is empty, so no plane missile is ever fired. */
    method Shoot()
      ensures View() == old(View())
    {
    }

    method GetPos() returns (x: int16, y: int16)
      ensures x == xPos && y == yPos
    {
      x := xPos;
      y := yPos;
    }

    method IsFlying() returns (flying: bool)
      ensures flying <==> state == FlySt
    {
      flying := state == FlySt;
    }
  }
}
