/** The status layer of one missile slot: its record, the explode request and
    the read-only queries. Launch, init and tick have no body in the source and
    are not part of this module. */
module MissileStatus {

  /** The six states of the missile state machine, in declaration order. */
  datatype MissileState = InitSt | IdleSt | MoveSt | ExplodeGrowSt | ExplodeShrinkSt | ImpactSt

  /** Who fired the missile (the values live in a header that is not shown;
      these are the three kinds the launch functions name). */
  datatype MissileType = PlayerMissile | EnemyMissile | PlaneMissile

  /** The fields of `missile_t` that the shown code reads or writes. */
  datatype MissileView = MissileView(
    currentState: MissileState,
    missileType: MissileType,
    xCurrent: int,
    yCurrent: int,
    explodeMe: bool)

  /** The record after an explode request. */
  function Exploded(v: MissileView): (r: MissileView)
    ensures r.explodeMe
    ensures r.currentState == v.currentState && r.missileType == v.missileType
    ensures r.xCurrent == v.xCurrent && r.yCurrent == v.yCurrent
  {
    v.(explodeMe := true)
  }

  /** A second request before it is consumed is not observable. */
  lemma ExplodeIdempotent(v: MissileView)
    ensures Exploded(Exploded(v)) == Exploded(v)
  {
  }

  class Missile {
    var currentState: MissileState
    var missileType: MissileType
    var xCurrent: int
    var yCurrent: int
    var explodeMe: bool

    function View(): MissileView
      reads this
    {
      MissileView(currentState, missileType, xCurrent, yCurrent, explodeMe)
    }

    /** Flag the missile for detonation; the state machine consumes the flag. */
    method Explode()
      modifies this`explodeMe
      ensures View() == Exploded(old(View()))
    {
      explodeMe := true;
    }

    method GetPos() returns (x: int, y: int)
      ensures x == xCurrent && y == yCurrent
    {
      x := xCurrent;
      y := yCurrent;
    }

    method GetType() returns (t: MissileType)
      ensures t == missileType
    {
      t := missileType;
    }

    predicate IsMoving()
      reads this
    {
      currentState == MoveSt
    }

    /** An exploding missile can detonate another missile it intersects. */
    predicate IsExploding()
      reads this
    {
      currentState == ExplodeGrowSt || currentState == ExplodeShrinkSt
    }

    predicate IsIdle()
      reads this
    {
      currentState == IdleSt
    }

    predicate IsImpacted()
      reads this
    {
      currentState == ImpactSt
    }

    /** Whether an object at (x, y) collides with this missile. A collision
        needs an exploding missile; the body is still the stub that answers
        no for every missile and point. */
    function IsColliding(x: int, y: int): (r: bool)
      reads this
      ensures r ==> IsExploding()
    {
      false
    }
  }

  /** At most one of the four status queries holds, and none holds before the
      missile has left its init state. */
  lemma StatusExclusive(m: Missile)
    ensures !(m.IsMoving() && m.IsExploding()) && !(m.IsMoving() && m.IsIdle())
    ensures !(m.IsMoving() && m.IsImpacted()) && !(m.IsExploding() && m.IsIdle())
    ensures !(m.IsExploding() && m.IsImpacted()) && !(m.IsIdle() && m.IsImpacted())
    ensures m.currentState == InitSt ==>
      !m.IsMoving() && !m.IsExploding() && !m.IsIdle() && !m.IsImpacted()
  {
  }

  /** The exploding query is exactly the two explosion states, and one of the
      four queries holds in every state but init. */
  lemma StatusCovers(m: Missile)
    ensures m.IsExploding() <==>
      m.currentState in {ExplodeGrowSt, ExplodeShrinkSt}
    ensures m.currentState != InitSt ==>
      m.IsMoving() || m.IsExploding() || m.IsIdle() || m.IsImpacted()
  {
  }

  /** The stub as written: no point ever collides with any missile. */
  lemma CollisionStub(m: Missile, x: int, y: int)
    ensures !m.IsColliding(x, y)
  {
  }
}
