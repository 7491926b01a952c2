/**
  The boss's battle phase controller as an object whose fields its procedures update
  in place. Every method does what the procedure of the same name does, and its
  postcondition ties the new field values to the transition of the same name in
  BossSpec applied to the old ones; the directives (Rpc...) are called directly, as
  they run on the authority role itself.
*/
module BossController {
  import opened BossSpec

  class Boss {
    // designer configuration
    const fireRemainCount: int
    const battleMoveMax: real

    var position: Vec3
    var needBattleMove: bool
    var battleMoveStartPos: Vec3
    var fireRemainCountPerOnetime: int
    var battleMoveLength: real
    var currentFireRotationZ: int
    var targetPosition: Vec3
    var currentSpeed: real
    var moveStartTime: real
    var lastActionUpdateTime: real

    function Cfg(): Config
    {
      Config(fireRemainCount, battleMoveMax)
    }

    /** The current values of the fields, as a BossSpec state. */
    function State(): BossState
      reads this
    {
      BossState(position, needBattleMove, battleMoveStartPos, fireRemainCountPerOnetime,
                battleMoveLength, currentFireRotationZ, targetPosition, currentSpeed,
                moveStartTime, lastActionUpdateTime)
    }

    /** A freshly spawned boss: in the firing phase, with every other field at its
        default, except the position and the sweep angle set in the scene. */
    constructor (fireRemainCount: int, battleMoveMax: real, position: Vec3, fireRotationZ: int)
      ensures Cfg() == Config(fireRemainCount, battleMoveMax)
      ensures State() == BossState(position, false, Vec3(0.0, 0.0, 0.0), 0, 0.0, fireRotationZ,
                                   Vec3(0.0, 0.0, 0.0), 0.0, 0.0, 0.0)
    {
      this.fireRemainCount := fireRemainCount;
      this.battleMoveMax := battleMoveMax;
      this.position := position;
      needBattleMove := false;
      battleMoveStartPos := Vec3(0.0, 0.0, 0.0);
      fireRemainCountPerOnetime := 0;
      battleMoveLength := 0.0;
      currentFireRotationZ := fireRotationZ;
      targetPosition := Vec3(0.0, 0.0, 0.0);
      currentSpeed := 0.0;
      moveStartTime := 0.0;
      lastActionUpdateTime := 0.0;
    }

    method SetBattleState()
      modifies this
      ensures State() == BossSpec.SetBattleState(Cfg(), old(State()))
      ensures !old(needBattleMove) && fireRemainCount >= 0 ==> ServerInv(Cfg(), State())
    {
      battleMoveStartPos := position;
      fireRemainCountPerOnetime := fireRemainCount;
      currentFireRotationZ := FireTransformRotationStart;
    }

    method UpdateBattle(t: Tick)
      requires DrawsInRange(Cfg(), t.rand, t.newMoveLength)
      requires t.travelled >= 0.0
      modifies this
      ensures State() == BossSpec.UpdateBattle(Cfg(), old(State()), t)
      ensures CounterInv(Cfg(), old(State())) ==> CounterInv(Cfg(), State())
      ensures t.isServer && ServerInv(Cfg(), old(State())) ==> ServerInv(Cfg(), State())
      ensures old(needBattleMove) ==> battleMoveLength <= old(battleMoveLength)
    {
      if needBattleMove {
        UpdateBattleMove(t);
      } else {
        if t.now - lastActionUpdateTime > ActionInterval {
          if fireRemainCountPerOnetime > 0 {
            // Fire() emits a shot through the base class and changes none of these fields
            RotateFireTransform(t.isServer);
            fireRemainCountPerOnetime := fireRemainCountPerOnetime - 1;
          } else {
            SetBattleMove(t.isServer, t.rand, t.newMoveLength, t.now);
          }
          lastActionUpdateTime := t.now;
        }
      }
    }

    method SetBattleMove(isServer: bool, rand: real, newMoveLength: real, now: real)
      requires DrawsInRange(Cfg(), rand, newMoveLength)
      modifies this
      ensures State() == BossSpec.SetBattleMove(Cfg(), old(State()), isServer, rand, newMoveLength, now)
      ensures isServer && battleMoveMax >= 0.0 ==> battleMoveMax <= battleMoveLength <= 3.0 * battleMoveMax
    {
      if !isServer {
        return;
      }
      var halfPingpongHeight := 0.0;
      if rand < 0.5 {
        halfPingpongHeight := battleMoveMax * 0.5;
      } else {
        halfPingpongHeight := -battleMoveMax * 0.5;
      }
      RpcSetBattleMove(halfPingpongHeight, newMoveLength, now);
    }

    method RpcSetBattleMove(halfPingpongHeight: real, newBattleMoveLength: real, now: real)
      modifies this
      ensures State() == BossSpec.RpcSetBattleMove(old(State()), halfPingpongHeight, newBattleMoveLength, now)
    {
      needBattleMove := true;
      targetPosition := battleMoveStartPos;
      targetPosition := targetPosition.(y := targetPosition.y + halfPingpongHeight);
      currentSpeed := 0.0;
      moveStartTime := now;
      battleMoveLength := newBattleMoveLength;
    }

    method UpdateBattleMove(t: Tick)
      requires needBattleMove
      requires t.travelled >= 0.0
      modifies this
      ensures State() == BossSpec.UpdateBattleMove(Cfg(), old(State()), t)
      ensures battleMoveLength <= old(battleMoveLength)
      ensures needBattleMove <==> !(t.isServer && battleMoveLength <= 0.0)
    {
      // UpdateSpeed() ramps the speed up; its outcome is handed in
      currentSpeed := t.speed;
      // Vector3.Distance(TargetPosition, position) == 0 exactly when the two coincide
      if targetPosition == position {
        if t.isServer {
          RpcChangeBattleMoveTarget();
        }
      }
      // Vector3.SmoothDamp moves the boss; its outcome and the distance from the old
      // position to the new one are handed in
      position := t.newPosition;
      battleMoveLength := battleMoveLength - t.travelled;
      if battleMoveLength <= 0.0 {
        SetBattleFire(t.isServer, t.now);
      }
    }

    method RpcChangeBattleMoveTarget()
      modifies this
      ensures State() == BossSpec.RpcChangeBattleMoveTarget(Cfg(), old(State()))
    {
      if targetPosition.y > battleMoveStartPos.y {
        targetPosition := targetPosition.(y := battleMoveStartPos.y - battleMoveMax * 0.5);
      } else {
        targetPosition := targetPosition.(y := battleMoveStartPos.y + battleMoveMax * 0.5);
      }
    }

    method SetBattleFire(isServer: bool, now: real)
      modifies this
      ensures State() == BossSpec.SetBattleFire(Cfg(), old(State()), isServer, now)
    {
      if isServer {
        RpcSetBattleFire(now);
      }
    }

    method RpcSetBattleFire(now: real)
      modifies this
      ensures State() == BossSpec.RpcSetBattleFire(Cfg(), old(State()), now)
    {
      needBattleMove := false;
      moveStartTime := now;
      fireRemainCountPerOnetime := fireRemainCount;
      currentFireRotationZ := FireTransformRotationStart;
    }

    method RotateFireTransform(isServer: bool)
      modifies this
      ensures State() == BossSpec.RotateFireTransform(old(State()), isServer)
    {
      if isServer {
        RpcRotateFireTransform();
      }
    }

    method RpcRotateFireTransform()
      modifies this
      ensures State() == BossSpec.RpcRotateFireTransform(old(State()))
    {
      currentFireRotationZ := currentFireRotationZ + FireTransformRotationInterval;
    }
  }

  /** A usage example on the authority role: a burst of three shots two seconds apart, then a
      move leg of length 20 towards start.y + 5 (rand < 0.5). The boss reaches the upper end,
      bounces to the lower end, bounces again and stops 7 short of the upper end, with the
      length used up (5, moved by 7, leaves -2), which brings back a full burst. Each
      travelled distance is the distance between the two positions of its frame. */
  method BattleScenario(start: Vec3)
  {
    var boss := new Boss(3, 10.0, start, 0);
    boss.SetBattleState();
    assert boss.fireRemainCountPerOnetime == 3 && boss.currentFireRotationZ == -30;
    var quiet := Tick(0.5, true, 0.0, 10.0, 0.0, start, 0.0);
    boss.UpdateBattle(quiet);
    assert boss.fireRemainCountPerOnetime == 3;
    boss.UpdateBattle(Tick(2.0, true, 0.0, 10.0, 0.0, start, 0.0));
    boss.UpdateBattle(Tick(4.0, true, 0.0, 10.0, 0.0, start, 0.0));
    boss.UpdateBattle(Tick(6.0, true, 0.0, 10.0, 0.0, start, 0.0));
    assert boss.fireRemainCountPerOnetime == 0 && boss.currentFireRotationZ == 15;
    assert !boss.needBattleMove;
    boss.UpdateBattle(Tick(8.0, true, 0.25, 20.0, 0.0, start, 0.0));
    var upper := Vec3(start.x, start.y + 5.0, start.z);
    var lower := Vec3(start.x, start.y - 5.0, start.z);
    assert boss.needBattleMove && boss.battleMoveLength == 20.0;
    assert boss.targetPosition == upper;
    // up to the upper end: 5 units
    boss.UpdateBattle(Tick(8.5, true, 0.0, 10.0, 1.0, upper, 5.0));
    assert boss.needBattleMove && boss.battleMoveLength == 15.0 && boss.targetPosition == upper;
    // standing on the target: it bounces to the lower end, 10 units away, which the boss reaches
    boss.UpdateBattle(Tick(9.0, true, 0.0, 10.0, 1.0, lower, 10.0));
    assert boss.targetPosition == lower;
    assert boss.needBattleMove && boss.battleMoveLength == 5.0;
    // bounced up again; 7 units up from the lower end exhaust the leg
    var past := Vec3(start.x, start.y + 2.0, start.z);
    boss.UpdateBattle(Tick(9.5, true, 0.0, 10.0, 1.0, past, 7.0));
    assert boss.targetPosition == upper;
    assert !boss.needBattleMove && boss.battleMoveLength == -2.0;
    assert boss.fireRemainCountPerOnetime == 3 && boss.currentFireRotationZ == -30;
  }
}
