/**
  Properties of the battle phase controller over sequences of frames, and of
  single transitions where two of them are composed.
*/
module BossLemmas {
  import opened BossSpec

  /** Every frame of a sequence comes more than one second after the previous action. */
  predicate ReadyTimes(last: real, ticks: seq<Tick>)
    decreases |ticks|
  {
    ticks == [] || (ticks[0].now - last > ActionInterval && ReadyTimes(ticks[0].now, ticks[1..]))
  }

  /** The counter bounds hold after any run of frames. The counter stays in
      [0, FireRemainCount] on any role; that it is 0 while moving is a statement about the
      authority, the only role that enters the moving phase here. */
  lemma {:induction false} RunKeepsCounterInv(c: Config, s: BossState, ticks: seq<Tick>)
    requires CounterInv(c, s)
    ensures CounterInv(c, Run(c, s, ticks))
    decreases |ticks|
  {
    if ticks != [] {
      RunKeepsCounterInv(c, UpdateBattle(c, s, ticks[0]), ticks[1..]);
    }
  }

  /** On the authority role the counter bounds, the exact sweep angle and the ping-pong
      target hold after any run of frames that starts from them. */
  lemma {:induction false} RunKeepsServerInv(c: Config, s: BossState, ticks: seq<Tick>)
    requires AllOnServer(ticks)
    requires ServerInv(c, s)
    ensures ServerInv(c, Run(c, s, ticks))
    decreases |ticks|
  {
    if ticks != [] {
      var s1 := UpdateBattle(c, s, ticks[0]);
      RunKeepsServerInv(c, s1, ticks[1..]);
    }
  }

  /** A burst counts down: k timely frames on the authority role, with k no more than
      the shots left, fire k shots, each lowering the counter by one and advancing the
      sweep by 15, and leave the boss in the firing phase. */
  lemma {:induction false} BurstCountsDown(c: Config, s: BossState, ticks: seq<Tick>)
    requires AllOnServer(ticks)
    requires !s.needBattleMove
    requires |ticks| <= s.fireRemainCountPerOnetime
    requires ReadyTimes(s.lastActionUpdateTime, ticks)
    ensures !Run(c, s, ticks).needBattleMove
    ensures Run(c, s, ticks).fireRemainCountPerOnetime == s.fireRemainCountPerOnetime - |ticks|
    ensures Run(c, s, ticks).fireRotationZ == s.fireRotationZ + FireTransformRotationInterval * |ticks|
    ensures ticks != [] ==> Run(c, s, ticks).lastActionUpdateTime == ticks[|ticks| - 1].now
    decreases |ticks|
  {
    if ticks != [] {
      var s1 := UpdateBattle(c, s, ticks[0]);
      BurstCountsDown(c, s1, ticks[1..]);
      if |ticks| > 1 {
        assert ticks[1..][|ticks[1..]| - 1] == ticks[|ticks| - 1];
      }
    }
  }

  /** The frame after the last shot of a burst starts a move leg: with n shots left,
      the (n+1)-th timely frame on the authority role enters the moving phase. */
  lemma {:induction false} BurstEndsInMove(c: Config, s: BossState, ticks: seq<Tick>)
    requires AllOnServer(ticks)
    requires !s.needBattleMove
    requires s.fireRemainCountPerOnetime >= 0
    requires |ticks| == s.fireRemainCountPerOnetime + 1
    requires ReadyTimes(s.lastActionUpdateTime, ticks)
    ensures Run(c, s, ticks).needBattleMove
    ensures Run(c, s, ticks).fireRemainCountPerOnetime == 0
    ensures IsPingpongEnd(c, s.battleMoveStartPos, Run(c, s, ticks).targetPosition)
    decreases |ticks|
  {
    var s1 := UpdateBattle(c, s, ticks[0]);
    if s.fireRemainCountPerOnetime == 0 {
      assert ticks[1..] == [];
    } else {
      BurstEndsInMove(c, s1, ticks[1..]);
    }
  }

  /** Bouncing twice returns the target to where it was, when it sits on a ping-pong end. */
  lemma PingpongInvolution(c: Config, s: BossState)
    requires c.battleMoveMax > 0.0
    requires IsPingpongEnd(c, s.battleMoveStartPos, s.targetPosition)
    ensures RpcChangeBattleMoveTarget(c, RpcChangeBattleMoveTarget(c, s)) == s
  {
  }

  /** The boss is in the moving phase before each frame of the sequence (after the
      last one it may have switched back to firing). */
  predicate MovingThroughout(c: Config, s: BossState, ticks: seq<Tick>)
    decreases |ticks|
  {
    ticks == [] || (s.needBattleMove && MovingThroughout(c, UpdateBattle(c, s, ticks[0]), ticks[1..]))
  }

  /** The sum of the distances travelled over a sequence of frames. */
  function TotalTravelled(ticks: seq<Tick>): real
    decreases |ticks|
  {
    if ticks == [] then 0.0 else ticks[0].travelled + TotalTravelled(ticks[1..])
  }

  /** Over the frames of one move leg the remaining length drops by exactly the total
      distance travelled, so it never grows; the phase leaves Moving at most once, on
      the last frame, and then only with the length used up. */
  lemma {:induction false} MoveLegLength(c: Config, s: BossState, ticks: seq<Tick>)
    requires s.needBattleMove && MovingThroughout(c, s, ticks)
    requires forall i :: 0 <= i < |ticks| ==> ticks[i].travelled >= 0.0
    ensures Run(c, s, ticks).battleMoveLength == s.battleMoveLength - TotalTravelled(ticks)
    ensures Run(c, s, ticks).battleMoveLength <= s.battleMoveLength
    ensures !Run(c, s, ticks).needBattleMove ==> Run(c, s, ticks).battleMoveLength <= 0.0
    decreases |ticks|
  {
    if ticks != [] {
      var s1 := UpdateBattle(c, s, ticks[0]);
      forall i | 0 <= i < |ticks| - 1 ensures ticks[1..][i].travelled >= 0.0 {
        assert ticks[1..][i] == ticks[i + 1];
      }
      if s1.needBattleMove {
        MoveLegLength(c, s1, ticks[1..]);
      } else {
        assert ticks[1..] == [];
      }
    }
  }
}
