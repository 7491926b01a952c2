# Boss battle phase controller

A model of the battle phase controller of the boss enemy in FirstWinger, a networked
Unity 2D shooter (`Boss.cs`). Once in combat the boss cycles through two phases held in
the flag `needBattleMove`:

- **Firing** (`needBattleMove == false`): at most one action per second. While the burst
  counter `FireRemainCountPerOnetime` is positive, the boss fires, the authority advances
  the fire sweep angle (`CurrentFireTransformRotation.z`, from -30 in steps of 15) and the
  counter drops by one. Once the counter is exhausted, the authority starts a move leg.
- **Moving** (`needBattleMove == true`): the boss travels towards a target above or below
  its combat start point (`BattleMoveStartPos` ± `BattleMoveMax`/2), bouncing the target
  to the other side whenever it stands on it (for a positive `BattleMoveMax`), and subtracts the distance it covers from
  `BattleMoveLength`. Once that length is used up, the authority re-enters firing with a
  full burst and a reset sweep.

The project has three modules:

- `BossSpec` (boss_spec.dfy): the state as a datatype and one pure transition function
  per procedure of `Boss.cs`, with the invariants `CounterInv` (counter in
  [0, `FireRemainCount`], exhausted while moving) and `ServerInv` (also: sweep angle
  = -30 + 15 × (`FireRemainCount` − counter), move target on a ping-pong end point).
- `BossController` (boss.dfy): class `Boss`, whose fields are the fields the source
  updates and whose methods update them in place with the same branches as the source.
  Each method's postcondition equates the new state with the `BossSpec` transition of
  the same name applied to the old state. A usage example, the method `BattleScenario`, walks a
  boss through one full burst and one move leg.
- `BossLemmas` (boss_lemmas.dfy): properties over sequences of frames, proved by
  induction on the frame sequence (`Run` applies `UpdateBattle` once per frame).

Inputs from outside the controller are parameters (a `Tick` value per frame):

- `now` is `Time.time`.
- `isServer` is the role. The `Rpc...` directives are called directly, as they run on
  the authority itself.
- `rand` is `Random.value`, in [0, 1].
- `newMoveLength` is `Random.Range(BattleMoveMax, 3 * BattleMoveMax)`, between the two
  bounds in either order.
- `speed` is `CurrentSpeed` after `UpdateSpeed()`.
- `newPosition` is the result of `Vector3.SmoothDamp`.
- `travelled` is `Vector3.Distance` from the old position to the new one. It is
  non-negative and otherwise arbitrary.

Positions and lengths are `real`; the sweep angle is an `int`.

## Model

| member | source | states |
|---|---|---|
| `BossSpec.SetBattleState` | FirstWinger/Assets/Scripts/Boss.cs:28-38 | start position becomes the current position, the counter becomes `FireRemainCount`, the sweep angle becomes -30, nothing else changes; from the firing phase with a non-negative burst size it establishes `ServerInv` |
| `BossSpec.RpcRotateFireTransform` | FirstWinger/Assets/Scripts/Boss.cs:158-167 | the sweep angle grows by exactly 15 and nothing else changes |
| `BossSpec.RotateFireTransform` | FirstWinger/Assets/Scripts/Boss.cs:152-156 | on the authority the angle grows by 15; on any other role the state is unchanged |
| `BossSpec.RpcSetBattleMove` | FirstWinger/Assets/Scripts/Boss.cs:85-98 | phase becomes Moving; target is the start position offset in y by exactly the given half height, x and z unchanged; speed 0; move start time now; remaining length the given one; nothing else changes |
| `BossSpec.SetBattleMove` | FirstWinger/Assets/Scripts/Boss.cs:67-83 | off the authority nothing changes; on it the phase becomes Moving, the speed 0, the target one of start ± Max/2 in y (x, z from the start), above the start exactly when rand < 0.5 (for Max > 0), and the length the drawn one, in [Max, 3 × Max] for Max ≥ 0; counter, angle, position, start and last action time are kept |
| `BossSpec.RpcChangeBattleMoveTarget` | FirstWinger/Assets/Scripts/Boss.cs:120-129 | only the target's y changes; it becomes start.y ± Max/2, on the other side of start.y than before for Max > 0 and on the same side for Max < 0 (where the ping-pong stops); a target on a ping-pong end point stays on one |
| `BossSpec.RpcSetBattleFire` | FirstWinger/Assets/Scripts/Boss.cs:137-150 | phase becomes Firing, counter `FireRemainCount`, angle -30, move start time now; nothing else changes; the result satisfies `ServerInv` for a non-negative burst size |
| `BossSpec.SetBattleFire` | FirstWinger/Assets/Scripts/Boss.cs:131-135 | on the authority it is the fire-phase directive; on any other role nothing changes |
| `BossSpec.UpdateBattleMove` | FirstWinger/Assets/Scripts/Boss.cs:100-118 | position and speed are the supplied ones; the remaining length drops by exactly the distance travelled, so it never grows for a non-negative distance; the phase stays Moving unless the authority finds the length ≤ 0, in which case counter and angle are reset; the target is bounced only on the authority and only when the boss stood on it; the move start time is restamped to now exactly when firing resumes; start and last action time are kept |
| `BossSpec.UpdateBattle` | FirstWinger/Assets/Scripts/Boss.cs:41-65 | while moving it is the move step; a firing frame within 1 s of the last action changes nothing; a later one sets the last action time to now and, with shots left, lowers the counter by exactly 1, (on the authority) raises the angle by 15 and changes nothing else, while with the burst exhausted it is exactly `SetBattleMove` followed by the time stamp; Firing→Moving happens if and only if the frame is late, the counter is exhausted and the role is the authority; Moving→Firing if and only if the role is the authority and the remaining length minus the distance travelled is ≤ 0; it preserves `CounterInv` (the counter within [0, `FireRemainCount`] on any role, and 0 while moving on the authority) and `ServerInv` on the authority |
| `BossLemmas.RunKeepsCounterInv` | FirstWinger/Assets/Scripts/Boss.cs:41-65 | after any sequence of frames the counter stays in [0, `FireRemainCount`] on any role, and on the authority it is 0 while moving |
| `BossLemmas.RunKeepsServerInv` | FirstWinger/Assets/Scripts/Boss.cs:41-65 | after any sequence of authority frames the sweep angle is exactly -30 + 15 × (`FireRemainCount` − counter), with no wrap-around, and a moving boss targets a ping-pong end point |
| `BossLemmas.BurstCountsDown` | FirstWinger/Assets/Scripts/Boss.cs:49-62 | k timely authority frames, k at most the shots left, leave the boss firing with the counter lowered by exactly k, the angle raised by 15 × k and the last action time at the last frame |
| `BossLemmas.BurstEndsInMove` | FirstWinger/Assets/Scripts/Boss.cs:49-95 | with n shots left, n + 1 timely authority frames end in the moving phase with an exhausted counter and a target on a ping-pong end point |
| `BossLemmas.PingpongInvolution` | FirstWinger/Assets/Scripts/Boss.cs:120-129 | for Max > 0, bouncing a ping-pong target twice gives back the original state |
| `BossLemmas.MoveLegLength` | FirstWinger/Assets/Scripts/Boss.cs:100-118 | over the frames of one move leg the remaining length drops by exactly the sum of the distances travelled, never grows, and is ≤ 0 whenever the leg has ended in the firing phase |
| `BossController.Boss.constructor` | FirstWinger/Assets/Scripts/Boss.cs:11-26 | a new boss is in the firing phase with the configured burst size and amplitude, and its other fields take their default values |
| `BossController.Boss.SetBattleState` | FirstWinger/Assets/Scripts/Boss.cs:28-38 | the fields become `BossSpec.SetBattleState` of their old values; from the firing phase this establishes `ServerInv` |
| `BossController.Boss.UpdateBattle` | FirstWinger/Assets/Scripts/Boss.cs:41-65 | the fields become `BossSpec.UpdateBattle` of their old values; `CounterInv` and (on the authority) `ServerInv` are preserved; the remaining move length never grows while moving |
| `BossController.Boss.SetBattleMove` | FirstWinger/Assets/Scripts/Boss.cs:67-83 | the fields become `BossSpec.SetBattleMove` of their old values; on the authority, for Max ≥ 0, the new length lies in [Max, 3 × Max] |
| `BossController.Boss.RpcSetBattleMove` | FirstWinger/Assets/Scripts/Boss.cs:85-98 | the fields become `BossSpec.RpcSetBattleMove` of their old values |
| `BossController.Boss.UpdateBattleMove` | FirstWinger/Assets/Scripts/Boss.cs:100-118 | the fields become `BossSpec.UpdateBattleMove` of their old values; the length never grows; the boss keeps moving unless the authority finds the length used up |
| `BossController.Boss.RpcChangeBattleMoveTarget` | FirstWinger/Assets/Scripts/Boss.cs:120-129 | the fields become `BossSpec.RpcChangeBattleMoveTarget` of their old values |
| `BossController.Boss.SetBattleFire` | FirstWinger/Assets/Scripts/Boss.cs:131-135 | the fields become `BossSpec.SetBattleFire` of their old values |
| `BossController.Boss.RpcSetBattleFire` | FirstWinger/Assets/Scripts/Boss.cs:137-150 | the fields become `BossSpec.RpcSetBattleFire` of their old values |
| `BossController.Boss.RotateFireTransform` | FirstWinger/Assets/Scripts/Boss.cs:152-156 | the fields become `BossSpec.RotateFireTransform` of their old values |
| `BossController.Boss.RpcRotateFireTransform` | FirstWinger/Assets/Scripts/Boss.cs:158-167 | the fields become `BossSpec.RpcRotateFireTransform` of their old values |

## Left out

- Replication is not modelled: `[SyncVar]`, `[ClientRpc]` dispatch to observer roles, `SetDirtyBit` and network timing. The authority runs each directive body locally; consistency of observer roles is not modelled. A non-authority role in the model receives no directives, so it never enters the moving phase; for it the moving half of `CounterInv` holds only vacuously. In the source an observer does receive `RpcSetBattleMove` (Boss.cs:85-95) whatever its own counter, which runs down on its own clock (Boss.cs:49-55), so there the counter need not be 0 while moving.
- `Random.value` and `Random.Range` are draws supplied by the caller in their ranges, not random generators.
- `UpdateSpeed`, `Vector3.SmoothDamp` and `Vector3.Distance` are supplied by the caller as a speed, a new position and a non-negative travelled distance. These are float numerics or base-class code. `CurrentVelocity`, which SmoothDamp updates through its `ref` argument, and `MaxSpeed`, its speed ceiling, are not modelled.
- `BossSpec.UpdateBattleMove`: the test `Vector3.Distance(TargetPosition, position) == 0` is modelled as exact equality of the two points. The model does not capture float underflow, where two distinct points can still give distance 0.
- Float rounding is not modelled. Positions and lengths are exact reals. The sweep angle is an unbounded integer, whereas the source's float stays exact only up to 2^24.
- The `Quaternion` built from the sweep angle and assigned to `FireTransform.localRotation` is engine presentation. Only the z angle is modelled.
- `Fire()`, `base.SetBattleState()` and the `Enemy` base class are not part of this model. `Fire()` and `base.SetBattleState()` are treated as changing no field modelled here. `FireRemainCount`, `LastActionUpdateTime`, `TargetPosition`, `CurrentSpeed` and `MoveStartTime` belong to `Enemy` and are treated as plain fields or configuration.
- `BossController.Boss.constructor`: fields that belong to `Enemy` start at zero. Their real initial values are set by `Enemy` and are unknown.
- SystemManager.cs holds only singleton lifecycle plumbing and is not modelled.
- Chase missiles and the special-attack toggle do not appear in this version of `Boss.cs` and are not modelled.
