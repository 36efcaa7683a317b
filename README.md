# Player combat and locomotion state machines

A model of the discrete decision logic of a third-person action game's player
stack: the melee combo state machine and soft-lock targeting
(`CombatController`), the locomotion state machine with jumping, dodging and
ledge grabs (`PlayerController`), HP and stamina bookkeeping (`PlayerStats`), and
per-swing hit deduplication with its hitstop guard (`WeaponTrigger`).

Each source class is modelled twice over:

- a pure "rules" module (`CombatRules`, `LocomotionRules`, `StatsRules`,
  `WeaponRules`) holds a datatype with the class's fields, one transition function
  per operation, and the lemmas about them. Those lemmas cover the invariants kept
  over any sequence of events (`Run`), the outcomes of each transition, and the
  scan and deduplication properties;
- an imperative module (`Combat`, `Locomotion`, `Stats`, `Weapon`) holds the class.
  Its fields are updated in place step by step, as in the source, and each method
  is proved against its rules module. A method that changes state leaves exactly
  the state its transition function describes
  (`ensures State() == Rules.X(old(State()), ...)`). The gradual stamina drain
  loop ends where the recursive `StatsRules.SmoothDrain` says, with the amount it
  took stated outright. The scans return what the rules' scan function returns.

Everything the code asks the game engine is an argument. This covers `Time.time`
and `Time.deltaTime`, and whether the animator's current state is tagged "Attack"
(or is "Sheath" or "LedgeClimb"). It also covers the colliders the overlap sphere
returns, each with its tag and its precomputed angle and distance. The remaining
arguments are the ground probe, the ledge raycast verdict, the value of the dodge
gravity curve, the contacts of the weapon's overlap box, and whether optional
components are present.

Behaviour worth knowing, as the code has it:

- A fresh attack starts at step 1 only if the step is 0 after the reset check.
  That check zeroes the step when more than 1.2 s have passed since the last click.
  Otherwise the fresh attack keeps the current step.
- `TriggerLightAttack` looks the target up only when there is none. Then
  `GetAttackDirection` unconditionally looks it up again, so after an attack the
  target is always the fresh scan result.
- At step 5, `ComboWindowEnd` wraps to step 1 and leaves `comboQueued` as it was.
- Nothing in these four classes calls `CombatController.SetDodging`. The dashing
  guards are modelled as written.

## Model

| member | source | states |
|---|---|---|
| `CombatRules.ClosestEnemyIndex` | Assets/Scripts/Player/CombatController.cs:252-273 | the scan's choice, when there is one, indexes one of the hits |
| `CombatRules.ClosestEnemyIndexCorrect` | Assets/Scripts/Player/CombatController.cs:252-273 | the scan's choice is an Enemy-tagged hit strictly inside the angle limit, no qualifying hit is nearer, and every earlier qualifying hit is strictly farther (ties go to the earliest); it is null exactly when no hit qualifies |
| `CombatRules.ClosestTarget` | Assets/Scripts/Player/CombatController.cs:266-273 | the returned Transform is null exactly when no hit qualifies, otherwise it is the Transform of a closest qualifying hit |
| `Combat.ScanClosestEnemy` | Assets/Scripts/Player/CombatController.cs:259-272 | the foreach loop with its `bestTarget`/`closestDistance` accumulators returns the nearest qualifying hit, the earliest on ties, and null exactly when none qualifies |
| `Combat.CombatController.FindSoftLockTarget` | Assets/Scripts/Player/CombatController.cs:252-274 | `bestAngle` is never lowered, so the soft-lock angle is a fixed threshold; the result is null exactly when no forward hit qualifies |
| `Combat.CombatController.FindClosestEnemyInDirection` | Assets/Scripts/Player/CombatController.cs:229-250 | same selection against the stick direction; null exactly when no hit qualifies |
| `CombatRules.Started` | Assets/Scripts/Player/CombatController.cs:50-63 | the initial state is at step 0, not attacking, staff sheathed, and satisfies the combo invariant |
| `CombatRules.RegisterCombatAction` | Assets/Scripts/Player/CombatController.cs:316-320 | stamps `lastCombatActionTime` with now, unsheathes, changes nothing else |
| `CombatRules.TriggerLightAttack` | Assets/Scripts/Player/CombatController.cs:106-137 | no-op while dashing or in an Attack-tagged state; otherwise attacking, step 1 if it was 0 (else unchanged), action stamped, staff drawn, target re-chosen by the soft-lock scan; no other field (queue, click and combo-end stamps, grounded, dashing) ever changes |
| `CombatRules.HandleCombatInput` | Assets/Scripts/Player/CombatController.cs:82-104 | ignored while dashing, unpressed or airborne; during an attack it only sets `comboQueued`; refused within 0.3 s of the combo end unless at step 5; otherwise a fresh attack at step 1 after a pause longer than `comboResetTime` (or from step 0); `isGrounded`, `isDashing` and `comboEndTime` never change; keeps the step invariant |
| `CombatRules.ComboWindowEnd` | Assets/Scripts/Player/CombatController.cs:151-187 | no-op while dashing; a queued press below step 5 advances exactly one step and clears the queue; step 5 wraps to 1 and keeps attacking; otherwise step 0, not attacking, queue and target cleared, `comboEndTime` = now; unless dashing the action is stamped and the staff drawn; the click stamp, grounded and dashing flags never change |
| `CombatRules.CancelAttack` | Assets/Scripts/Player/CombatController.cs:322-333 | no-op when not attacking; otherwise step 0, queue and target cleared, not attacking, nothing else changed |
| `CombatRules.AutoSheath` | Assets/Scripts/Player/CombatController.cs:70-79 | the staff is sheathed iff not attacking, grounded, drawn, and idle for more than `sheathDelay`; nothing else changes |
| `CombatRules.CancelSheath` | Assets/Scripts/Player/CombatController.cs:335-347 | the staff is drawn when the sheath animation is playing; nothing else changes |
| `CombatRules.DirectionalTargeting` | Assets/Scripts/Player/CombatController.cs:189-201 | the target changes only while attacking with stick input, and then to the closest qualifying enemy in that direction; whenever that scan finds a target in that case, it becomes the target; a found target is never replaced by null |
| `CombatRules.Update` | Assets/Scripts/Player/CombatController.cs:65-80 | the frame (input, retargeting, auto-sheath) keeps the combo invariant |
| `CombatRules.Apply` | Assets/Scripts/Player/CombatController.cs:155-185 | every event keeps the invariant, and the step is only set to 0 or 1, kept, or incremented from below 5 |
| `CombatRules.RunKeepsInv` | Assets/Scripts/Player/CombatController.cs:65-187 | over any event sequence the step stays in 0..5 and an attack in progress is at step 1 or later |
| `CombatRules.ComboStepAlwaysInRange` | Assets/Scripts/Player/CombatController.cs:119-123 | from Start on, whatever happens, `comboStep` stays in 0..5 |
| `Combat.CombatController.constructor` | Assets/Scripts/Player/CombatController.cs:39-62 | field defaults then Start: the initial state |
| `Combat.CombatController.RegisterCombatAction` | Assets/Scripts/Player/CombatController.cs:316-320 | leaves the state `CombatRules.RegisterCombatAction` gives |
| `Combat.CombatController.TriggerLightAttack` | Assets/Scripts/Player/CombatController.cs:106-137 | leaves the state `CombatRules.TriggerLightAttack` gives |
| `Combat.CombatController.HandleCombatInput` | Assets/Scripts/Player/CombatController.cs:82-104 | leaves the state `CombatRules.HandleCombatInput` gives |
| `Combat.CombatController.HandleDirectionalTargeting` | Assets/Scripts/Player/CombatController.cs:189-201 | leaves the state `CombatRules.DirectionalTargeting` gives during an attack |
| `Combat.CombatController.Update` | Assets/Scripts/Player/CombatController.cs:65-80 | leaves the state `CombatRules.Update` gives and keeps the combo invariant |
| `Combat.CombatController.ComboWindowEnd` | Assets/Scripts/Player/CombatController.cs:151-187 | leaves the state `CombatRules.ComboWindowEnd` gives and keeps the combo invariant |
| `Combat.CombatController.CancelAttack` | Assets/Scripts/Player/CombatController.cs:322-333 | leaves the state `CombatRules.CancelAttack` gives and keeps the combo invariant |
| `Combat.CombatController.CancelSheath` | Assets/Scripts/Player/CombatController.cs:335-347 | leaves the state `CombatRules.CancelSheath` gives |
| `Combat.CombatController.SetGrounded` | Assets/Scripts/Player/CombatController.cs:349 | sets `isGrounded` only |
| `Combat.CombatController.SetDodging` | Assets/Scripts/Player/CombatController.cs:350 | sets `isDashing` only |
| `LocomotionRules.Initial` | Assets/Scripts/Player/PlayerController.cs:31-40 | the declared defaults: grounded, no jump counted, neither dodging nor hanging |
| `LocomotionRules.Jumping` | Assets/Scripts/Player/PlayerController.cs:121-167 | no-op while attacking; landing sets `vSpeed` -10 and the count 0; a grounded press sets `vSpeed` = `jumpHeight` and the count 1; in the air only a press at count 1 jumps (count 2); walking off gives `vSpeed` 0 and count 1; other airborne frames subtract `gravity*dt`; airborne means count at least 1; count stays in 0..2 |
| `LocomotionRules.DodgeAllowed` | Assets/Scripts/Player/PlayerController.cs:80-83 | a dodge the gate lets through (pressed, not dodging, not hanging, cooldown over, stamina at least the cost) keeps the locomotion invariant |
| `LocomotionRules.StartDodge` | Assets/Scripts/Player/PlayerController.cs:170-181 | dodging, timer reset, `lastDodgeTime` = now, nothing else |
| `LocomotionRules.UpdateDodge` | Assets/Scripts/Player/PlayerController.cs:183-208 | the timer grows by dt; the dodge ends exactly when `dodgeTimer/dodgeDuration` reaches 1; before that `vSpeed` falls by the curve-scaled gravity |
| `LocomotionRules.StartLedgeClimb` | Assets/Scripts/Player/PlayerController.cs:234-257 | hanging, "Ground" parameter false, `vSpeed` 0 |
| `LocomotionRules.CheckLedgeGrab` | Assets/Scripts/Player/PlayerController.cs:212-232 | without a ledge nothing changes; a ledge cancels the dodge, zeroes `vSpeed` and starts hanging |
| `LocomotionRules.EndLedgeClimb` | Assets/Scripts/Player/PlayerController.cs:259-267 | no-op unless hanging; otherwise stops hanging and sets `vSpeed` -10 |
| `LocomotionRules.LedgeClimbRecovery` | Assets/Scripts/Player/PlayerController.cs:324-335 | when the climb animation never started, hanging ends and `vSpeed` is -10 |
| `LocomotionRules.Move` | Assets/Scripts/Player/PlayerController.cs:64-76 | movement and jumping run only when neither dodging nor hanging; the invariant is kept; `lastDodgeTime` is untouched |
| `LocomotionRules.Update` | Assets/Scripts/Player/PlayerController.cs:62-85 | the frame keeps the jump-count and dodge/ledge invariant |
| `LocomotionRules.DodgeGate` | Assets/Scripts/Player/PlayerController.cs:80-84 | a dodge starts only with stamina at least the cost and the cooldown strictly over, and then stamps `lastDodgeTime`; otherwise the stamp is unchanged |
| `LocomotionRules.Apply` | Assets/Scripts/Player/PlayerController.cs:62-85 | frames, climb ends and recoveries keep the invariant |
| `LocomotionRules.RunKeepsInv` | Assets/Scripts/Player/PlayerController.cs:134-166 | over any event sequence `jumpCount` stays in {0,1,2} and the player never dodges while hanging |
| `LocomotionRules.DodgesRespectCooldown` | Assets/Scripts/Player/PlayerController.cs:80 | after any run, `lastDodgeTime` is the old one or lies more than the cooldown after it |
| `Locomotion.PlayerController.constructor` | Assets/Scripts/Player/PlayerController.cs:31-60 | the declared defaults, with the sibling components attached |
| `Locomotion.PlayerController.Update` | Assets/Scripts/Player/PlayerController.cs:62-85 | leaves the state `LocomotionRules.Update` gives, tells the combat controller the frame's `onGround`, and spends exactly the dodge cost from the stats when a dodge starts |
| `Locomotion.PlayerController.MoveForFrame` | Assets/Scripts/Player/PlayerController.cs:64-76 | leaves the state `LocomotionRules.Move` gives |
| `Locomotion.PlayerController.DodgeIfAllowed` | Assets/Scripts/Player/PlayerController.cs:80-84 | starts the dodge, spending its cost instantly, exactly when `LocomotionRules.DodgeAllowed` holds; otherwise nothing changes |
| `Locomotion.PlayerController.Jumping` | Assets/Scripts/Player/PlayerController.cs:121-167 | leaves the state `LocomotionRules.Jumping` gives |
| `Locomotion.PlayerController.StartDodge` | Assets/Scripts/Player/PlayerController.cs:170-181 | leaves the state `LocomotionRules.StartDodge` gives and spends the cost instantly |
| `Locomotion.PlayerController.UpdateDodge` | Assets/Scripts/Player/PlayerController.cs:183-208 | leaves the state `LocomotionRules.UpdateDodge` gives |
| `Locomotion.PlayerController.CheckLedgeGrab` | Assets/Scripts/Player/PlayerController.cs:212-232 | leaves the state `LocomotionRules.CheckLedgeGrab` gives |
| `Locomotion.PlayerController.StartLedgeClimb` | Assets/Scripts/Player/PlayerController.cs:234-257 | leaves the state `LocomotionRules.StartLedgeClimb` gives |
| `Locomotion.PlayerController.EndLedgeClimb` | Assets/Scripts/Player/PlayerController.cs:259-267 | leaves the state `LocomotionRules.EndLedgeClimb` gives |
| `Locomotion.PlayerController.LedgeClimbRecovery` | Assets/Scripts/Player/PlayerController.cs:324-335 | leaves the state `LocomotionRules.LedgeClimbRecovery` gives |
| `StatsRules.HealthFraction` | Assets/Scripts/Player/PlayerStats.cs:60-61 | the fill is HP/maxHP (fill times maxHP is HP) or 0 when maxHP is not positive, and lies in [0,1] for HP in [0, maxHP] |
| `StatsRules.UpdateHealthBar` | Assets/Scripts/Player/PlayerStats.cs:55-62 | with maxHP at least 0, HP ends in [0, maxHP] (HP clamped), an HP already in range is untouched, the fill is the health fraction |
| `StatsRules.Start` | Assets/Scripts/Player/PlayerStats.cs:27-37 | an HP that is not positive or above maxHP becomes maxHP, any other HP is kept; the fill is the new health fraction; nothing else changes |
| `StatsRules.Regen` | Assets/Scripts/Player/PlayerStats.cs:39-45 | stamina grows by rate times dt, capped at 100, only when the delay since the last use has passed and stamina is below 100; otherwise nothing changes |
| `StatsRules.UseStaminaInstant` | Assets/Scripts/Player/PlayerStats.cs:64-71 | stamina drops by the amount, floored at 0, and the use is stamped with now |
| `StatsRules.DrainThisFrame` | Assets/Scripts/Player/PlayerStats.cs:84-91 | a frame never drains past the amount, and drains the rest exactly when the frame's share covers it |
| `StatsRules.DrainFrame` | Assets/Scripts/Player/PlayerStats.cs:90-95 | one drain frame floors stamina at 0 and stamps the use |
| `StatsRules.SumDt` | Assets/Scripts/Player/PlayerStats.cs:86 | the time a run of frames spans is not negative when no frame's `deltaTime` is |
| `StatsRules.SmoothDrain` | Assets/Scripts/Player/PlayerStats.cs:79-98 | the coroutine, one `DrainThisFrame`/`DrainFrame` per frame while less than the amount is drained: it uses no more frames than it is given, and none exactly when nothing is left to drain or no frame comes |
| `StatsRules.SmoothDrainStamps` | Assets/Scripts/Player/PlayerStats.cs:90-95 | a drain that uses no frame changes nothing; otherwise the use is stamped with the last frame's time; only stamina and that stamp ever change |
| `StatsRules.SmoothDrainStep` | Assets/Scripts/Player/PlayerStats.cs:84-96 | one pass of the loop body moves the drain one frame on towards the same end |
| `StatsRules.SmoothDrainStops` | Assets/Scripts/Player/PlayerStats.cs:84 | the drain stays within the amount, every frame it used but the last left some of it undrained, and it stops before the frames run out only with the whole amount drained |
| `StatsRules.SmoothDrainTotal` | Assets/Scripts/Player/PlayerStats.cs:84-91 | the drain takes exactly min(amount, 100 × the time of the frames it used) |
| `StatsRules.SmoothDrainFloorsStamina` | Assets/Scripts/Player/PlayerStats.cs:90-93 | flooring stamina at 0 every frame ends where flooring once would: max(0, start − drained) |
| `StatsRules.SmoothDrainFromStart` | Assets/Scripts/Player/PlayerStats.cs:79-98 | from nothing drained, for any amount: drained = min(amount, 100 × the used frames' time) when the amount is not negative, each used frame but the last left some undrained, an early stop drains it all, and stamina ends at max(0, start − drained) |
| `StatsRules.TakeDamage` | Assets/Scripts/Player/PlayerStats.cs:100-125 | with a combat component and stamina left, stamina drops by amount/2 (floored at 0) and HP by exactly amount/4, then clamped; otherwise HP drops by the full amount, floored at 0; the fill is the new health fraction; maxHP and damage are untouched |
| `StatsRules.BlockNeverHurtsMore` | Assets/Scripts/Player/PlayerStats.cs:103-123 | a blocked hit leaves at least as much HP as an unblocked one, and costs exactly a quarter when HP covers it |
| `StatsRules.RegainHP` | Assets/Scripts/Player/PlayerStats.cs:127-132 | HP rises by the amount, capped at maxHP; the fill is the new health fraction; nothing else changes |
| `StatsRules.RegainStamina` | Assets/Scripts/Player/PlayerStats.cs:134-138 | stamina rises by the amount, capped at 100 |
| `StatsRules.UpgradeHP` | Assets/Scripts/Player/PlayerStats.cs:140-145 | maxHP and HP rise by the same amount, then HP is clamped and the fill is the health fraction; stamina, its stamp and damage are untouched |
| `StatsRules.UpgradeDamage` | Assets/Scripts/Player/PlayerStats.cs:147-150 | damage rises by the amount; nothing else changes |
| `StatsRules.Apply` | Assets/Scripts/Player/PlayerStats.cs:39-53 | each well-formed event keeps HP in [0, maxHP] and stamina in [0, 100] |
| `StatsRules.RunKeepsInv` | Assets/Scripts/Player/PlayerStats.cs:39-150 | over any well-formed event sequence, HP stays in [0, maxHP] and stamina in [0, 100] |
| `Stats.PlayerStats.constructor` | Assets/Scripts/Player/PlayerStats.cs:8-23 | the inspector's values, with the stamina use stamp at minus infinity; in-range values give HP in [0, maxHP] and stamina in [0, 100] |
| `Stats.PlayerStats.Start` | Assets/Scripts/Player/PlayerStats.cs:27-37 | leaves the state `StatsRules.Start` gives; from a non-negative maxHP and stamina in [0, 100], HP ends in [0, maxHP] |
| `Stats.PlayerStats.Update` | Assets/Scripts/Player/PlayerStats.cs:39-45 | leaves the state `StatsRules.Regen` gives and, for dt ≥ 0, keeps HP in [0, maxHP] and stamina in [0, 100] |
| `Stats.PlayerStats.UpdateHealthBar` | Assets/Scripts/Player/PlayerStats.cs:55-62 | leaves the state `StatsRules.UpdateHealthBar` gives and keeps HP in [0, maxHP] and stamina in [0, 100] |
| `Stats.PlayerStats.UseStamina` | Assets/Scripts/Player/PlayerStats.cs:64-77 | instant: the state `StatsRules.UseStaminaInstant` gives; gradual: the run `StatsRules.SmoothDrain` gives, draining exactly min(amount, 100 × the used frames' time), using a frame only while the earlier ones fell short of the amount, stopping early only with it all drained; stamina becomes max(0, old − drained), and only stamina and the stamp change; a non-negative amount keeps HP in [0, maxHP] and stamina in [0, 100] |
| `Stats.PlayerStats.SmoothDrainStamina` | Assets/Scripts/Player/PlayerStats.cs:79-98 | ends in the run `StatsRules.SmoothDrain` gives; drains exactly min(amount, 100 × the time of the frames it used) and never more than the amount; every frame it used but the last left some undrained; it stops early only once the whole amount is drained; stamina is max(0, old − drained); the last frame's time stamps the use; stamina stays in [0, 100] |
| `Stats.PlayerStats.TakeDamage` | Assets/Scripts/Player/PlayerStats.cs:100-125 | leaves the state `StatsRules.TakeDamage` gives and, for a non-negative amount, keeps HP in [0, maxHP] and stamina in [0, 100] |
| `Stats.PlayerStats.RegainHP` | Assets/Scripts/Player/PlayerStats.cs:127-132 | leaves the state `StatsRules.RegainHP` gives and keeps HP in [0, maxHP] and stamina in [0, 100] |
| `Stats.PlayerStats.RegainStamina` | Assets/Scripts/Player/PlayerStats.cs:134-138 | leaves the state `StatsRules.RegainStamina` gives and, for a non-negative amount, keeps HP in [0, maxHP] and stamina in [0, 100] |
| `Stats.PlayerStats.UpgradeHP` | Assets/Scripts/Player/PlayerStats.cs:140-145 | leaves the state `StatsRules.UpgradeHP` gives and, while maxHP stays non-negative, keeps HP in [0, maxHP] and stamina in [0, 100] |
| `Stats.PlayerStats.UpgradeDamage` | Assets/Scripts/Player/PlayerStats.cs:147-150 | leaves the state `StatsRules.UpgradeDamage` gives and keeps HP in [0, maxHP] and stamina in [0, 100] |
| `Stats.PlayerStats.DealDamage` | Assets/Scripts/Player/PlayerStats.cs:152-157 | a present target takes this character's damage as `StatsRules.TakeDamage` describes |
| `WeaponRules.HandleHit` | Assets/Scripts/Player/WeaponTrigger.cs:56-78 | a non-Enemy or already struck collider is ignored and changes nothing; otherwise it is appended once and its effects play, starting a hitstop only when none is active; the list stays duplicate-free |
| `WeaponRules.CheckHits` | Assets/Scripts/Player/WeaponTrigger.cs:44-54 | a sweep only appends the colliders it strikes, strikes at most one per contact, starts at most one hitstop per strike, and leaves the swing gate alone |
| `WeaponRules.CheckHitsFacts` | Assets/Scripts/Player/WeaponTrigger.cs:44-60 | a sweep appends exactly the struck colliders, each a new Enemy contact, records every Enemy contact, keeps the list duplicate-free, and leaves the swing gate alone |
| `WeaponRules.CheckHitsHitstops` | Assets/Scripts/Player/WeaponTrigger.cs:76-77 | after a sweep the hitstop flag is up exactly when it was or something was struck; at most one hitstop starts, none while one is active, and one when none was and something was struck |
| `WeaponRules.StartSwing` | Assets/Scripts/Player/WeaponTrigger.cs:90-94 | the list is emptied and the swing gate opened |
| `WeaponRules.EndSwing` | Assets/Scripts/Player/WeaponTrigger.cs:96-99 | only the swing gate closes; the list is untouched |
| `WeaponRules.HitstopOver` | Assets/Scripts/Player/WeaponTrigger.cs:80-88 | the hitstop flag is false after the hitstop |
| `WeaponRules.Update` | Assets/Scripts/Player/WeaponTrigger.cs:38-42 | contacts are checked only while swinging with a box collider; otherwise nothing happens |
| `WeaponRules.ApplyRecords` | Assets/Scripts/Player/WeaponTrigger.cs:38-60 | any event but a new swing only appends what it strikes and keeps the list duplicate-free |
| `WeaponRules.AtMostOncePerSwing` | Assets/Scripts/Player/WeaponTrigger.cs:58-60 | within one swing no collider is struck twice, and none already struck in it |
| `WeaponRules.NoHitsOutsideSwing` | Assets/Scripts/Player/WeaponTrigger.cs:40-41 | while the gate is closed nothing is struck and the list is unchanged |
| `Weapon.WeaponTrigger.constructor` | Assets/Scripts/Player/WeaponTrigger.cs:13-36 | an empty list, no swing, no hitstop |
| `Weapon.WeaponTrigger.Update` | Assets/Scripts/Player/WeaponTrigger.cs:38-42 | leaves the state and strikes `WeaponRules.Update` gives and keeps the list duplicate-free |
| `Weapon.WeaponTrigger.CheckHits` | Assets/Scripts/Player/WeaponTrigger.cs:44-54 | leaves the state `WeaponRules.CheckHits` gives; the list grows by exactly the struck colliders |
| `Weapon.WeaponTrigger.HandleHit` | Assets/Scripts/Player/WeaponTrigger.cs:56-78 | leaves the state and outcome `WeaponRules.HandleHit` gives |
| `Weapon.WeaponTrigger.EndHitstop` | Assets/Scripts/Player/WeaponTrigger.cs:86-87 | the hitstop flag is cleared |
| `Weapon.WeaponTrigger.StartSwingFromAnimation` | Assets/Scripts/Player/WeaponTrigger.cs:90-94 | leaves the state `WeaponRules.StartSwing` gives |
| `Weapon.WeaponTrigger.EndSwingFromAnimation` | Assets/Scripts/Player/WeaponTrigger.cs:96-99 | leaves the state `WeaponRules.EndSwing` gives |

## Left out

- Floating point: times, speeds, HP and stamina are exact reals. Float rounding, NaN and infinities are not modelled. `Mathf.Infinity` as the starting closest distance becomes "no target yet".
- Inspector overrides: the tunables are fixed at their declared defaults (combo reset 1.2 s, soft-lock angle 60, sheath delay 10 s, jump height 9, gravity 20, dodge duration 0.35 s, cooldown 0.8 s, cost 25, regen delay 1 s, regen rate 20, drain speed 100).
- Engine geometry and physics: `Physics.OverlapSphere`, `OverlapBox` and the raycasts, `IsNearEdge`, `IsActuallyGrounded`, `Vector3.Angle` and `Distance`. Their results are arguments.
- Transform and CharacterController writes: rotations, `Quaternion.Slerp`/`LookRotation`, `Movement`'s `cont.Move`, `LimitDistanceToTarget`, `LimitMovementNearEdge`, the ledge hang position, `MoveOverLedge`, `SmoothRotateTowardTarget`.
- Animator parameter and trigger writes, root-motion toggles, layer weights and `FadeSheath`. "Ground" is the only read-back animator parameter the model keeps, as a field. The code also reads back "IsSheathed" (CombatController.cs line 385), but only inside `FadeSheath`, which is left out.
- `UpdateDodge`'s horizontal push: the speed curve, `Mathf.Lerp` and the move. The gravity curve's value is an argument.
- Coroutine timing: the waits in `SmoothLedgeGrabAndEnableRootMotion` and in the hitstop are left out. Their outcomes are separate methods (`LedgeClimbRecovery`, `EndHitstop`).
- `Stats.PlayerStats.SmoothDrainStamina`: the coroutine runs as one loop over the frames it is given. Its interleaving with other per-frame work is not modelled, and neither is the `StopCoroutine` call by name in `UseStamina`, so two drains never overlap in the model.
- `displayedStamina` and its `Mathf.Lerp`, the health bar being absent, the debug keys in `PlayerStats.Update`, camera shake, sounds, damage flash, hit particles, gizmos.
- Null components: `PlayerController` is given its combat controller and stats, as it dereferences them unguarded. The null check in `TakeDamage` becomes the `hasCombat` argument.
- `StatsRules.TakeDamage`: the camera `cam` is assumed present. `TakeDamage` calls `cam.DoCameraShake` without a null check (PlayerStats.cs lines 114 and 121). With no camera the unblocked path would throw before `HP -= amount`, and the blocked path after its stamina and HP changes. The model never throws.
