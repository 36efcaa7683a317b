/**
 * CombatController as an object: the combo fields are updated in place by the
 * input handler, the animation events and the cancel/sheath calls, each proved
 * against the transition of the same name in CombatRules.
 */
module Combat {
  import opened Common
  import opened CombatRules

  /** The soft-lock scan: keeps the nearest enemy strictly inside the angle limit,
      replacing the kept one only on a strictly smaller distance. */
  method ScanClosestEnemy(hits: seq<Hit>, angleLimit: real) returns (best: Option<nat>)
    ensures best == ClosestEnemyIndex(hits, angleLimit)
    ensures best.Some? ==> IsClosestEnemy(hits, angleLimit, best.value)
    ensures best.None? <==> forall j :: 0 <= j < |hits| ==> !Qualifies(hits[j], angleLimit)
  {
    best := None;
    var closestDistance := 0.0;  // read only once best is set; stands for Mathf.Infinity before
    for k := 0 to |hits|
      invariant best == ClosestEnemyIndex(hits[..k], angleLimit)
      invariant best.Some? ==> closestDistance == hits[best.value].distance
    {
      assert hits[..k + 1][..k] == hits[..k];
      var hit := hits[k];
      if !hit.isEnemy {
        continue;
      }
      if hit.angle < angleLimit && (best.None? || hit.distance < closestDistance) {
        closestDistance := hit.distance;
        best := Some(k);
      }
    }
    assert hits[..|hits|] == hits;
    ClosestEnemyIndexCorrect(hits, angleLimit);
  }

  class CombatController {
    var comboStep: int
    var comboQueued: bool
    var isAttacking: bool
    var isSheathed: bool
    var isGrounded: bool
    var isDashing: bool
    var lastClickTime: real
    var comboEndTime: real
    var lastCombatActionTime: real
    var currentTarget: Option<TargetId>

    /** The controller's fields as one value. */
    function State(): ComboState
      reads this
    {
      ComboState(comboStep, comboQueued, isAttacking, isSheathed, isGrounded, isDashing,
                 lastClickTime, comboEndTime, lastCombatActionTime, currentTarget)
    }

    ghost predicate Valid()
      reads this
    {
      Inv(State())
    }

    /** Field initialisers followed by Start, which sheathes the staff. */
    constructor ()
      ensures State() == Started() && Valid()
    {
      comboStep, comboQueued, isAttacking := 0, false, false;
      isGrounded, isDashing := true, false;
      lastClickTime, comboEndTime, lastCombatActionTime := 0.0, 0.0, 0.0;
      currentTarget := None;
      isSheathed := true;
    }

    method FindSoftLockTarget(forwardHits: seq<Hit>) returns (target: Option<TargetId>)
      ensures target == ClosestTarget(forwardHits)
      ensures target.None? <==> forall j :: 0 <= j < |forwardHits| ==> !Qualifies(forwardHits[j], SoftLockAngle)
    {
      var bestAngle := SoftLockAngle;  // never lowered: a fixed threshold
      var best := ScanClosestEnemy(forwardHits, bestAngle);
      target := if best.Some? then Some(forwardHits[best.value].target) else None;
    }

    method FindClosestEnemyInDirection(directionHits: seq<Hit>) returns (target: Option<TargetId>)
      ensures target == ClosestTarget(directionHits)
      ensures target.None? <==> forall j :: 0 <= j < |directionHits| ==> !Qualifies(directionHits[j], SoftLockAngle)
    {
      var best := ScanClosestEnemy(directionHits, SoftLockAngle);
      target := if best.Some? then Some(directionHits[best.value].target) else None;
    }

    method RegisterCombatAction(now: real)
      modifies this
      ensures State() == CombatRules.RegisterCombatAction(old(State()), now)
    {
      lastCombatActionTime := now;
      if isSheathed {
        isSheathed := false;
      }
    }

    method TriggerLightAttack(now: real, inAttackState: bool, forwardHits: seq<Hit>)
      modifies this
      ensures State() == CombatRules.TriggerLightAttack(old(State()), now, inAttackState, forwardHits)
    {
      if isDashing {
        return;
      }
      if inAttackState {
        return;
      }
      isAttacking := true;
      if comboStep == 0 {
        comboStep := 1;
      }
      RegisterCombatAction(now);
      if currentTarget.None? {
        currentTarget := FindSoftLockTarget(forwardHits);
      }
      // GetAttackDirection
      currentTarget := FindSoftLockTarget(forwardHits);
    }

    method HandleCombatInput(now: real, meleePressed: bool, inAttackState: bool, forwardHits: seq<Hit>)
      modifies this
      ensures State() == CombatRules.HandleCombatInput(old(State()), now, meleePressed, inAttackState, forwardHits)
    {
      if isDashing {
        return;
      }
      if meleePressed {
        if !isGrounded || isDashing {
          return;
        }
        if isAttacking || inAttackState {
          comboQueued := true;
          return;
        }
        if now - comboEndTime < ComboCooldown && comboStep != LastComboStep {
          return;
        }
        if now - lastClickTime > ComboResetTime {
          comboStep := 0;
        }
        lastClickTime := now;
        TriggerLightAttack(now, inAttackState, forwardHits);
      }
    }

    method HandleDirectionalTargeting(hasMoveInput: bool, directionHits: seq<Hit>)
      modifies this
      ensures State() == CombatRules.DirectionalTargeting(old(State()), true, hasMoveInput, directionHits)
    {
      if !hasMoveInput {
        return;
      }
      var newTarget := FindClosestEnemyInDirection(directionHits);
      if newTarget.Some? && newTarget != currentTarget {
        currentTarget := newTarget;
      }
    }

    /** The per-frame update; the rotation and root-motion work of
        HandleAttackDirectionAndRotation keeps only its retargeting here. */
    method Update(f: FrameInput)
      modifies this
      ensures State() == CombatRules.Update(old(State()), f)
      ensures old(Valid()) ==> Valid()
    {
      HandleCombatInput(f.now, f.meleePressed, f.inAttackState, f.forwardHits);
      if isAttacking || f.inAttackState {
        HandleDirectionalTargeting(f.hasMoveInput, f.directionHits);
      }
      if !isAttacking && isGrounded && !isSheathed {
        if f.now - lastCombatActionTime > SheathDelay {
          isSheathed := true;
        }
      }
    }

    /** The animation event at the end of a swing's chaining window. */
    method ComboWindowEnd(now: real)
      modifies this
      ensures State() == CombatRules.ComboWindowEnd(old(State()), now)
      ensures old(Valid()) ==> Valid()
    {
      if isDashing {
        return;
      }
      if comboQueued && comboStep < LastComboStep {
        comboStep := comboStep + 1;
        comboQueued := false;
        RegisterCombatAction(now);
      } else if comboStep == LastComboStep {
        comboStep := 1;
        RegisterCombatAction(now);
      } else {
        comboStep := 0;
        isAttacking := false;
        comboQueued := false;
        currentTarget := None;
        comboEndTime := now;
        RegisterCombatAction(now);
      }
    }

    method CancelAttack()
      modifies this
      ensures State() == CombatRules.CancelAttack(old(State()))
      ensures old(Valid()) ==> Valid()
    {
      if !isAttacking {
        return;
      }
      isAttacking := false;
      comboStep := 0;
      comboQueued := false;
      currentTarget := None;
    }

    method CancelSheath(inSheathState: bool)
      modifies this
      ensures State() == CombatRules.CancelSheath(old(State()), inSheathState)
    {
      if inSheathState {
        isSheathed := false;
      }
    }

    method SetGrounded(grounded: bool)
      modifies this
      ensures State() == old(State()).(isGrounded := grounded)
    {
      isGrounded := grounded;
    }

    method SetDodging(dashing: bool)
      modifies this
      ensures State() == old(State()).(isDashing := dashing)
    {
      isDashing := dashing;
    }
  }
}
