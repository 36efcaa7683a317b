/**
 * The melee combo state machine and the soft-lock target choice of
 * CombatController, as values and transition functions.
 *
 * Everything the controller asks the engine during a frame is an argument:
 * the clock (`now`), whether the attack button was pressed, whether the
 * animator's current state carries the "Attack" tag, and the colliders that
 * the overlap sphere returned, each with the angle and the distance the engine
 * computed for it.
 */
module CombatRules {
  import opened Common

  /** Inspector defaults of the controller. */
  const ComboResetTime: real := 1.2
  const SoftLockAngle: real := 60.0
  const SheathDelay: real := 10.0
  /** A fresh attack this soon after a combo ended is refused, unless the step is the last one. */
  const ComboCooldown: real := 0.3
  const LastComboStep: int := 5

  /** Identity of the Transform behind a collider. */
  type TargetId = nat

  /** One collider from the overlap sphere: its Transform, whether it is tagged
      "Enemy", the angle between the reference direction and the direction to it,
      and its distance from the player. */
  datatype Hit = Hit(target: TargetId, isEnemy: bool, angle: real, distance: real)

  // ---------------------------------------------------------------------------
  // Soft-lock target choice
  // ---------------------------------------------------------------------------

  /** A hit the scan may keep: an enemy strictly inside the angle limit. */
  predicate Qualifies(h: Hit, angleLimit: real)
  {
    h.isEnemy && h.angle < angleLimit
  }

  /** Hit i is a nearest qualifying hit, and no earlier qualifying hit is as near. */
  predicate IsClosestEnemy(hits: seq<Hit>, angleLimit: real, i: int)
  {
    0 <= i < |hits| && Qualifies(hits[i], angleLimit) &&
    (forall j :: 0 <= j < |hits| && Qualifies(hits[j], angleLimit) ==> hits[i].distance <= hits[j].distance) &&
    (forall j :: 0 <= j < i && Qualifies(hits[j], angleLimit) ==> hits[i].distance < hits[j].distance)
  }

  /** The index the scan holds after looking at every hit from left to right;
      None stands for the null target (closest distance still infinite). */
  function ClosestEnemyIndex(hits: seq<Hit>, angleLimit: real): (r: Option<nat>)
    ensures r.Some? ==> r.value < |hits|
  {
    if hits == [] then None
    else
      var k := |hits| - 1;
      var before := ClosestEnemyIndex(hits[..k], angleLimit);
      if Qualifies(hits[k], angleLimit) && (before.None? || hits[k].distance < hits[before.value].distance)
      then Some(k)
      else before
  }

  /** The scan returns the nearest qualifying hit (the earliest of equally near
      ones) and returns null exactly when no hit qualifies. */
  lemma {:induction false} ClosestEnemyIndexCorrect(hits: seq<Hit>, angleLimit: real)
    ensures ClosestEnemyIndex(hits, angleLimit).Some? ==>
              IsClosestEnemy(hits, angleLimit, ClosestEnemyIndex(hits, angleLimit).value)
    ensures ClosestEnemyIndex(hits, angleLimit).None? <==>
              forall j :: 0 <= j < |hits| ==> !Qualifies(hits[j], angleLimit)
  {
    if hits != [] {
      var k := |hits| - 1;
      var prefix := hits[..k];
      ClosestEnemyIndexCorrect(prefix, angleLimit);
      assert forall j :: 0 <= j < k ==> prefix[j] == hits[j];
      var before := ClosestEnemyIndex(prefix, angleLimit);
      if before.Some? {
        assert IsClosestEnemy(prefix, angleLimit, before.value);
      }
    }
  }

  /** The Transform of the chosen hit, or null. */
  function ClosestTarget(hits: seq<Hit>): (t: Option<TargetId>)
    ensures t.None? <==> forall j :: 0 <= j < |hits| ==> !Qualifies(hits[j], SoftLockAngle)
    ensures t.Some? ==> exists i :: IsClosestEnemy(hits, SoftLockAngle, i) && t.value == hits[i].target
  {
    ClosestEnemyIndexCorrect(hits, SoftLockAngle);
    match ClosestEnemyIndex(hits, SoftLockAngle)
    case None => None
    case Some(i) => Some(hits[i].target)
  }

  // ---------------------------------------------------------------------------
  // Combo state machine
  // ---------------------------------------------------------------------------

  /** The fields of CombatController that its decisions read and write. */
  datatype ComboState = ComboState(
    comboStep: int,
    comboQueued: bool,
    isAttacking: bool,
    isSheathed: bool,
    isGrounded: bool,
    isDashing: bool,
    lastClickTime: real,
    comboEndTime: real,
    lastCombatActionTime: real,
    currentTarget: Option<TargetId>)

  /** The combo step is one of 0..5, and an attack in progress is at step 1 or later. */
  predicate Inv(s: ComboState)
  {
    0 <= s.comboStep <= LastComboStep && (s.isAttacking ==> 1 <= s.comboStep)
  }

  /** The fields' declared defaults, after Start has sheathed the staff. */
  function Started(): (s: ComboState)
    ensures Inv(s) && s.comboStep == 0 && !s.isAttacking && s.isSheathed
  {
    ComboState(0, false, false, true, true, false, 0.0, 0.0, 0.0, None)
  }

  /** Stamps the time of the last combat action and draws the staff. */
  function RegisterCombatAction(s: ComboState, now: real): (t: ComboState)
    ensures t.lastCombatActionTime == now && !t.isSheathed
    ensures t.(lastCombatActionTime := s.lastCombatActionTime, isSheathed := s.isSheathed) == s
  {
    s.(lastCombatActionTime := now, isSheathed := false)
  }

  /** Starts the attack animation for the current step. The animator layer-weight
      branch also draws the staff; RegisterCombatAction does that in every case. */
  function TriggerLightAttack(s: ComboState, now: real, inAttackState: bool, hits: seq<Hit>): (t: ComboState)
    ensures s.isDashing || inAttackState ==> t == s
    ensures !s.isDashing && !inAttackState ==>
              t.isAttacking && t.comboStep == (if s.comboStep == 0 then 1 else s.comboStep) &&
              t.lastCombatActionTime == now && !t.isSheathed &&
              t.currentTarget == ClosestTarget(hits) &&
              t.comboQueued == s.comboQueued && t.lastClickTime == s.lastClickTime &&
              t.comboEndTime == s.comboEndTime
    // nothing but the attack flag, the step, the action stamp, the sheath and the target changes
    ensures t.(isAttacking := s.isAttacking, comboStep := s.comboStep, lastCombatActionTime := s.lastCombatActionTime,
               isSheathed := s.isSheathed, currentTarget := s.currentTarget) == s
    ensures 0 <= s.comboStep <= LastComboStep ==> Inv(t) || t == s
  {
    if s.isDashing || inAttackState then s
    else
      var started := s.(isAttacking := true, comboStep := if s.comboStep == 0 then 1 else s.comboStep);
      // The lookup behind `currentTarget == null` is overwritten at once by the
      // unconditional lookup in GetAttackDirection: the target is always re-chosen.
      RegisterCombatAction(started, now).(currentTarget := ClosestTarget(hits))
  }

  /** One frame's handling of the light-attack button. */
  function HandleCombatInput(s: ComboState, now: real, meleePressed: bool, inAttackState: bool, hits: seq<Hit>): (t: ComboState)
    // ignored while dashing, without a press, or in the air
    ensures s.isDashing || !meleePressed || !s.isGrounded ==> t == s
    // a press during an attack only queues the next swing
    ensures !s.isDashing && meleePressed && s.isGrounded && (s.isAttacking || inAttackState) ==>
              t == s.(comboQueued := true)
    // a fresh attack right after a finished combo is refused unless at the last step
    ensures (!s.isDashing && meleePressed && s.isGrounded && !s.isAttacking && !inAttackState &&
             now - s.comboEndTime < ComboCooldown && s.comboStep != LastComboStep) ==> t == s
    // otherwise a fresh attack starts: at step 1 after a pause longer than the reset time
    ensures (!s.isDashing && meleePressed && s.isGrounded && !s.isAttacking && !inAttackState &&
             !(now - s.comboEndTime < ComboCooldown && s.comboStep != LastComboStep)) ==>
              t.isAttacking && t.lastClickTime == now && t.lastCombatActionTime == now &&
              !t.isSheathed && t.currentTarget == ClosestTarget(hits) &&
              t.comboQueued == s.comboQueued && t.comboEndTime == s.comboEndTime &&
              t.comboStep == (if now - s.lastClickTime > ComboResetTime || s.comboStep == 0 then 1 else s.comboStep)
    // only the combo fields, the stamps, the sheath and the target ever change
    ensures t.(comboStep := s.comboStep, comboQueued := s.comboQueued, isAttacking := s.isAttacking,
               lastClickTime := s.lastClickTime, lastCombatActionTime := s.lastCombatActionTime,
               isSheathed := s.isSheathed, currentTarget := s.currentTarget) == s
    ensures Inv(s) ==> Inv(t)
  {
    if s.isDashing then s
    else if !meleePressed then s
    else if !s.isGrounded || s.isDashing then s
    else if s.isAttacking || inAttackState then s.(comboQueued := true)
    else if now - s.comboEndTime < ComboCooldown && s.comboStep != LastComboStep then s
    else
      var step := if now - s.lastClickTime > ComboResetTime then 0 else s.comboStep;
      TriggerLightAttack(s.(comboStep := step, lastClickTime := now), now, inAttackState, hits)
  }

  /** The animation event that closes the window for chaining the next swing. */
  function ComboWindowEnd(s: ComboState, now: real): (t: ComboState)
    ensures s.isDashing ==> t == s
    // a queued press advances exactly one step and empties the queue
    ensures !s.isDashing && s.comboQueued && s.comboStep < LastComboStep ==>
              t.comboStep == s.comboStep + 1 && !t.comboQueued && t.isAttacking == s.isAttacking &&
              t.currentTarget == s.currentTarget && t.comboEndTime == s.comboEndTime
    // the last step wraps to the first and the attack goes on, queued or not
    ensures !s.isDashing && s.comboStep == LastComboStep ==>
              t.comboStep == 1 && t.isAttacking == s.isAttacking && t.comboQueued == s.comboQueued &&
              t.currentTarget == s.currentTarget && t.comboEndTime == s.comboEndTime
    // anything else ends the combo
    ensures !s.isDashing && !(s.comboQueued && s.comboStep < LastComboStep) && s.comboStep != LastComboStep ==>
              t.comboStep == 0 && !t.isAttacking && !t.comboQueued && t.currentTarget.None? &&
              t.comboEndTime == now
    ensures !s.isDashing ==> t.lastCombatActionTime == now && !t.isSheathed
    // the click stamp, the grounded and dashing flags are never touched
    ensures t.(comboStep := s.comboStep, comboQueued := s.comboQueued, isAttacking := s.isAttacking,
               currentTarget := s.currentTarget, comboEndTime := s.comboEndTime,
               lastCombatActionTime := s.lastCombatActionTime, isSheathed := s.isSheathed) == s
    ensures Inv(s) ==> Inv(t)
  {
    if s.isDashing then s
    else if s.comboQueued && s.comboStep < LastComboStep then
      RegisterCombatAction(s.(comboStep := s.comboStep + 1, comboQueued := false), now)
    else if s.comboStep == LastComboStep then
      RegisterCombatAction(s.(comboStep := 1), now)
    else
      RegisterCombatAction(
        s.(comboStep := 0, isAttacking := false, comboQueued := false, currentTarget := None, comboEndTime := now),
        now)
  }

  /** Abandons the attack in progress; a no-op when not attacking. */
  function CancelAttack(s: ComboState): (t: ComboState)
    ensures !s.isAttacking ==> t == s
    ensures s.isAttacking ==>
              t == s.(isAttacking := false, comboStep := 0, comboQueued := false, currentTarget := None)
    ensures Inv(s) ==> Inv(t)
  {
    if !s.isAttacking then s
    else s.(isAttacking := false, comboStep := 0, comboQueued := false, currentTarget := None)
  }

  /** Puts the staff away after a long enough idle spell on the ground. */
  function AutoSheath(s: ComboState, now: real): (t: ComboState)
    ensures t.isSheathed != s.isSheathed <==>
              !s.isAttacking && s.isGrounded && !s.isSheathed && now - s.lastCombatActionTime > SheathDelay
    ensures t.(isSheathed := s.isSheathed) == s
  {
    if !s.isAttacking && s.isGrounded && !s.isSheathed && now - s.lastCombatActionTime > SheathDelay
    then s.(isSheathed := true)
    else s
  }

  /** Interrupts a sheath animation that is playing. */
  function CancelSheath(s: ComboState, inSheathState: bool): (t: ComboState)
    ensures t.(isSheathed := s.isSheathed) == s
    ensures t.isSheathed == (s.isSheathed && !inSheathState)
  {
    if inSheathState then s.(isSheathed := false) else s
  }

  /** Retargets toward the stick direction while attacking: a qualifying enemy in
      that direction replaces the current target, otherwise the target stays. */
  function DirectionalTargeting(s: ComboState, inAttackState: bool, hasMoveInput: bool, directionHits: seq<Hit>): (t: ComboState)
    ensures t.(currentTarget := s.currentTarget) == s
    ensures t.currentTarget != s.currentTarget ==>
              (s.isAttacking || inAttackState) && hasMoveInput && t.currentTarget == ClosestTarget(directionHits)
    ensures t.currentTarget.None? ==> s.currentTarget.None?
    // and a target the directional scan finds is always taken
    ensures (s.isAttacking || inAttackState) && hasMoveInput && ClosestTarget(directionHits).Some? ==>
              t.currentTarget == ClosestTarget(directionHits)
  {
    if (s.isAttacking || inAttackState) && hasMoveInput then
      var newTarget := ClosestTarget(directionHits);
      if newTarget.Some? && newTarget != s.currentTarget then s.(currentTarget := newTarget) else s
    else s
  }

  /** What the engine reports to the controller's per-frame update. */
  datatype FrameInput = FrameInput(
    now: real,
    meleePressed: bool,
    inAttackState: bool,
    hasMoveInput: bool,
    forwardHits: seq<Hit>,     // hits measured against the player's forward direction
    directionHits: seq<Hit>)   // hits measured against the stick direction

  /** Update: input, then targeting while attacking, then the auto-sheath timer. */
  function Update(s: ComboState, f: FrameInput): (t: ComboState)
    ensures Inv(s) ==> Inv(t)
  {
    var afterInput := HandleCombatInput(s, f.now, f.meleePressed, f.inAttackState, f.forwardHits);
    var aimed := DirectionalTargeting(afterInput, f.inAttackState, f.hasMoveInput, f.directionHits);
    AutoSheath(aimed, f.now)
  }

  /** Every way the outside world drives the controller. */
  datatype ComboEvent =
    | Frame(input: FrameInput)
    | WindowEnd(now: real)
    | Cancel
    | SheathInterrupted(inSheathState: bool)
    | GroundedChanged(grounded: bool)
    | DodgingChanged(dashing: bool)

  function Apply(s: ComboState, e: ComboEvent): (t: ComboState)
    ensures Inv(s) ==> Inv(t)
    // the step is only ever reset to 0 or 1, kept, or advanced by one below the last step
    ensures t.comboStep == 0 || t.comboStep == 1 || t.comboStep == s.comboStep ||
            (t.comboStep == s.comboStep + 1 && s.comboStep < LastComboStep)
  {
    match e
    case Frame(f) => Update(s, f)
    case WindowEnd(now) => ComboWindowEnd(s, now)
    case Cancel => CancelAttack(s)
    case SheathInterrupted(inSheath) => CancelSheath(s, inSheath)
    case GroundedChanged(g) => s.(isGrounded := g)
    case DodgingChanged(d) => s.(isDashing := d)
  }

  function Run(s: ComboState, events: seq<ComboEvent>): (t: ComboState)
    decreases |events|
  {
    if events == [] then s else Run(Apply(s, events[0]), events[1..])
  }

  /** From Start on, whatever happens, the step stays in 0..5 and an attack in
      progress is at a step of at least 1. */
  lemma {:induction false} RunKeepsInv(s: ComboState, events: seq<ComboEvent>)
    requires Inv(s)
    ensures Inv(Run(s, events))
    decreases |events|
  {
    if events != [] {
      RunKeepsInv(Apply(s, events[0]), events[1..]);
    }
  }

  lemma ComboStepAlwaysInRange(events: seq<ComboEvent>)
    ensures 0 <= Run(Started(), events).comboStep <= LastComboStep
  {
    RunKeepsInv(Started(), events);
  }
}
