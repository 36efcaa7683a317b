/**
 * PlayerController's locomotion state machine as values: the jump counter and
 * vertical speed, dodge gating and its timer, and the ledge-grab flags.
 *
 * The engine's answers are arguments: the ground probe (CharacterController
 * grounded or the short downward ray), whether the two ledge rays found a
 * grabbable ledge, the value of the dodge gravity curve at the current dodge
 * progress, the animator's "Ground" parameter, and the clock.
 */
module LocomotionRules {

  /** Inspector defaults of the controller. */
  const JumpHeight: real := 9.0
  const Gravity: real := 20.0
  const DodgeDuration: real := 0.35
  const DodgeCooldown: real := 0.8
  const DodgeStaminaCost: real := 25.0
  /** Vertical speed that keeps the character pressed to the ground. */
  const GroundStick: real := -10.0

  /** The fields of PlayerController that its decisions read and write;
      groundParam mirrors the animator's "Ground" bool, which the controller
      both reads and writes. */
  datatype MoveState = MoveState(
    dodgeTimer: real,
    isDodging: bool,
    lastDodgeTime: real,
    onGround: bool,
    vSpeed: real,
    jumpCount: int,
    isLedgeGrabbing: bool,
    groundParam: bool)

  /** At most two jumps before landing, and never dodging while hanging on a ledge. */
  predicate Inv(s: MoveState)
  {
    0 <= s.jumpCount <= 2 && !(s.isDodging && s.isLedgeGrabbing)
  }

  /** The fields' declared defaults. */
  function Initial(groundParam: bool): (s: MoveState)
    ensures Inv(s) && s.onGround && s.jumpCount == 0 && !s.isDodging && !s.isLedgeGrabbing
  {
    MoveState(0.0, false, -999.0, true, GroundStick, 0, false, groundParam)
  }

  /** Ground check, landing, jump and double jump, gravity. Nothing happens
      while the combat controller is attacking. */
  function Jumping(s: MoveState, dt: real, jumpPressed: bool, groundProbe: bool, isAttacking: bool): (t: MoveState)
    ensures isAttacking ==> t == s
    ensures !isAttacking ==> t.onGround == groundProbe && t.groundParam == groundProbe
    // landing: the "Ground" flag flips while grounded
    ensures !isAttacking && groundProbe && s.groundParam != groundProbe && !jumpPressed ==>
              t.vSpeed == GroundStick && t.jumpCount == 0
    // a grounded press is the first jump
    ensures !isAttacking && groundProbe && jumpPressed ==> t.vSpeed == JumpHeight && t.jumpCount == 1
    // a grounded frame without landing or a press keeps speed and count
    ensures !isAttacking && groundProbe && s.groundParam == groundProbe && !jumpPressed ==>
              t.vSpeed == s.vSpeed && t.jumpCount == s.jumpCount
    // in the air, only a press with one jump used is a (second and last) jump
    ensures !isAttacking && !groundProbe && jumpPressed && s.jumpCount == 1 ==>
              t.vSpeed == JumpHeight && t.jumpCount == 2
    // walking off the ground: no fall speed on that frame, one jump counted
    ensures !isAttacking && !groundProbe && s.onGround && s.jumpCount == 0 ==>
              t.vSpeed == 0.0 && t.jumpCount == 1
    // any other airborne frame falls under gravity
    ensures !isAttacking && !groundProbe && !(s.onGround && s.jumpCount == 0) && !(jumpPressed && s.jumpCount == 1) ==>
              t.vSpeed == s.vSpeed - Gravity * dt && t.jumpCount == (if s.jumpCount == 0 then 1 else s.jumpCount)
    // airborne after the frame means at least one jump is counted
    ensures !isAttacking && !t.onGround && 0 <= s.jumpCount ==> t.jumpCount >= 1
    ensures t.(onGround := s.onGround, vSpeed := s.vSpeed, jumpCount := s.jumpCount, groundParam := s.groundParam) == s
    ensures Inv(s) ==> Inv(t)
  {
    if isAttacking then s
    else
      var wasGrounded := s.onGround;
      var onGround := groundProbe;
      var landed := s.groundParam != onGround;
      var s1 := s.(onGround := onGround, groundParam := onGround);
      var s2 :=
        if onGround then
          var a := if landed then s1.(vSpeed := GroundStick, jumpCount := 0) else s1;
          if jumpPressed then a.(vSpeed := JumpHeight, jumpCount := 1) else a
        else
          var a := if wasGrounded && s1.jumpCount == 0 then s1.(vSpeed := 0.0)
                   else s1.(vSpeed := s1.vSpeed - Gravity * dt);
          if a.jumpCount == 1 && jumpPressed then a.(vSpeed := JumpHeight, jumpCount := 2) else a;
      if !s2.onGround && s2.jumpCount == 0 then s2.(jumpCount := 1) else s2
  }

  /** The dodge gate of Update: a press, not already dodging or hanging, the
      cooldown strictly over, and enough stamina for the cost. */
  predicate DodgeAllowed(s: MoveState, now: real, dodgePressed: bool, stamina: real)
    // the gate's exclusion of a ledge grab is what keeps a dodge from overlapping one
    ensures DodgeAllowed(s, now, dodgePressed, stamina) && Inv(s) ==> Inv(StartDodge(s, now))
  {
    dodgePressed && !s.isDodging && !s.isLedgeGrabbing && now > s.lastDodgeTime + DodgeCooldown &&
    stamina >= DodgeStaminaCost
  }

  /** Starts a dodge; the stamina cost is spent by the caller's PlayerStats. */
  function StartDodge(s: MoveState, now: real): (t: MoveState)
    ensures t.isDodging && t.dodgeTimer == 0.0 && t.lastDodgeTime == now
    ensures t.(isDodging := s.isDodging, dodgeTimer := s.dodgeTimer, lastDodgeTime := s.lastDodgeTime) == s
    ensures Inv(s) && !s.isLedgeGrabbing ==> Inv(t)
  {
    s.(dodgeTimer := 0.0, isDodging := true, lastDodgeTime := now)
  }

  /** Advances the dodge timer: while the progress is below 1 the dodge falls with
      the curve-scaled gravity, once it reaches 1 the dodge is over. */
  function UpdateDodge(s: MoveState, dt: real, gravityFactor: real): (t: MoveState)
    ensures t.dodgeTimer == s.dodgeTimer + dt
    ensures t.isDodging == (s.isDodging && t.dodgeTimer / DodgeDuration < 1.0)
    ensures t.dodgeTimer / DodgeDuration < 1.0 ==> t.vSpeed == s.vSpeed - Gravity * gravityFactor * dt
    ensures t.dodgeTimer / DodgeDuration >= 1.0 ==> t.vSpeed == s.vSpeed
    ensures t.(dodgeTimer := s.dodgeTimer, isDodging := s.isDodging, vSpeed := s.vSpeed) == s
    ensures Inv(s) ==> Inv(t)
  {
    var timer := s.dodgeTimer + dt;
    var progress := timer / DodgeDuration;
    if progress < 1.0 then s.(dodgeTimer := timer, vSpeed := s.vSpeed - Gravity * gravityFactor * dt)
    else s.(dodgeTimer := timer, isDodging := false)
  }

  /** StartLedgeClimb: hang on the ledge with the controller disabled. */
  function StartLedgeClimb(s: MoveState): (t: MoveState)
    ensures t.isLedgeGrabbing && !t.groundParam && t.vSpeed == 0.0
    ensures t.(isLedgeGrabbing := s.isLedgeGrabbing, groundParam := s.groundParam, vSpeed := s.vSpeed) == s
  {
    s.(isLedgeGrabbing := true, groundParam := false, vSpeed := 0.0)
  }

  /** A grabbable ledge cancels any dodge, stops the fall and starts the climb. */
  function CheckLedgeGrab(s: MoveState, ledgeFound: bool): (t: MoveState)
    ensures !ledgeFound ==> t == s
    ensures ledgeFound ==> t.isLedgeGrabbing && !t.isDodging && t.vSpeed == 0.0 && !t.groundParam
    ensures ledgeFound ==>
              t.(isLedgeGrabbing := s.isLedgeGrabbing, isDodging := s.isDodging, vSpeed := s.vSpeed,
                 groundParam := s.groundParam) == s
    ensures Inv(s) ==> Inv(t)
  {
    if ledgeFound then StartLedgeClimb(s.(isDodging := false, vSpeed := 0.0)) else s
  }

  /** The climb animation's end: leave the ledge and stick to the ground again. */
  function EndLedgeClimb(s: MoveState): (t: MoveState)
    ensures !s.isLedgeGrabbing ==> t == s
    ensures s.isLedgeGrabbing ==> t == s.(isLedgeGrabbing := false, vSpeed := GroundStick)
    ensures Inv(s) ==> Inv(t)
  {
    if !s.isLedgeGrabbing then s else s.(isLedgeGrabbing := false, vSpeed := GroundStick)
  }

  /** The recovery at the end of the grab coroutine when the climb animation never started. */
  function LedgeClimbRecovery(s: MoveState, climbStateReached: bool): (t: MoveState)
    ensures climbStateReached ==> t == s
    ensures !climbStateReached ==> t == s.(isLedgeGrabbing := false, vSpeed := GroundStick)
    ensures Inv(s) ==> Inv(t)
  {
    if climbStateReached then s else s.(isLedgeGrabbing := false, vSpeed := GroundStick)
  }

  /** What the engine reports for one frame. */
  datatype Frame = Frame(
    now: real,
    dt: real,
    dodgePressed: bool,
    jumpPressed: bool,
    groundProbe: bool,
    ledgeFound: bool,
    gravityFactor: real)

  /** The frame's moves before the dodge gate: free movement and jumping, or the dodge
      in progress, then the ledge check while airborne. */
  function Move(s: MoveState, f: Frame, isAttacking: bool): (t: MoveState)
    ensures Inv(s) ==> Inv(t)
    ensures t.lastDodgeTime == s.lastDodgeTime
    // movement and jumping only run when neither dodging nor hanging
    ensures s.isDodging || s.isLedgeGrabbing ==> t.jumpCount == s.jumpCount && t.onGround == s.onGround
  {
    var a :=
      if !s.isDodging && !s.isLedgeGrabbing then Jumping(s, f.dt, f.jumpPressed, f.groundProbe, isAttacking)
      else if s.isDodging then UpdateDodge(s, f.dt, f.gravityFactor)
      else s;
    if !a.onGround && !a.isLedgeGrabbing then CheckLedgeGrab(a, f.ledgeFound) else a
  }

  /** Update. The combat controller learns the result's onGround; PlayerStats spends
      the dodge cost when DodgeStarts says so. */
  function Update(s: MoveState, f: Frame, isAttacking: bool, stamina: real): (t: MoveState)
    ensures Inv(s) ==> Inv(t)
  {
    var a := Move(s, f, isAttacking);
    if DodgeAllowed(a, f.now, f.dodgePressed, stamina) then StartDodge(a, f.now) else a
  }

  predicate DodgeStarts(s: MoveState, f: Frame, isAttacking: bool, stamina: real)
  {
    DodgeAllowed(Move(s, f, isAttacking), f.now, f.dodgePressed, stamina)
  }

  /** A dodge starts only with enough stamina, and never twice within the cooldown. */
  lemma DodgeGate(s: MoveState, f: Frame, isAttacking: bool, stamina: real)
    ensures DodgeStarts(s, f, isAttacking, stamina) ==>
              stamina >= DodgeStaminaCost && f.now > s.lastDodgeTime + DodgeCooldown &&
              Update(s, f, isAttacking, stamina).isDodging &&
              Update(s, f, isAttacking, stamina).lastDodgeTime == f.now
    ensures !DodgeStarts(s, f, isAttacking, stamina) ==>
              Update(s, f, isAttacking, stamina).lastDodgeTime == s.lastDodgeTime
  {
  }

  /** Everything that drives the controller from outside. */
  datatype MoveEvent =
    | Tick(frame: Frame, isAttacking: bool, stamina: real)
    | ClimbEnded
    | ClimbRecovery(climbStateReached: bool)

  function Apply(s: MoveState, e: MoveEvent): (t: MoveState)
    ensures Inv(s) ==> Inv(t)
  {
    match e
    case Tick(f, attacking, stamina) => Update(s, f, attacking, stamina)
    case ClimbEnded => EndLedgeClimb(s)
    case ClimbRecovery(reached) => LedgeClimbRecovery(s, reached)
  }

  function Run(s: MoveState, events: seq<MoveEvent>): (t: MoveState)
    decreases |events|
  {
    if events == [] then s else Run(Apply(s, events[0]), events[1..])
  }

  /** Over any run the jump counter stays in {0, 1, 2} and a dodge never overlaps a ledge grab. */
  lemma {:induction false} RunKeepsInv(s: MoveState, events: seq<MoveEvent>)
    requires Inv(s)
    ensures Inv(Run(s, events))
    decreases |events|
  {
    if events != [] {
      RunKeepsInv(Apply(s, events[0]), events[1..]);
    }
  }

  /** A run either starts no dodge or its last dodge began more than the cooldown
      after the dodge before the run. */
  lemma {:induction false} DodgesRespectCooldown(s: MoveState, events: seq<MoveEvent>)
    ensures Run(s, events).lastDodgeTime == s.lastDodgeTime ||
            Run(s, events).lastDodgeTime > s.lastDodgeTime + DodgeCooldown
    decreases |events|
  {
    if events != [] {
      var t := Apply(s, events[0]);
      DodgesRespectCooldown(t, events[1..]);
    }
  }
}
