/**
 * PlayerController as an object: its per-frame update moves the locomotion
 * fields step by step, tells the combat controller whether the player is
 * grounded, and spends the dodge cost from the player's stats.
 */
module Locomotion {
  import opened LocomotionRules
  import Combat
  import Stats
  import StatsRules

  class PlayerController {
    var dodgeTimer: real
    var isDodging: bool
    var lastDodgeTime: real
    var onGround: bool
    var vSpeed: real
    var jumpCount: int
    var isLedgeGrabbing: bool
    /** The animator's "Ground" parameter. */
    var groundParam: bool

    const combat: Combat.CombatController
    const playerStats: Stats.PlayerStats

    function State(): MoveState
      reads this
    {
      MoveState(dodgeTimer, isDodging, lastDodgeTime, onGround, vSpeed, jumpCount, isLedgeGrabbing, groundParam)
    }

    ghost predicate Valid()
      reads this
    {
      Inv(State())
    }

    /** Field initialisers; Start looks up the sibling components. */
    constructor (combat: Combat.CombatController, playerStats: Stats.PlayerStats, groundParam: bool)
      ensures State() == Initial(groundParam) && Valid()
      ensures this.combat == combat && this.playerStats == playerStats
    {
      this.combat := combat;
      this.playerStats := playerStats;
      dodgeTimer := 0.0;
      isDodging := false;
      lastDodgeTime := -999.0;
      onGround := true;
      vSpeed := GroundStick;
      jumpCount := 0;
      isLedgeGrabbing := false;
      this.groundParam := groundParam;
    }

    method Update(f: Frame)
      modifies this, combat, playerStats
      ensures State() == LocomotionRules.Update(old(State()), f, old(combat.isAttacking), old(playerStats.stamina))
      ensures old(Valid()) ==> Valid()
      ensures combat.State() == old(combat.State()).(isGrounded := Move(old(State()), f, old(combat.isAttacking)).onGround)
      ensures playerStats.State() ==
                if DodgeStarts(old(State()), f, old(combat.isAttacking), old(playerStats.stamina))
                then StatsRules.UseStaminaInstant(old(playerStats.State()), DodgeStaminaCost, f.now)
                else old(playerStats.State())
    {
      MoveForFrame(f);
      combat.SetGrounded(onGround);
      DodgeIfAllowed(f.now, f.dodgePressed);
    }

    /** The movement half of the update: jumping when free, the dodge when dodging,
        then the ledge check when airborne. */
    method MoveForFrame(f: Frame)
      modifies this
      ensures State() == Move(old(State()), f, combat.isAttacking)
    {
      if !isDodging && !isLedgeGrabbing {
        // Movement only drives the CharacterController and the animator.
        Jumping(f.dt, f.jumpPressed, f.groundProbe);
      } else if isDodging {
        UpdateDodge(f.dt, f.gravityFactor);
      }

      if !onGround && !isLedgeGrabbing {
        CheckLedgeGrab(f.ledgeFound);
      }
    }

    /** The dodge half of the update: a dodge starts when the gate allows it. */
    method DodgeIfAllowed(now: real, dodgePressed: bool)
      modifies this, playerStats
      ensures var allowed := DodgeAllowed(old(State()), now, dodgePressed, old(playerStats.stamina));
        State() == (if allowed then LocomotionRules.StartDodge(old(State()), now) else old(State())) &&
        playerStats.State() ==
          if allowed then StatsRules.UseStaminaInstant(old(playerStats.State()), DodgeStaminaCost, now)
          else old(playerStats.State())
    {
      if dodgePressed && !isDodging && !isLedgeGrabbing && now > lastDodgeTime + DodgeCooldown {
        if playerStats.stamina >= DodgeStaminaCost {
          StartDodge(now);
        }
      }
    }

    method Jumping(dt: real, jumpPressed: bool, groundProbe: bool)
      modifies this
      ensures State() == LocomotionRules.Jumping(old(State()), dt, jumpPressed, groundProbe, combat.isAttacking)
    {
      if combat.isAttacking {
        return;
      }
      var wasGrounded := onGround;
      onGround := groundProbe;
      var landed := groundParam != onGround;
      groundParam := onGround;

      if onGround {
        if landed {
          vSpeed := GroundStick;
          jumpCount := 0;
        }
        if jumpPressed {
          vSpeed := JumpHeight;
          jumpCount := 1;
        }
      } else {
        if wasGrounded && jumpCount == 0 {
          vSpeed := 0.0;
        } else {
          vSpeed := vSpeed - Gravity * dt;
        }
        if jumpCount == 1 && jumpPressed {
          vSpeed := JumpHeight;
          jumpCount := 2;
        }
      }

      if !onGround && jumpCount == 0 {
        jumpCount := 1;
      }
    }

    /** Starts the dodge and spends its stamina cost at once. */
    method StartDodge(now: real)
      modifies this, playerStats
      ensures State() == LocomotionRules.StartDodge(old(State()), now)
      ensures playerStats.State() == StatsRules.UseStaminaInstant(old(playerStats.State()), DodgeStaminaCost, now)
    {
      dodgeTimer := 0.0;
      isDodging := true;
      var ignored, ignoredFrames := playerStats.UseStamina(DodgeStaminaCost, true, now, []);
      lastDodgeTime := now;
    }

    /** The timer and flag part of the dodge; the curve-driven horizontal push is
        left to the engine, `gravityFactor` is the gravity curve's value. */
    method UpdateDodge(dt: real, gravityFactor: real)
      modifies this
      ensures State() == LocomotionRules.UpdateDodge(old(State()), dt, gravityFactor)
    {
      dodgeTimer := dodgeTimer + dt;
      var t := dodgeTimer / DodgeDuration;
      if t < 1.0 {
        vSpeed := vSpeed - Gravity * gravityFactor * dt;
      } else {
        isDodging := false;
      }
    }

    /** `ledgeFound` is the verdict of the two ledge rays and the top normal test. */
    method CheckLedgeGrab(ledgeFound: bool)
      modifies this
      ensures State() == LocomotionRules.CheckLedgeGrab(old(State()), ledgeFound)
    {
      if ledgeFound {
        if isDodging {
          isDodging := false;
        }
        vSpeed := 0.0;
        StartLedgeClimb();
      }
    }

    method StartLedgeClimb()
      modifies this
      ensures State() == LocomotionRules.StartLedgeClimb(old(State()))
    {
      isLedgeGrabbing := true;
      groundParam := false;
      vSpeed := 0.0;
    }

    method EndLedgeClimb()
      modifies this
      ensures State() == LocomotionRules.EndLedgeClimb(old(State()))
      ensures old(Valid()) ==> Valid()
    {
      if !isLedgeGrabbing {
        return;
      }
      isLedgeGrabbing := false;
      vSpeed := GroundStick;
    }

    /** The end of the grab coroutine, once its waits are over. */
    method LedgeClimbRecovery(climbStateReached: bool)
      modifies this
      ensures State() == LocomotionRules.LedgeClimbRecovery(old(State()), climbStateReached)
      ensures old(Valid()) ==> Valid()
    {
      if !climbStateReached {
        isLedgeGrabbing := false;
        vSpeed := GroundStick;
      }
    }
  }
}
