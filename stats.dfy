/**
 * PlayerStats as an object whose methods update HP, stamina and damage in
 * place, each proved against the function of the same name in StatsRules.
 */
module Stats {
  import opened Common
  import opened StatsRules

  class PlayerStats {
    var HP: real
    var maxHP: real
    var stamina: real
    var lastStaminaUseTime: Stamp
    var damage: real
    var healthFill: real

    function State(): StatsState
      reads this
    {
      StatsState(HP, maxHP, stamina, lastStaminaUseTime, damage, healthFill)
    }

    ghost predicate Valid()
      reads this
    {
      Inv(State())
    }

    /** The inspector's values; the stamina use stamp starts at minus infinity. */
    constructor (hp: real, maxHP: real, stamina: real, damage: real)
      ensures State() == StatsState(hp, maxHP, stamina, NegInfinity, damage, 0.0)
      ensures 0.0 <= hp <= maxHP && 0.0 <= stamina <= MaxStamina ==> Valid()
    {
      this.HP := hp;
      this.maxHP := maxHP;
      this.stamina := stamina;
      this.lastStaminaUseTime := NegInfinity;
      this.damage := damage;
      this.healthFill := 0.0;
    }

    method Start()
      modifies this
      ensures State() == StatsRules.Start(old(State()))
      ensures old(maxHP) >= 0.0 && 0.0 <= old(stamina) <= MaxStamina ==> Valid()
    {
      if HP <= 0.0 || HP > maxHP {
        HP := maxHP;
      }
      UpdateHealthBar();
    }

    /** The stamina part of the per-frame update. */
    method Update(now: real, dt: real)
      modifies this
      ensures State() == Regen(old(State()), now, dt)
      ensures old(Valid()) && dt >= 0.0 ==> Valid()
    {
      if RegenDue(now, lastStaminaUseTime) && stamina < MaxStamina {
        stamina := stamina + StaminaRegenRate * dt;
        if stamina > MaxStamina {
          stamina := MaxStamina;
        }
      }
    }

    method UpdateHealthBar()
      modifies this
      ensures State() == StatsRules.UpdateHealthBar(old(State()))
      ensures old(Valid()) ==> Valid()
    {
      if HP > maxHP {
        HP := maxHP;
      }
      if HP < 0.0 {
        HP := 0.0;
      }
      healthFill := if maxHP > 0.0 then HP / maxHP else 0.0;
    }

    /** Spends stamina at once, or gradually over the given frames (the first
        being the frame of the call); `drained` is what the gradual drain took
        and `used` how many frames it ran. */
    method UseStamina(amount: real, instant: bool, now: real, frames: seq<Clock>) returns (drained: real, used: nat)
      requires forall i :: 0 <= i < |frames| ==> frames[i].deltaTime >= 0.0
      modifies this
      ensures instant ==> State() == UseStaminaInstant(old(State()), amount, now) && drained == 0.0 && used == 0
      ensures !instant ==> DrainRun(State(), drained, used) == SmoothDrain(old(State()), amount, 0.0, frames)
      ensures !instant ==> 0.0 <= drained && (amount >= 0.0 ==> drained <= amount)
      ensures !instant && amount >= 0.0 ==> drained == Min(amount, DrainSpeed * SumDt(frames[..used]))
      ensures !instant && used > 0 ==> DrainSpeed * SumDt(frames[..used - 1]) < amount
      ensures !instant && used < |frames| ==> drained >= amount
      ensures !instant && old(stamina) >= 0.0 ==> stamina == Max(0.0, old(stamina) - drained)
      ensures !instant ==> State().(stamina := old(stamina), lastStaminaUseTime := old(lastStaminaUseTime)) == old(State())
      ensures old(Valid()) && amount >= 0.0 ==> Valid()
    {
      drained, used := 0.0, 0;
      if instant {
        var st := stamina - amount;
        stamina := if st < 0.0 then 0.0 else st;
        lastStaminaUseTime := At(now);
      } else {
        drained, used := SmoothDrainStamina(amount, frames);
      }
    }

    /** The gradual drain coroutine, resumed once per frame until the whole amount
        is drained or the frames run out: it ends where SmoothDrain says, having
        taken min(amount, drain speed times the time of the frames it used), and it
        used a frame only while the frames before it had not covered the amount. */
    method SmoothDrainStamina(amount: real, frames: seq<Clock>) returns (drained: real, used: nat)
      requires forall i :: 0 <= i < |frames| ==> frames[i].deltaTime >= 0.0
      modifies this
      ensures DrainRun(State(), drained, used) == SmoothDrain(old(State()), amount, 0.0, frames)
      ensures 0.0 <= drained && (amount >= 0.0 ==> drained <= amount)
      ensures amount >= 0.0 ==> drained == Min(amount, DrainSpeed * SumDt(frames[..used]))
      ensures used > 0 ==> DrainSpeed * SumDt(frames[..used - 1]) < amount
      // the loop stops early only once the whole amount is drained
      ensures used < |frames| ==> drained >= amount
      ensures old(stamina) >= 0.0 ==> stamina == Max(0.0, old(stamina) - drained)
      ensures used > 0 ==> lastStaminaUseTime == At(frames[used - 1].time)
      ensures used == 0 ==> State() == old(State())
      ensures State().(stamina := old(stamina), lastStaminaUseTime := old(lastStaminaUseTime)) == old(State())
      ensures old(Valid()) ==> Valid()
    {
      ghost var r0 := SmoothDrain(State(), amount, 0.0, frames);
      ghost var current := State();
      drained, used := 0.0, 0;
      while drained < amount && used < |frames|
        invariant used <= |frames| && current == State()
        invariant ResumesAs(current, amount, drained, frames, used, r0)
        decreases |frames| - used
      {
        ghost var before, drainedBefore := current, drained;
        var drainThisFrame := DrainThisFrame(amount, drained, frames[used].deltaTime);
        stamina := stamina - drainThisFrame;
        drained := drained + drainThisFrame;
        if stamina < 0.0 {
          stamina := 0.0;
        }
        lastStaminaUseTime := At(frames[used].time);
        current := DrainFrame(current, drainThisFrame, frames[used].time);
        SmoothDrainStep(before, amount, drainedBefore, frames, used, r0, drainThisFrame, current);
        used := used + 1;
      }
      assert frames[used..] == [] || drained >= amount;
      assert current == r0.state && drained == r0.drained && used == r0.used;
      SmoothDrainFromStart(old(State()), amount, frames, r0);
      SmoothDrainStamps(old(State()), amount, 0.0, frames, r0);
    }

    method TakeDamage(amount: real, hasCombat: bool, now: real)
      modifies this
      ensures State() == StatsRules.TakeDamage(old(State()), amount, hasCombat, now)
      ensures old(Valid()) && amount >= 0.0 ==> Valid()
    {
      if hasCombat {
        if stamina > 0.0 {
          var ignored, ignoredFrames := UseStamina(amount * BlockStaminaShare, true, now, []);
          var reducedDamage := amount * BlockedDamageShare;
          HP := HP - reducedDamage;
          UpdateHealthBar();
          return;
        }
      }
      HP := HP - amount;
      if HP < 0.0 {
        HP := 0.0;
      }
      UpdateHealthBar();
    }

    method RegainHP(amount: real)
      modifies this
      ensures State() == StatsRules.RegainHP(old(State()), amount)
      ensures old(Valid()) ==> Valid()
    {
      HP := HP + amount;
      if HP > maxHP {
        HP := maxHP;
      }
      UpdateHealthBar();
    }

    method RegainStamina(amount: real)
      modifies this
      ensures State() == StatsRules.RegainStamina(old(State()), amount)
      ensures old(Valid()) && amount >= 0.0 ==> Valid()
    {
      stamina := stamina + amount;
      if stamina > MaxStamina {
        stamina := MaxStamina;
      }
    }

    method UpgradeHP(upgradeAmount: int)
      modifies this
      ensures State() == StatsRules.UpgradeHP(old(State()), upgradeAmount)
      ensures old(Valid()) && old(maxHP) + upgradeAmount as real >= 0.0 ==> Valid()
    {
      maxHP := maxHP + upgradeAmount as real;
      HP := HP + upgradeAmount as real;
      UpdateHealthBar();
    }

    method UpgradeDamage(upgradeAmount: int)
      modifies this
      ensures State() == StatsRules.UpgradeDamage(old(State()), upgradeAmount)
      ensures old(Valid()) ==> Valid()
    {
      damage := damage + upgradeAmount as real;
    }

    /** Hits another character (possibly this one) with this character's damage. */
    method DealDamage(target: PlayerStats?, targetHasCombat: bool, now: real)
      modifies target
      ensures target != null ==>
                target.State() == StatsRules.TakeDamage(old(target.State()), old(damage), targetHasCombat, now)
    {
      if target != null {
        target.TakeDamage(damage, targetHasCombat, now);
      }
    }
  }
}
