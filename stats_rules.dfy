/**
 * PlayerStats' resource bookkeeping as values: HP clamped to [0, maxHP],
 * stamina capped at 100 and floored at 0, regeneration after a delay, and the
 * blocking formula that trades stamina for a 75 % damage reduction.
 */
module StatsRules {
  import opened Common

  /** Hard-coded stamina ceiling. */
  const MaxStamina: real := 100.0
  /** Inspector defaults. */
  const StaminaRegenDelay: real := 1.0
  const StaminaRegenRate: real := 20.0
  /** Stamina per second taken by a gradual drain. */
  const DrainSpeed: real := 100.0
  /** Share of a hit that still reaches HP when it is blocked, and share of it paid in stamina. */
  const BlockedDamageShare: real := 0.25
  const BlockStaminaShare: real := 0.5

  /** The time stamp of the last stamina use; it starts at minus infinity. */
  datatype Stamp = NegInfinity | At(time: real)

  /** Regeneration is due once the delay has passed since the last use. */
  predicate RegenDue(now: real, last: Stamp)
  {
    match last
    case NegInfinity => true
    case At(t) => now - t >= StaminaRegenDelay
  }

  datatype StatsState = StatsState(
    HP: real,
    maxHP: real,
    stamina: real,
    lastStaminaUseTime: Stamp,
    damage: real,
    healthFill: real)   // the health bar image's fill amount

  /** HP within [0, maxHP] and stamina within [0, 100]. */
  predicate Inv(s: StatsState)
  {
    0.0 <= s.HP <= s.maxHP && 0.0 <= s.stamina <= MaxStamina
  }

  /** The fill amount of the health bar. */
  function HealthFraction(hp: real, maxHP: real): (r: real)
    ensures maxHP <= 0.0 ==> r == 0.0
    ensures maxHP > 0.0 ==> r * maxHP == hp
    ensures 0.0 <= hp <= maxHP ==> 0.0 <= r <= 1.0
  {
    if maxHP > 0.0 then hp / maxHP else 0.0
  }

  /** Clamps HP to [0, maxHP] and redraws the bar. */
  function UpdateHealthBar(s: StatsState): (t: StatsState)
    ensures s.maxHP >= 0.0 ==> 0.0 <= t.HP <= t.maxHP
    ensures 0.0 <= s.HP <= s.maxHP ==> t.HP == s.HP
    ensures s.maxHP >= 0.0 ==> t.HP == Max(0.0, Min(s.HP, s.maxHP))
    ensures t.healthFill == HealthFraction(t.HP, t.maxHP)
    ensures t.(HP := s.HP, healthFill := s.healthFill) == s
  {
    var hp1 := if s.HP > s.maxHP then s.maxHP else s.HP;
    var hp2 := if hp1 < 0.0 then 0.0 else hp1;
    s.(HP := hp2, healthFill := HealthFraction(hp2, s.maxHP))
  }

  /** Start: an HP that is not positive or above the maximum becomes the maximum. */
  function Start(s: StatsState): (t: StatsState)
    ensures s.maxHP > 0.0 ==> 0.0 < t.HP <= t.maxHP
    ensures 0.0 < s.HP <= s.maxHP ==> t.HP == s.HP
    ensures !(0.0 < s.HP <= s.maxHP) && s.maxHP >= 0.0 ==> t.HP == s.maxHP
    ensures t.healthFill == HealthFraction(t.HP, t.maxHP)
    ensures t.(HP := s.HP, healthFill := s.healthFill) == s
    ensures s.maxHP >= 0.0 && 0.0 <= s.stamina <= MaxStamina ==> Inv(t)
  {
    var hp := if s.HP <= 0.0 || s.HP > s.maxHP then s.maxHP else s.HP;
    UpdateHealthBar(s.(HP := hp))
  }

  /** The regeneration part of Update. */
  function Regen(s: StatsState, now: real, dt: real): (t: StatsState)
    ensures RegenDue(now, s.lastStaminaUseTime) && s.stamina < MaxStamina ==>
              t.stamina == Min(MaxStamina, s.stamina + StaminaRegenRate * dt)
    ensures !(RegenDue(now, s.lastStaminaUseTime) && s.stamina < MaxStamina) ==> t == s
    ensures s.stamina < MaxStamina ==> t.stamina <= MaxStamina
    ensures t.(stamina := s.stamina) == s
    ensures Inv(s) && dt >= 0.0 ==> Inv(t)
  {
    if RegenDue(now, s.lastStaminaUseTime) && s.stamina < MaxStamina then
      var st := s.stamina + StaminaRegenRate * dt;
      s.(stamina := if st > MaxStamina then MaxStamina else st)
    else s
  }

  /** UseStamina with instant set: spend at once, floored at 0, and stamp the use. */
  function UseStaminaInstant(s: StatsState, amount: real, now: real): (t: StatsState)
    ensures t.stamina == Max(0.0, s.stamina - amount)
    ensures t.lastStaminaUseTime == At(now)
    ensures t.(stamina := s.stamina, lastStaminaUseTime := s.lastStaminaUseTime) == s
    ensures Inv(s) && amount >= 0.0 ==> Inv(t)
  {
    var st := s.stamina - amount;
    s.(stamina := if st < 0.0 then 0.0 else st, lastStaminaUseTime := At(now))
  }

  /** How much one frame of a gradual drain takes: the frame's share at the drain
      speed, but never more than what is left of the amount. */
  function DrainThisFrame(amount: real, drained: real, dt: real): (x: real)
    ensures drained + x <= amount
    ensures dt >= 0.0 && drained <= amount ==> x >= 0.0
    ensures drained + x == amount <==> DrainSpeed * dt >= amount - drained
  {
    Min(DrainSpeed * dt, amount - drained)
  }

  /** One frame of the gradual drain coroutine. */
  function DrainFrame(s: StatsState, x: real, now: real): (t: StatsState)
    ensures t.stamina == Max(0.0, s.stamina - x) && t.lastStaminaUseTime == At(now)
    ensures t.(stamina := s.stamina, lastStaminaUseTime := s.lastStaminaUseTime) == s
  {
    var st := s.stamina - x;
    s.(stamina := if st < 0.0 then 0.0 else st, lastStaminaUseTime := At(now))
  }

  /** One frame of the engine's clock, as a coroutine sees it when it resumes. */
  datatype Clock = Clock(time: real, deltaTime: real)

  /** The time the given frames span. */
  function SumDt(frames: seq<Clock>): (r: real)
    ensures (forall i :: 0 <= i < |frames| ==> frames[i].deltaTime >= 0.0) ==> r >= 0.0
  {
    if frames == [] then 0.0 else frames[0].deltaTime + SumDt(frames[1..])
  }

  /** Where a gradual drain ends: the state, the total drained, and how many frames it used. */
  datatype DrainRun = DrainRun(state: StatsState, drained: real, used: nat)

  /** The gradual drain coroutine from a point where `drained` is already taken:
      one DrainFrame per frame, each taking DrainThisFrame, while less than the
      amount is drained and frames remain. */
  function SmoothDrain(s: StatsState, amount: real, drained: real, frames: seq<Clock>): (r: DrainRun)
    ensures r.used <= |frames|
    ensures r.used == 0 <==> drained >= amount || frames == []
    decreases |frames|
  {
    if drained >= amount || frames == [] then DrainRun(s, drained, 0)
    else
      var x := DrainThisFrame(amount, drained, frames[0].deltaTime);
      var rest := SmoothDrain(DrainFrame(s, x, frames[0].time), amount, drained + x, frames[1..]);
      DrainRun(rest.state, rest.drained, rest.used + 1)
  }

  /** The drain leaves the state alone when it uses no frame, stamps the time of the
      last frame it used, and touches nothing but stamina and that stamp. */
  lemma {:induction false} SmoothDrainStamps(s: StatsState, amount: real, drained: real, frames: seq<Clock>, r: DrainRun)
    requires r == SmoothDrain(s, amount, drained, frames)
    ensures r.used == 0 ==> r.state == s && r.drained == drained
    ensures r.used > 0 ==> r.state.lastStaminaUseTime == At(frames[r.used - 1].time)
    ensures r.state.(stamina := s.stamina, lastStaminaUseTime := s.lastStaminaUseTime) == s
    decreases |frames|
  {
    if drained < amount && frames != [] {
      var x := DrainThisFrame(amount, drained, frames[0].deltaTime);
      var s1 := DrainFrame(s, x, frames[0].time);
      var rest := SmoothDrain(s1, amount, drained + x, frames[1..]);
      assert r == DrainRun(rest.state, rest.drained, rest.used + 1);
      SmoothDrainStamps(s1, amount, drained + x, frames[1..], rest);
      if rest.used > 0 {
        assert frames[1..][rest.used - 1] == frames[r.used - 1];
      }
    }
  }

  /** The drain resumed at frame k, from state s with `drained` taken, ends where the
      whole drain `whole` ends. */
  predicate ResumesAs(s: StatsState, amount: real, drained: real, frames: seq<Clock>, k: nat, whole: DrainRun)
    requires k <= |frames|
  {
    var r := SmoothDrain(s, amount, drained, frames[k..]);
    DrainRun(r.state, r.drained, k + r.used) == whole
  }

  /** One resumption of the drain at frame k: that frame's share is drained and the
      drain carries on from frame k + 1 to the same end. */
  lemma SmoothDrainStep(s: StatsState, amount: real, drained: real, frames: seq<Clock>, k: nat, whole: DrainRun,
                        x: real, next: StatsState)
    requires drained < amount && k < |frames|
    requires ResumesAs(s, amount, drained, frames, k, whole)
    requires x == DrainThisFrame(amount, drained, frames[k].deltaTime) && next == DrainFrame(s, x, frames[k].time)
    ensures ResumesAs(next, amount, drained + x, frames, k + 1, whole)
  {
    assert frames[k..][1..] == frames[k + 1..];
  }

  /** The time of the first u + 1 frames is the first frame's plus that of the next u. */
  lemma SumDtPrefix(frames: seq<Clock>, u: nat)
    requires u < |frames|
    ensures SumDt(frames[..u + 1]) == frames[0].deltaTime + SumDt(frames[1..][..u])
  {
    assert frames[..u + 1][1..] == frames[1..][..u];
  }

  /** The drain stays within the amount, stops on the frame that completes it (the
      frames before it had not), and stops early only with the whole amount drained. */
  lemma {:induction false} SmoothDrainStops(s: StatsState, amount: real, drained: real, frames: seq<Clock>, r: DrainRun)
    requires 0.0 <= drained <= amount
    requires forall i :: 0 <= i < |frames| ==> frames[i].deltaTime >= 0.0
    requires r == SmoothDrain(s, amount, drained, frames)
    ensures drained <= r.drained <= amount
    ensures r.used > 0 ==> drained + DrainSpeed * SumDt(frames[..r.used - 1]) < amount
    ensures r.used < |frames| ==> r.drained == amount
    decreases |frames|
  {
    assert frames[..0] == [];
    if drained < amount && frames != [] {
      var x := DrainThisFrame(amount, drained, frames[0].deltaTime);
      var tail := frames[1..];
      assert forall i :: 0 <= i < |tail| ==> tail[i] == frames[i + 1];
      var rest := SmoothDrain(DrainFrame(s, x, frames[0].time), amount, drained + x, tail);
      assert r.drained == rest.drained && r.used == rest.used + 1;
      SmoothDrainStops(DrainFrame(s, x, frames[0].time), amount, drained + x, tail, rest);
      if rest.used > 0 {
        SumDtPrefix(frames, rest.used - 1);
        assert x == DrainSpeed * frames[0].deltaTime;
      }
    }
  }

  /** The drain takes exactly min(amount, drain speed times the time of the frames it used). */
  lemma {:induction false} SmoothDrainTotal(s: StatsState, amount: real, drained: real, frames: seq<Clock>, r: DrainRun)
    requires 0.0 <= drained <= amount
    requires forall i :: 0 <= i < |frames| ==> frames[i].deltaTime >= 0.0
    requires r == SmoothDrain(s, amount, drained, frames)
    ensures r.drained == Min(amount, drained + DrainSpeed * SumDt(frames[..r.used]))
    decreases |frames|
  {
    assert frames[..0] == [];
    if drained < amount && frames != [] {
      var x := DrainThisFrame(amount, drained, frames[0].deltaTime);
      var tail := frames[1..];
      assert forall i :: 0 <= i < |tail| ==> tail[i] == frames[i + 1];
      var rest := SmoothDrain(DrainFrame(s, x, frames[0].time), amount, drained + x, tail);
      assert r.drained == rest.drained && r.used == rest.used + 1;
      SmoothDrainTotal(DrainFrame(s, x, frames[0].time), amount, drained + x, tail, rest);
      SumDtPrefix(frames, rest.used);
      var share := DrainSpeed * frames[0].deltaTime;
      if drained + x == amount {
        // this frame completes the amount: the drain stops on it
        assert rest.used == 0 && tail[..0] == [];
        assert drained + share >= amount;
      } else {
        // this frame drains its whole share
        assert x == share;
      }
    }
  }

  /** Stamina, once non-negative, ends floored at 0 below its start by the drained total:
      flooring every frame loses nothing compared with flooring once. */
  lemma {:induction false} SmoothDrainFloorsStamina(s: StatsState, amount: real, drained: real, frames: seq<Clock>, r: DrainRun)
    requires 0.0 <= drained <= amount && s.stamina >= 0.0
    requires forall i :: 0 <= i < |frames| ==> frames[i].deltaTime >= 0.0
    requires r == SmoothDrain(s, amount, drained, frames)
    ensures r.state.stamina == Max(0.0, s.stamina - (r.drained - drained))
    decreases |frames|
  {
    if drained < amount && frames != [] {
      var x := DrainThisFrame(amount, drained, frames[0].deltaTime);
      var s1 := DrainFrame(s, x, frames[0].time);
      var tail := frames[1..];
      assert forall i :: 0 <= i < |tail| ==> tail[i] == frames[i + 1];
      var rest := SmoothDrain(s1, amount, drained + x, tail);
      assert r.state == rest.state && r.drained == rest.drained;
      SmoothDrainFloorsStamina(s1, amount, drained + x, tail, rest);
      SmoothDrainStops(s1, amount, drained + x, tail, rest);
    }
  }

  /** A gradual drain as the coroutine starts it, with nothing drained yet: what it
      takes, when it stops, and where stamina ends, for any amount, negative included
      (which drains nothing). */
  lemma SmoothDrainFromStart(s: StatsState, amount: real, frames: seq<Clock>, r: DrainRun)
    requires forall i :: 0 <= i < |frames| ==> frames[i].deltaTime >= 0.0
    requires r == SmoothDrain(s, amount, 0.0, frames)
    ensures 0.0 <= r.drained && (amount >= 0.0 ==> r.drained <= amount)
    ensures amount >= 0.0 ==> r.drained == Min(amount, DrainSpeed * SumDt(frames[..r.used]))
    ensures r.used > 0 ==> DrainSpeed * SumDt(frames[..r.used - 1]) < amount
    ensures r.used < |frames| ==> r.drained >= amount
    ensures s.stamina >= 0.0 ==> r.state.stamina == Max(0.0, s.stamina - r.drained)
  {
    if amount >= 0.0 {
      SmoothDrainStops(s, amount, 0.0, frames, r);
      SmoothDrainTotal(s, amount, 0.0, frames, r);
      if s.stamina >= 0.0 {
        SmoothDrainFloorsStamina(s, amount, 0.0, frames, r);
      }
    }
  }


  /** A hit. With a combat controller present and stamina left, the hit is blocked:
      half its amount is paid in stamina and a quarter reaches HP. Otherwise the
      whole amount reaches HP. */
  function TakeDamage(s: StatsState, amount: real, hasCombat: bool, now: real): (t: StatsState)
    ensures hasCombat && s.stamina > 0.0 ==>
              t.stamina == Max(0.0, s.stamina - amount * BlockStaminaShare) &&
              t.lastStaminaUseTime == At(now)
    ensures hasCombat && s.stamina > 0.0 && s.maxHP >= 0.0 ==>
              t.HP == Max(0.0, Min(s.HP - amount * BlockedDamageShare, s.maxHP))
    ensures !(hasCombat && s.stamina > 0.0) ==> t.stamina == s.stamina && t.lastStaminaUseTime == s.lastStaminaUseTime
    ensures !(hasCombat && s.stamina > 0.0) && s.maxHP >= 0.0 ==>
              t.HP == Max(0.0, Min(s.HP - amount, s.maxHP))
    ensures t.healthFill == HealthFraction(t.HP, t.maxHP)
    ensures t.(HP := s.HP, stamina := s.stamina, lastStaminaUseTime := s.lastStaminaUseTime,
               healthFill := s.healthFill) == s
    ensures Inv(s) && amount >= 0.0 ==> Inv(t)
  {
    if hasCombat && s.stamina > 0.0 then
      var paid := UseStaminaInstant(s, amount * BlockStaminaShare, now);
      UpdateHealthBar(paid.(HP := paid.HP - amount * BlockedDamageShare))
    else
      var hp := s.HP - amount;
      UpdateHealthBar(s.(HP := if hp < 0.0 then 0.0 else hp))
  }

  /** A blocked hit never costs more HP than an unblocked one, for a valid state and a
      non-negative amount; it costs exactly a quarter when HP is not exhausted. */
  lemma BlockNeverHurtsMore(s: StatsState, amount: real, now: real)
    requires Inv(s) && amount >= 0.0 && s.stamina > 0.0
    ensures TakeDamage(s, amount, true, now).HP >= TakeDamage(s, amount, false, now).HP
    ensures s.HP >= amount * BlockedDamageShare ==>
              TakeDamage(s, amount, true, now).HP == s.HP - amount * BlockedDamageShare
  {
  }

  function RegainHP(s: StatsState, amount: real): (t: StatsState)
    ensures s.maxHP >= 0.0 ==> t.HP <= t.maxHP
    ensures Inv(s) && amount >= 0.0 ==> t.HP == Min(s.HP + amount, s.maxHP)
    ensures t.healthFill == HealthFraction(t.HP, t.maxHP)
    ensures t.(HP := s.HP, healthFill := s.healthFill) == s
    ensures Inv(s) ==> Inv(t)
  {
    var hp := s.HP + amount;
    UpdateHealthBar(s.(HP := if hp > s.maxHP then s.maxHP else hp))
  }

  function RegainStamina(s: StatsState, amount: real): (t: StatsState)
    ensures t.stamina <= MaxStamina
    ensures t.stamina == Min(s.stamina + amount, MaxStamina)
    ensures t.(stamina := s.stamina) == s
    ensures Inv(s) && amount >= 0.0 ==> Inv(t)
  {
    var st := s.stamina + amount;
    s.(stamina := if st > MaxStamina then MaxStamina else st)
  }

  /** Raises the maximum and the current HP by the same amount, then clamps. */
  function UpgradeHP(s: StatsState, upgradeAmount: int): (t: StatsState)
    ensures t.maxHP == s.maxHP + upgradeAmount as real
    ensures Inv(s) && upgradeAmount >= 0 ==> t.HP == s.HP + upgradeAmount as real
    ensures t.maxHP >= 0.0 ==> 0.0 <= t.HP <= t.maxHP
    ensures t.healthFill == HealthFraction(t.HP, t.maxHP)
    ensures t.(HP := s.HP, maxHP := s.maxHP, healthFill := s.healthFill) == s
    ensures Inv(s) && s.maxHP + upgradeAmount as real >= 0.0 ==> Inv(t)
  {
    UpdateHealthBar(s.(maxHP := s.maxHP + upgradeAmount as real, HP := s.HP + upgradeAmount as real))
  }

  function UpgradeDamage(s: StatsState, upgradeAmount: int): (t: StatsState)
    ensures t.damage == s.damage + upgradeAmount as real
    ensures t.(damage := s.damage) == s
  {
    s.(damage := s.damage + upgradeAmount as real)
  }

  /** Everything that changes the stats from outside, with the engine's clock. */
  datatype StatsEvent =
    | Tick(now: real, dt: real)
    | Spend(amount: real, now: real)
    | Hit(amount: real, hasCombat: bool, now: real)
    | Heal(amount: real)
    | Refill(amount: real)
    | RaiseMaxHP(upgradeAmount: int)
    | RaiseDamage(upgradeAmount: int)

  /** The callers' side of the contract: time moves forward, amounts are not negative. */
  predicate WellFormed(e: StatsEvent)
  {
    match e
    case Tick(_, dt) => dt >= 0.0
    case Spend(amount, _) => amount >= 0.0
    case Hit(amount, _, _) => amount >= 0.0
    case Heal(_) => true
    case Refill(amount) => amount >= 0.0
    case RaiseMaxHP(n) => n >= 0
    case RaiseDamage(_) => true
  }

  function Apply(s: StatsState, e: StatsEvent): (t: StatsState)
    ensures Inv(s) && WellFormed(e) ==> Inv(t)
  {
    match e
    case Tick(now, dt) => Regen(s, now, dt)
    case Spend(amount, now) => UseStaminaInstant(s, amount, now)
    case Hit(amount, hasCombat, now) => TakeDamage(s, amount, hasCombat, now)
    case Heal(amount) => RegainHP(s, amount)
    case Refill(amount) => RegainStamina(s, amount)
    case RaiseMaxHP(n) => UpgradeHP(s, n)
    case RaiseDamage(n) => UpgradeDamage(s, n)
  }

  function Run(s: StatsState, events: seq<StatsEvent>): (t: StatsState)
    decreases |events|
  {
    if events == [] then s else Run(Apply(s, events[0]), events[1..])
  }

  /** After Start, whatever well-formed events follow, HP stays in [0, maxHP] and
      stamina in [0, 100]. */
  lemma {:induction false} RunKeepsInv(s: StatsState, events: seq<StatsEvent>)
    requires Inv(s)
    requires forall i :: 0 <= i < |events| ==> WellFormed(events[i])
    ensures Inv(Run(s, events))
    decreases |events|
  {
    if events != [] {
      RunKeepsInv(Apply(s, events[0]), events[1..]);
    }
  }
}
