/**
 * WeaponTrigger as an object: the struck-collider list is cleared and appended
 * in place, and the swing and hitstop flags are toggled by its methods.
 */
module Weapon {
  import opened Common
  import opened WeaponRules

  class WeaponTrigger {
    var alreadyHit: seq<ColliderId>
    var isHitstopActive: bool
    var isSwinging: bool
    /** Whether Start found a BoxCollider on the weapon. */
    const hasBoxCollider: bool

    function State(): WeaponState
      reads this
    {
      WeaponState(alreadyHit, isSwinging, isHitstopActive)
    }

    ghost predicate Valid()
      reads this
    {
      Inv(State())
    }

    constructor (hasBoxCollider: bool)
      ensures State() == WeaponState([], false, false) && Valid()
      ensures this.hasBoxCollider == hasBoxCollider
    {
      alreadyHit := [];
      isHitstopActive := false;
      isSwinging := false;
      this.hasBoxCollider := hasBoxCollider;
    }

    /** The per-frame update; `contacts` is what the overlap box reports this frame. */
    method Update(contacts: seq<Contact>) returns (struck: seq<ColliderId>)
      modifies this
      ensures var r := WeaponRules.Update(old(State()), contacts, hasBoxCollider);
        State() == r.state && struck == r.struck
      ensures old(Valid()) ==> Valid()
    {
      struck := [];
      if isSwinging && hasBoxCollider {
        struck := CheckHits(contacts);
      }
    }

    method CheckHits(contacts: seq<Contact>) returns (struck: seq<ColliderId>)
      modifies this
      ensures var r := WeaponRules.CheckHits(old(State()), contacts);
        State() == r.state && struck == r.struck
      ensures old(Valid()) ==> Valid() && alreadyHit == old(alreadyHit) + struck
    {
      struck := [];
      ghost var hitstops := 0;
      for k := 0 to |contacts|
        invariant WeaponRules.CheckHits(old(State()), contacts[..k]) == Sweep(State(), struck, hitstops)
      {
        assert contacts[..k + 1][..k] == contacts[..k];
        var outcome := HandleHit(contacts[k]);
        if outcome.Struck? {
          struck := struck + [contacts[k].collider];
          hitstops := hitstops + if outcome.startedHitstop then 1 else 0;
        }
      }
      assert contacts[..|contacts|] == contacts;
      if old(Valid()) {
        CheckHitsFacts(old(State()), contacts);
      }
    }

    method HandleHit(c: Contact) returns (outcome: HitOutcome)
      modifies this
      ensures var r := WeaponRules.HandleHit(old(State()), c);
        State() == r.state && outcome == r.outcome
      ensures old(Valid()) ==> Valid()
    {
      if !c.isEnemy || c.collider in alreadyHit {
        return Ignored;
      }
      alreadyHit := alreadyHit + [c.collider];
      // effects: sound, camera shake, damage flash, hit particles
      var startHitstop := !isHitstopActive;
      if startHitstop {
        isHitstopActive := true;
      }
      outcome := Struck(startHitstop);
    }

    /** The hitstop coroutine resuming after its wait. */
    method EndHitstop()
      modifies this
      ensures State() == HitstopOver(old(State()))
    {
      isHitstopActive := false;
    }

    method StartSwingFromAnimation()
      modifies this
      ensures State() == StartSwing(old(State())) && Valid()
    {
      alreadyHit := [];
      isSwinging := true;
    }

    method EndSwingFromAnimation()
      modifies this
      ensures State() == EndSwing(old(State()))
      ensures old(Valid()) ==> Valid()
    {
      isSwinging := false;
    }
  }
}
