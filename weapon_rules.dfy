/**
 * WeaponTrigger's per-swing bookkeeping as values: the list of colliders
 * already struck in the current swing (used as a set), the swing gate, and
 * the hitstop flag that keeps a second hitstop from starting.
 */
module WeaponRules {
  import opened Common

  /** Identity of a Collider object. */
  type ColliderId = nat

  /** A collider that the weapon's overlap box reported, and whether it is tagged "Enemy". */
  datatype Contact = Contact(collider: ColliderId, isEnemy: bool)

  datatype WeaponState = WeaponState(alreadyHit: seq<ColliderId>, isSwinging: bool, isHitstopActive: bool)

  /** What HandleHit did with one contact: nothing, or the hit effects (sound,
      shake, flash, particles), with or without starting a hitstop. */
  datatype HitOutcome = Ignored | Struck(startedHitstop: bool)

  datatype HitResult = HitResult(state: WeaponState, outcome: HitOutcome)

  /** Every collider is struck at most once per swing. */
  predicate Inv(s: WeaponState)
  {
    NoDup(s.alreadyHit)
  }

  /** Handles one contact: a non-enemy or an already struck collider is ignored;
      otherwise the collider is recorded and the effects play, with a new hitstop
      only when none is running. */
  function HandleHit(s: WeaponState, c: Contact): (r: HitResult)
    ensures !c.isEnemy || c.collider in s.alreadyHit ==> r == HitResult(s, Ignored)
    ensures c.isEnemy && c.collider !in s.alreadyHit ==>
              r.state == s.(alreadyHit := s.alreadyHit + [c.collider], isHitstopActive := true) &&
              r.outcome == Struck(!s.isHitstopActive)
    ensures Inv(s) ==> Inv(r.state)
  {
    if !c.isEnemy || c.collider in s.alreadyHit then HitResult(s, Ignored)
    else
      // the hitstop coroutine raises its flag before its first wait
      var hitstop := !s.isHitstopActive;
      HitResult(s.(alreadyHit := s.alreadyHit + [c.collider], isHitstopActive := true), Struck(hitstop))
  }

  /** The state after a sweep of contacts, the colliders struck in it in order,
      and how many hitstops it started. */
  datatype Sweep = Sweep(state: WeaponState, struck: seq<ColliderId>, hitstops: nat)

  /** CheckHits: every contact of the overlap box, in order. A sweep only appends the
      colliders it strikes, strikes at most one per contact, starts at most one hitstop
      per strike, and leaves the swing flag alone. */
  function CheckHits(s: WeaponState, contacts: seq<Contact>): (r: Sweep)
    ensures r.state.alreadyHit == s.alreadyHit + r.struck
    ensures |r.struck| <= |contacts| && r.hitstops <= |r.struck|
    ensures r.state.isSwinging == s.isSwinging
    decreases |contacts|
  {
    if contacts == [] then Sweep(s, [], 0)
    else
      var k := |contacts| - 1;
      var before := CheckHits(s, contacts[..k]);
      var h := HandleHit(before.state, contacts[k]);
      match h.outcome
      case Ignored => before
      case Struck(started) =>
        Sweep(h.state, before.struck + [contacts[k].collider], before.hitstops + if started then 1 else 0)
  }

  /** A sweep records exactly the enemies it strikes, each one new to the swing and
      struck once, every enemy contact ends up recorded, and the swing flag does not
      move. */
  lemma {:induction false} CheckHitsFacts(s: WeaponState, contacts: seq<Contact>)
    requires Inv(s)
    ensures var r := CheckHits(s, contacts);
      r.state.alreadyHit == s.alreadyHit + r.struck &&
      Inv(r.state) &&
      (forall x :: x in r.struck ==> x !in s.alreadyHit && Contact(x, true) in contacts) &&
      (forall c :: c in contacts && c.isEnemy ==> c.collider in r.state.alreadyHit) &&
      r.state.isSwinging == s.isSwinging
    decreases |contacts|
  {
    if contacts != [] {
      var k := |contacts| - 1;
      var prefix := contacts[..k];
      CheckHitsFacts(s, prefix);
      assert forall c :: c in prefix ==> c in contacts;
      assert contacts == prefix + [contacts[k]];
    }
  }

  /** A sweep leaves the hitstop flag raised exactly when one was running or it struck
      something, and starts at most one hitstop: none while one is running, one when
      none was and it struck something. */
  lemma {:induction false} CheckHitsHitstops(s: WeaponState, contacts: seq<Contact>)
    ensures var r := CheckHits(s, contacts);
      r.state.isHitstopActive == (s.isHitstopActive || r.struck != []) &&
      r.hitstops <= 1 && (s.isHitstopActive ==> r.hitstops == 0) &&
      (r.hitstops == 1 <==> !s.isHitstopActive && r.struck != [])
    decreases |contacts|
  {
    if contacts != [] {
      CheckHitsHitstops(s, contacts[..|contacts| - 1]);
    }
  }

  /** StartSwingFromAnimation: a new swing forgets who was struck. */
  function StartSwing(s: WeaponState): (t: WeaponState)
    ensures t.alreadyHit == [] && t.isSwinging && t.isHitstopActive == s.isHitstopActive
  {
    s.(alreadyHit := [], isSwinging := true)
  }

  /** EndSwingFromAnimation: closes the gate and keeps the list. */
  function EndSwing(s: WeaponState): (t: WeaponState)
    ensures !t.isSwinging && t.alreadyHit == s.alreadyHit && t.isHitstopActive == s.isHitstopActive
  {
    s.(isSwinging := false)
  }

  /** The hitstop coroutine's end after its real-time wait. */
  function HitstopOver(s: WeaponState): (t: WeaponState)
    ensures !t.isHitstopActive && t.alreadyHit == s.alreadyHit && t.isSwinging == s.isSwinging
  {
    s.(isHitstopActive := false)
  }

  /** Update: contacts are looked at only while swinging with a box collider present. */
  function Update(s: WeaponState, contacts: seq<Contact>, hasBoxCollider: bool): (r: Sweep)
    ensures !(s.isSwinging && hasBoxCollider) ==> r == Sweep(s, [], 0)
  {
    if s.isSwinging && hasBoxCollider then CheckHits(s, contacts) else Sweep(s, [], 0)
  }

  /** Everything that drives the trigger from outside. */
  datatype WeaponEvent =
    | SwingStarted
    | SwingEnded
    | Frame(contacts: seq<Contact>, hasBoxCollider: bool)
    | HitstopEnded

  function Apply(s: WeaponState, e: WeaponEvent): (r: Sweep)
  {
    match e
    case SwingStarted => Sweep(StartSwing(s), [], 0)
    case SwingEnded => Sweep(EndSwing(s), [], 0)
    case Frame(contacts, hasBox) => Update(s, contacts, hasBox)
    case HitstopEnded => Sweep(HitstopOver(s), [], 0)
  }

  /** The final state and every collider struck along the way, in order. */
  function Run(s: WeaponState, events: seq<WeaponEvent>): (r: Sweep)
    decreases |events|
  {
    if events == [] then Sweep(s, [], 0)
    else
      var first := Apply(s, events[0]);
      var rest := Run(first.state, events[1..]);
      Sweep(rest.state, first.struck + rest.struck, first.hitstops + rest.hitstops)
  }

  /** Any event but a new swing only appends what it strikes, and keeps each collider
      struck at most once. */
  lemma ApplyRecords(s: WeaponState, e: WeaponEvent)
    requires Inv(s) && !e.SwingStarted?
    ensures var r := Apply(s, e);
      r.state.alreadyHit == s.alreadyHit + r.struck && Inv(r.state)
  {
    if e.Frame? && s.isSwinging && e.hasBoxCollider {
      CheckHitsFacts(s, e.contacts);
    } else {
      assert Apply(s, e).struck == [] && s.alreadyHit + [] == s.alreadyHit;
    }
  }

  /** Within one swing (no new swing starting), no collider is struck twice, and
      none that the swing had already struck. */
  lemma {:induction false} AtMostOncePerSwing(s: WeaponState, events: seq<WeaponEvent>)
    requires Inv(s)
    requires forall i :: 0 <= i < |events| ==> !events[i].SwingStarted?
    ensures var r := Run(s, events);
      r.state.alreadyHit == s.alreadyHit + r.struck && Inv(r.state) && NoDup(r.struck)
    decreases |events|
  {
    if events != [] {
      var first := Apply(s, events[0]);
      ApplyRecords(s, events[0]);
      AtMostOncePerSwing(first.state, events[1..]);
      var rest := Run(first.state, events[1..]);
      assert s.alreadyHit + (first.struck + rest.struck) == s.alreadyHit + first.struck + rest.struck;
      NoDupSuffix(s.alreadyHit, first.struck + rest.struck);
    }
  }

  lemma NoDupSuffix<T>(a: seq<T>, b: seq<T>)
    requires NoDup(a + b)
    ensures NoDup(b)
  {
    forall i, j | 0 <= i < j < |b| ensures b[i] != b[j] {
      assert b[i] == (a + b)[|a| + i] && b[j] == (a + b)[|a| + j];
    }
  }

  /** Nothing is struck while the swing gate is closed. */
  lemma {:induction false} NoHitsOutsideSwing(s: WeaponState, events: seq<WeaponEvent>)
    requires !s.isSwinging
    requires forall i :: 0 <= i < |events| ==> !events[i].SwingStarted?
    ensures Run(s, events).struck == [] && Run(s, events).state.alreadyHit == s.alreadyHit
    decreases |events|
  {
    if events != [] {
      NoHitsOutsideSwing(Apply(s, events[0]).state, events[1..]);
    }
  }
}
