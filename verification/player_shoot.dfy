/** PlayerShoot: the `nextFireTime` cooldown gate in front of `Shoot`, and
    `Shoot`'s guard against unassigned references. Times are exact reals. */
module Shooting {

  /** Seconds between shots unless the scene configures otherwise. */
  const DefaultFireRate: real := 0.25

  /** The gate's state: the configured `fireRate`, `nextFireTime`, whether
      the prefab and fire point are assigned, and how many projectiles have
      been instantiated. */
  datatype Shooter = Shooter(fireRate: real, nextFireTime: real, hasPrefab: bool, hasFirePoint: bool, spawned: nat)
  {
    /** `Shoot`: instantiate a projectile unless a reference is missing. */
    function Shoot(): (r: Shooter)
      ensures !hasPrefab || !hasFirePoint ==> r == this
      ensures hasPrefab && hasFirePoint ==> r == this.(spawned := spawned + 1)
    {
      if !hasPrefab || !hasFirePoint then this else this.(spawned := spawned + 1)
    }

    /** `OnFire` at time `time`: whether a shot was attempted, and the new state. */
    function OnFire(pressed: bool, time: real): (res: (bool, Shooter))
      ensures res.0 <==> pressed && time >= nextFireTime
      ensures res.0 ==> res.1.nextFireTime == time + fireRate && res.1 == this.(nextFireTime := time + fireRate).Shoot()
      ensures !res.0 ==> res.1 == this
      ensures res.1.fireRate == fireRate && res.1.hasPrefab == hasPrefab && res.1.hasFirePoint == hasFirePoint
    {
      if pressed && time >= nextFireTime then (true, this.(nextFireTime := time + fireRate).Shoot())
      else (false, this)
    }
  }

  /** The gate when the component is created. */
  function Initial(fireRate: real, hasPrefab: bool, hasFirePoint: bool): (s: Shooter)
    ensures s.nextFireTime == 0.0 && s.spawned == 0 && s.fireRate == fireRate
  {
    Shooter(fireRate, 0.0, hasPrefab, hasFirePoint, 0)
  }

  /** One fire input: whether the button is pressed, and `Time.time`. */
  datatype FireInput = FireInput(pressed: bool, time: real)

  /** Feed inputs in order: the final state and the times of attempted shots. */
  function FireAll(s: Shooter, inputs: seq<FireInput>): (Shooter, seq<real>)
    decreases |inputs|
  {
    if inputs == [] then (s, [])
    else
      var (shot, s1) := s.OnFire(inputs[0].pressed, inputs[0].time);
      var (s2, times) := FireAll(s1, inputs[1..]);
      (s2, if shot then [inputs[0].time] + times else times)
  }

  /** Whatever the inputs (even with time going backwards), the first shot is
      no earlier than the initial `nextFireTime`, consecutive shots are at
      least `fireRate` apart, the cooldown is consumed by each shot, and a
      projectile is instantiated for each shot exactly when both references
      are assigned. */
  lemma {:induction false} ShotsAreSpaced(s: Shooter, inputs: seq<FireInput>)
    ensures var (r, times) := FireAll(s, inputs);
            && (times != [] ==> times[0] >= s.nextFireTime)
            && (forall k | 0 <= k < |times| - 1 :: times[k + 1] >= times[k] + s.fireRate)
            && r.nextFireTime == (if times == [] then s.nextFireTime else times[|times| - 1] + s.fireRate)
            && r.spawned == s.spawned + (if s.hasPrefab && s.hasFirePoint then |times| else 0)
            && r.fireRate == s.fireRate
    decreases |inputs|
  {
    if inputs != [] {
      var (shot, s1) := s.OnFire(inputs[0].pressed, inputs[0].time);
      ShotsAreSpaced(s1, inputs[1..]);
      var (r, rest) := FireAll(s1, inputs[1..]);
      if shot {
        var times := [inputs[0].time] + rest;
        forall k | 0 <= k < |times| - 1 ensures times[k + 1] >= times[k] + s.fireRate {
          if k > 0 {
            assert times[k + 1] == rest[k] && times[k] == rest[k - 1];
          }
        }
      }
    }
  }

  /** The PlayerShoot component. */
  class PlayerShoot {
    var fireRate: real
    var nextFireTime: real
    var hasProjectilePrefab: bool
    var hasFirePoint: bool
    var spawnedProjectiles: nat

    function Snapshot(): Shooter
      reads this
    {
      Shooter(fireRate, nextFireTime, hasProjectilePrefab, hasFirePoint, spawnedProjectiles)
    }

    constructor (fireRate: real, hasProjectilePrefab: bool, hasFirePoint: bool)
      ensures Snapshot() == Initial(fireRate, hasProjectilePrefab, hasFirePoint)
    {
      this.fireRate := fireRate;
      nextFireTime := 0.0;
      this.hasProjectilePrefab := hasProjectilePrefab;
      this.hasFirePoint := hasFirePoint;
      spawnedProjectiles := 0;
    }

    /** `OnFire` with the input's `isPressed` and the current `Time.time`. */
    method OnFire(pressed: bool, time: real) returns (shot: bool)
      modifies this
      ensures (shot, Snapshot()) == old(Snapshot()).OnFire(pressed, time)
    {
      shot := pressed && time >= nextFireTime;
      if shot {
        nextFireTime := time + fireRate;
        Shoot();
      }
    }

    method Shoot()
      modifies this
      ensures Snapshot() == old(Snapshot()).Shoot()
    {
      if !hasProjectilePrefab || !hasFirePoint {
        return;
      }
      spawnedProjectiles := spawnedProjectiles + 1;
    }
  }
}
