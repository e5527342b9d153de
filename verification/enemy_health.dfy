/** EnemyHealth: integer hit points, the `IsDead` flag and the fire-once
    `OnDie` notification. */
module Health {
  import opened Common

  /** Hit points of one enemy unless the scene configures otherwise. */
  const DefaultMaxHealth: i32 := 3

  /** Damage a projectile collision applies. */
  const ProjectileDamage: i32 := 1

  /** The observable state of one EnemyHealth component. `notices` holds, for
      each invocation of `OnDie` so far, the value of `IsDead` that its
      subscribers could read at that moment. */
  datatype HealthState = HealthState(maxHealth: i32, current: i32, isDead: bool, notices: seq<bool>)
  {
    /** The notification has fired exactly once iff the enemy is dead, and
        every subscriber saw `IsDead` already set. */
    predicate Consistent()
    {
      && |notices| == (if isDead then 1 else 0)
      && forall i | 0 <= i < |notices| :: notices[i]
    }

    /** `Die`: set the flag, then invoke `OnDie`. */
    function Die(): (r: HealthState)
      ensures r.isDead && r.current == current && r.maxHealth == maxHealth
      ensures r.notices == notices + [true]
    {
      var flagged := this.(isDead := true);
      flagged.(notices := flagged.notices + [flagged.isDead])
    }

    /** `TakeDamage(damageAmount)`. */
    function TakeDamage(damageAmount: i32): (r: HealthState)
      ensures isDead ==> r == this
      ensures !isDead ==> r.current == WrapI32(current as int - damageAmount as int)
      ensures !isDead && -0x8000_0000 <= current as int - damageAmount as int < 0x8000_0000 ==>
                r.current as int == current as int - damageAmount as int
      ensures !isDead ==> (r.isDead <==> r.current <= 0)
      ensures !isDead ==> r.notices == if r.isDead then notices + [true] else notices
      ensures r.maxHealth == maxHealth
    {
      if isDead then this
      else
        var hit := this.(current := WrapI32(current as int - damageAmount as int));
        if hit.current <= 0 then hit.Die() else hit
    }

    /** `OnCollisionEnter2D`: only a projectile hurts, and by exactly one point. */
    function OnCollisionEnter2D(isProjectile: bool): (r: HealthState)
      ensures !isProjectile ==> r == this
      ensures isProjectile && !isDead && current > -0x8000_0000 ==> r.current as int == current as int - 1
      ensures isProjectile && !isDead ==> (r.isDead <==> r.current <= 0)
      ensures isProjectile && !isDead ==> r.current == WrapI32(current as int - 1)
      ensures isProjectile && !isDead ==> r.notices == if r.isDead then notices + [true] else notices
      ensures isDead ==> r == this
      ensures r.maxHealth == maxHealth
    {
      if isProjectile then TakeDamage(ProjectileDamage) else this
    }

    /** A sequence of `TakeDamage` calls, in order. */
    function TakeDamageAll(amounts: seq<i32>): HealthState
      decreases |amounts|
    {
      if amounts == [] then this else TakeDamage(amounts[0]).TakeDamageAll(amounts[1..])
    }
  }

  /** Field initialisers followed by `Awake`. */
  function Awakened(maxHealth: i32): (s: HealthState)
    ensures s.current == maxHealth && !s.isDead && s.Consistent()
  {
    HealthState(maxHealth, maxHealth, false, [])
  }

  /** One damage call keeps the notification consistent with the flag. */
  lemma TakeDamageConsistent(s: HealthState, d: i32)
    requires s.Consistent()
    ensures s.TakeDamage(d).Consistent()
  {
    var r := s.TakeDamage(d);
    if !s.isDead && r.isDead {
      assert r.notices == [true];
    }
  }

  /** Over any sequence of damage calls `OnDie` fires at most once, every
      subscriber sees `IsDead` set, and a dead enemy stays dead. */
  lemma {:induction false} TakeDamageAllConsistent(s: HealthState, amounts: seq<i32>)
    requires s.Consistent()
    ensures s.TakeDamageAll(amounts).Consistent()
    ensures |s.TakeDamageAll(amounts).notices| <= 1
    ensures s.isDead ==> s.TakeDamageAll(amounts).isDead
    decreases |amounts|
  {
    if amounts != [] {
      TakeDamageConsistent(s, amounts[0]);
      TakeDamageAllConsistent(s.TakeDamage(amounts[0]), amounts[1..]);
    }
  }

  /** Damage after death changes nothing at all, however much of it arrives. */
  lemma {:induction false} DeadIsAbsorbing(s: HealthState, amounts: seq<i32>)
    requires s.isDead
    ensures s.TakeDamageAll(amounts) == s
    decreases |amounts|
  {
    if amounts != [] {
      DeadIsAbsorbing(s.TakeDamage(amounts[0]), amounts[1..]);
    }
  }

  /** With the default 3 hit points, three single-point hits kill on the
      third call and not before, and `OnDie` fires once. */
  lemma ThreeHitsKill()
    ensures !Awakened(DefaultMaxHealth).TakeDamageAll([1]).isDead
    ensures !Awakened(DefaultMaxHealth).TakeDamageAll([1, 1]).isDead
    ensures Awakened(DefaultMaxHealth).TakeDamageAll([1, 1, 1]).isDead
    ensures Awakened(DefaultMaxHealth).TakeDamageAll([1, 1, 1]).notices == [true]
  {
    var s0 := Awakened(DefaultMaxHealth);
    var s1 := s0.TakeDamage(1);
    var s2 := s1.TakeDamage(1);
    var s3 := s2.TakeDamage(1);
    assert s1.current == 2 && !s1.isDead;
    assert s2.current == 1 && !s2.isDead;
    assert s3.current == 0 && s3.isDead;
    assert s3.TakeDamageAll([]) == s3;
    assert [1, 1, 1][1..] == [1, 1] && [1, 1][1..] == [1 as i32];
    assert s2.TakeDamageAll([1]) == s3;
    assert s1.TakeDamageAll([1, 1]) == s3;
    assert s1.TakeDamageAll([]) == s1;
    assert s2.TakeDamageAll([]) == s2;
  }

  /** The EnemyHealth component with the source's fields. `onDieLog` is what
      the subscribers of `OnDie` have observed of `IsDead`. */
  class EnemyHealth {
    var maxHealth: i32
    var currentHealth: i32
    var isDead: bool
    var onDieLog: seq<bool>

    function Snapshot(): HealthState
      reads this
    {
      HealthState(maxHealth, currentHealth, isDead, onDieLog)
    }

    /** Creation with the configured `maxHealth`, then `Awake`. */
    constructor (maxHealth: i32)
      ensures Snapshot() == Awakened(maxHealth)
    {
      this.maxHealth := maxHealth;
      currentHealth := maxHealth;
      isDead := false;
      onDieLog := [];
    }

    /** `TakeDamage`; `notified` is true iff `OnDie` was invoked by this call,
        so that the caller can deliver it to the subscribers. */
    method TakeDamage(damageAmount: i32) returns (notified: bool)
      modifies this
      ensures Snapshot() == old(Snapshot()).TakeDamage(damageAmount)
      ensures notified <==> !old(isDead) && isDead
    {
      if isDead {
        return false;
      }
      currentHealth := WrapI32(currentHealth as int - damageAmount as int);
      notified := currentHealth <= 0;
      if notified {
        Die();
      }
    }

    method Die()
      modifies this
      ensures Snapshot() == old(Snapshot()).Die()
    {
      isDead := true;
      onDieLog := onDieLog + [isDead];
    }

    /** `OnCollisionEnter2D`: `isProjectile` says whether the other body carries
        a Projectile component. */
    method OnCollisionEnter2D(isProjectile: bool) returns (notified: bool)
      modifies this
      ensures Snapshot() == old(Snapshot()).OnCollisionEnter2D(isProjectile)
      ensures notified <==> !old(isDead) && isDead
    {
      notified := false;
      if isProjectile {
        notified := TakeDamage(ProjectileDamage);
      }
    }
  }
}
