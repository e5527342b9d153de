/** EnemyController: the patrol-or-dead behaviour state machine, wired to the
    health component's `OnDie` notification and driving the movement component. */
module Controller {
  import opened Common
  import opened Health
  import opened Movement

  /** `EnemyController.State`. */
  datatype AIState = Patrol | Dead

  /** One enemy: its health, `currentState`, whether the `StartAILogic`
      coroutine is still suspended on its one-frame wait, and its movement
      driver. */
  datatype Enemy = Enemy(health: HealthState, state: AIState, startPending: bool, mover: Mover)
  {
    /** The state machine is dead exactly when the health says so, the death
        notification fired at most once, and at most one monitor runs. */
    ghost predicate Inv()
    {
      && health.Consistent()
      && (state == Dead <==> health.isDead)
      && mover.MonitorInv()
    }

    /** `Start`: launch `StartAILogic`, which first yields for one frame. */
    function Start(): (r: Enemy)
      ensures r.startPending && r.state == state && r.mover == mover && r.health == health
    {
      this.(startPending := true)
    }

    /** The resumption of `StartAILogic` after its one-frame wait: a patrol
        destination is requested only if the enemy is still patrolling. The
        flag says whether `SetRandomPatrolDestination` was called. */
    function ResumeStartAILogic(sample: Option<Vec3>): (res: (Enemy, bool))
      requires startPending
      ensures !res.0.startPending && res.0.state == state && res.0.health == health
      ensures res.1 <==> state == Patrol
      ensures res.0.mover == if res.1 then mover.SetRandomPatrolDestination(sample) else mover
    {
      var resumed := this.(startPending := false);
      if state == Patrol then (resumed.(mover := mover.SetRandomPatrolDestination(sample)), true)
      else (resumed, false)
    }

    /** `Update`: the flag says whether a new patrol destination was requested. */
    function Update(sample: Option<Vec3>): (res: (Enemy, bool))
      ensures res.0.state == state && res.0.health == health && res.0.startPending == startPending
      ensures state == Dead ==> res == (this, false)
      ensures state == Patrol ==> (res.1 <==> mover.HasReachedDestination().0)
      ensures state == Patrol ==>
                var (_, queried) := mover.HasReachedDestination();
                res.0.mover == if res.1 then queried.SetRandomPatrolDestination(sample) else queried
    {
      if state == Dead then (this, false)
      else
        var (reached, queried) := mover.HasReachedDestination();
        if reached then (this.(mover := queried.SetRandomPatrolDestination(sample)), true)
        else (this.(mover := queried), false)
    }

    /** `OnEnemyDeath`: enter `Dead`, then stop moving. */
    function OnEnemyDeath(): (r: Enemy)
      ensures r.state == Dead && r.mover == mover.StopMoving()
      ensures r.health == health && r.startPending == startPending
    {
      this.(state := Dead).(mover := mover.StopMoving())
    }

    /** `EnemyHealth.TakeDamage`, with the controller's `OnEnemyDeath`
        subscribed to `OnDie` (as `Awake` arranges). */
    function TakeDamage(damageAmount: i32): (r: Enemy)
      ensures r.health == health.TakeDamage(damageAmount)
      ensures !health.isDead && r.health.isDead ==> r == this.(health := r.health).OnEnemyDeath()
      ensures !(!health.isDead && r.health.isDead) ==> r == this.(health := r.health)
    {
      var hurt := health.TakeDamage(damageAmount);
      if !health.isDead && hurt.isDead then this.(health := hurt).OnEnemyDeath() else this.(health := hurt)
    }

    /** `EnemyHealth.OnCollisionEnter2D` with the same subscription. */
    function OnCollisionEnter2D(isProjectile: bool): (r: Enemy)
      ensures !isProjectile ==> r == this
      ensures isProjectile ==> r == TakeDamage(ProjectileDamage)
    {
      if isProjectile then TakeDamage(ProjectileDamage) else this
    }
  }

  /** A new enemy: full health, `Patrol`, the movement driver after `Awake`. */
  function Spawned(maxHealth: i32, cfg: MoveConfig, agent: NavAgent): (e: Enemy)
    ensures e.state == Patrol && !e.startPending && !e.health.isDead
    ensures e.health.current == maxHealth && e.mover.running == {}
    ensures e.Inv()
  {
    Enemy(Health.Awakened(maxHealth), Patrol, false, Movement.Awakened(cfg, agent))
  }

  /** Something that happens to one enemy: its own callbacks, damage, a poll
      of its stuck monitor, or the engine refreshing its agent. */
  datatype EnemyEvent =
    | Begin
    | ResumeStart(sample: Option<Vec3>)
    | Tick(sample: Option<Vec3>)
    | Damage(amount: i32)
    | Collide(isProjectile: bool)
    | MonitorPoll(sample: Option<Vec3>)
    | EngineRefresh(k: Kinematics)

  /** Apply one event; the flag says whether it called
      `SetRandomPatrolDestination`. A suspended coroutine that does not exist
      does not resume, and a monitor that is not running is not polled. */
  function Step(e: Enemy, ev: EnemyEvent): (Enemy, bool)
  {
    match ev
    case Begin => (e.Start(), false)
    case ResumeStart(sample) => if e.startPending then e.ResumeStartAILogic(sample) else (e, false)
    case Tick(sample) => e.Update(sample)
    case Damage(d) => (e.TakeDamage(d), false)
    case Collide(p) => (e.OnCollisionEnter2D(p), false)
    case MonitorPoll(sample) =>
      if e.mover.handle.Some? && e.mover.handle.value in e.mover.running then
        var (outcome, m) := e.mover.PollStuckCheck(e.mover.handle.value, sample);
        (e.(mover := m), outcome == Recovered)
      else (e, false)
    case EngineRefresh(k) => (e.(mover := e.mover.Sense(k)), false)
  }

  /** Apply events in order: the final enemy and how many patrol
      destinations were requested on the way. */
  function Run(e: Enemy, evs: seq<EnemyEvent>): (Enemy, nat)
    decreases |evs|
  {
    if evs == [] then (e, 0)
    else
      var (e1, issued) := Step(e, evs[0]);
      var (e2, n) := Run(e1, evs[1..]);
      (e2, n + if issued then 1 else 0)
  }

  /** Every event keeps the controller's state in step with the health
      component, the death notice fired at most once, and one monitor at most. */
  lemma StepInv(e: Enemy, ev: EnemyEvent)
    requires e.Inv()
    ensures Step(e, ev).0.Inv()
  {
    match ev
    case Damage(d) =>
      TakeDamageConsistent(e.health, d);
    case Collide(p) =>
      TakeDamageConsistent(e.health, ProjectileDamage);
    case _ =>
  }

  /** `currentState` changes on exactly one kind of step: damage that kills a
      patrolling enemy, which then becomes `Dead`. `Update` never changes it. */
  lemma StateChangesOnlyByDeath(e: Enemy, ev: EnemyEvent)
    requires e.Inv()
    ensures var r := Step(e, ev).0;
            r.state != e.state <==>
              && (ev.Damage? || (ev.Collide? && ev.isProjectile))
              && e.state == Patrol && r.health.isDead
    ensures Step(e, ev).0.state != e.state ==> Step(e, ev).0.state == Dead
  {
  }

  /** `Dead` is terminal: no sequence of events leaves it. */
  lemma {:induction false} DeadIsTerminal(e: Enemy, evs: seq<EnemyEvent>)
    requires e.state == Dead
    ensures Run(e, evs).0.state == Dead
    decreases |evs|
  {
    if evs != [] {
      DeadIsTerminal(Step(e, evs[0]).0, evs[1..]);
    }
  }

  /** The same commands stand on the agent: speed, destination, stop flag. */
  ghost predicate SameCommands(a: NavAgent, b: NavAgent)
  {
    a.speed == b.speed && a.destination == b.destination && a.isStopped == b.isStopped
  }

  /** Killing a patrolling enemy whose agent is active halts the agent and
      leaves no stuck monitor running. */
  lemma DeathStopsEverything(e: Enemy, d: i32)
    requires e.Inv() && e.state == Patrol && e.mover.agent.activeAndEnabled
    requires e.health.TakeDamage(d).isDead
    ensures var r := Step(e, Damage(d)).0;
            r.state == Dead && r.mover.agent.isStopped && r.mover.running == {} && r.mover.handle == None
  {
  }

  /** Once dead with no monitor running, an enemy is quiet: no event requests
      a patrol destination, no monitor starts, and the commands on the agent
      stay as they are. */
  lemma {:induction false} DeadIsQuiet(e: Enemy, evs: seq<EnemyEvent>)
    requires e.Inv() && e.state == Dead && e.mover.running == {}
    ensures Run(e, evs).1 == 0
    ensures Run(e, evs).0.mover.running == {}
    ensures SameCommands(Run(e, evs).0.mover.agent, e.mover.agent)
    decreases |evs|
  {
    if evs != [] {
      var (e1, issued) := Step(e, evs[0]);
      StepInv(e, evs[0]);
      assert !issued && e1.state == Dead && e1.mover.running == {};
      assert SameCommands(e1.mover.agent, e.mover.agent);
      DeadIsQuiet(e1, evs[1..]);
    }
  }

  /** `HasReachedDestination` answers false for an active agent without a
      path, so a patrolling enemy stopped that way requests nothing on a tick;
      an inactive agent answers true, so the tick requests a destination. */
  lemma TickWithoutPath(e: Enemy, sample: Option<Vec3>)
    requires e.state == Patrol && !e.mover.agent.hasPath
    ensures e.mover.agent.activeAndEnabled ==> Step(e, Tick(sample)) == (e, false)
    ensures !e.mover.agent.activeAndEnabled ==> Step(e, Tick(sample)).1
  {
  }

  /** Death does not cancel a stuck monitor while the agent is inactive
      (`StopMoving` then does nothing). If the agent comes back and looks
      stuck, that monitor still requests a patrol destination for the dead
      enemy and sets its agent moving again. */
  lemma DeadEnemyCanStillRetarget(e: Enemy, d: i32, k: Kinematics, p: Vec3)
    requires e.Inv() && e.state == Patrol && !e.mover.agent.activeAndEnabled
    requires e.mover.handle.Some? && e.mover.handle.value in e.mover.running
    requires e.health.TakeDamage(d).isDead
    requires k.activeAndEnabled && k.hasPath && !k.pathPending
    requires k.velocitySq < e.mover.cfg.minMoveSpeed * e.mover.cfg.minMoveSpeed
    requires k.remainingDistance > e.mover.agent.stoppingDistance
    ensures var (r, n) := Run(e, [Damage(d), EngineRefresh(k), MonitorPoll(Some(p))]);
            n == 1 && r.state == Dead && !r.mover.agent.isStopped && r.mover.agent.destination == p
  {
    var e1 := Step(e, Damage(d)).0;
    assert e1.state == Dead && e1.mover == e.mover;
    var e2 := Step(e1, EngineRefresh(k)).0;
    assert e2.mover.handle == e.mover.handle && e2.mover.running == e.mover.running;
    assert e2.mover.IsStuck();
    var e3 := Step(e2, MonitorPoll(Some(p)));
    assert e3.1 && e3.0.state == Dead && !e3.0.mover.agent.isStopped && e3.0.mover.agent.destination == p;
    assert [Damage(d), EngineRefresh(k), MonitorPoll(Some(p))][1..] == [EngineRefresh(k), MonitorPoll(Some(p))];
    assert [EngineRefresh(k), MonitorPoll(Some(p))][1..] == [MonitorPoll(Some(p))];
    assert Run(e2, [MonitorPoll(Some(p))]) == (e3.0, 1);
    assert Run(e1, [EngineRefresh(k), MonitorPoll(Some(p))]) == (e3.0, 1);
  }

  /** A death during the start-up frame suppresses the deferred first patrol
      request. */
  lemma DeathDuringStartupSuppressesPatrol(maxHealth: i32, cfg: MoveConfig, agent: NavAgent, d: i32, sample: Option<Vec3>)
    requires Health.Awakened(maxHealth).TakeDamage(d).isDead
    ensures var (r, n) := Run(Spawned(maxHealth, cfg, agent), [Begin, Damage(d), ResumeStart(sample)]);
            n == 0 && r.state == Dead && !r.startPending
  {
    var e0 := Spawned(maxHealth, cfg, agent);
    var e1 := Step(e0, Begin).0;
    var e2 := Step(e1, Damage(d)).0;
    assert e2.state == Dead && e2.startPending;
    var e3 := Step(e2, ResumeStart(sample));
    assert !e3.1 && e3.0.state == Dead && !e3.0.startPending;
    assert [Begin, Damage(d), ResumeStart(sample)][1..] == [Damage(d), ResumeStart(sample)];
    assert [Damage(d), ResumeStart(sample)][1..] == [ResumeStart(sample)];
    assert Run(e2, [ResumeStart(sample)]) == (e3.0, 0);
    assert Run(e1, [Damage(d), ResumeStart(sample)]) == (e3.0, 0);
  }

  /** The EnemyController component; `health` and `movement` are the
      components `Awake` looks up on the same game object. */
  class EnemyController {
    var currentState: AIState
    var startAILogicPending: bool
    const health: EnemyHealth
    const movement: EnemyMovement

    function Snapshot(): Enemy
      reads this, health, movement
    {
      Enemy(health.Snapshot(), currentState, startAILogicPending, movement.Snapshot())
    }

    ghost predicate Valid()
      reads this, health, movement
    {
      Snapshot().Inv()
    }

    /** Field initialisers and `Awake` (which subscribes `OnEnemyDeath` to
        `health.OnDie`). */
    constructor (health: EnemyHealth, movement: EnemyMovement)
      requires health.Snapshot().Consistent() && !health.isDead && movement.Valid()
      ensures this.health == health && this.movement == movement
      ensures currentState == Patrol && !startAILogicPending && Valid()
    {
      currentState := Patrol;
      startAILogicPending := false;
      this.health := health;
      this.movement := movement;
    }

    method Start()
      modifies this
      ensures Snapshot() == old(Snapshot()).Start()
    {
      startAILogicPending := true;
    }

    method ResumeStartAILogic(sample: Option<Vec3>) returns (requested: bool)
      requires Valid() && startAILogicPending
      modifies this, movement
      ensures Valid()
      ensures (Snapshot(), requested) == old(Snapshot()).ResumeStartAILogic(sample)
    {
      startAILogicPending := false;
      requested := currentState == Patrol;
      if requested {
        movement.SetRandomPatrolDestination(sample);
      }
    }

    method Update(sample: Option<Vec3>) returns (requested: bool)
      requires Valid()
      modifies movement
      ensures Valid()
      ensures (Snapshot(), requested) == old(Snapshot()).Update(sample)
    {
      if currentState == Dead {
        return false;
      }
      match currentState
      case Patrol =>
        var reached := movement.HasReachedDestination();
        requested := reached;
        if reached {
          movement.SetRandomPatrolDestination(sample);
        }
    }

    method OnEnemyDeath()
      requires movement.Valid()
      modifies this, movement
      ensures movement.Valid()
      ensures Snapshot() == old(Snapshot()).OnEnemyDeath()
    {
      currentState := Dead;
      movement.StopMoving();
    }

    /** `health.TakeDamage(damageAmount)`, delivering `OnDie` to this
        controller when it fires. */
    method TakeDamage(damageAmount: i32)
      requires Valid()
      modifies this, health, movement
      ensures Valid()
      ensures Snapshot() == old(Snapshot()).TakeDamage(damageAmount)
    {
      var notified := health.TakeDamage(damageAmount);
      if notified {
        OnEnemyDeath();
      }
      TakeDamageConsistent(old(health.Snapshot()), damageAmount);
    }

    /** `health.OnCollisionEnter2D(collision)` with the same delivery. */
    method OnCollisionEnter2D(isProjectile: bool)
      requires Valid()
      modifies this, health, movement
      ensures Valid()
      ensures Snapshot() == old(Snapshot()).OnCollisionEnter2D(isProjectile)
    {
      var notified := health.OnCollisionEnter2D(isProjectile);
      if notified {
        OnEnemyDeath();
      }
      TakeDamageConsistent(old(health.Snapshot()), ProjectileDamage);
    }
  }
}
