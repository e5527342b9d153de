/** EnemyMovement: the driver around the NavMesh agent, with its single
    stuck-monitor coroutine handle. The agent is a record of the fields the
    driver reads and writes; `NavMesh.SamplePosition` (after the random point
    is drawn) is an optional point handed in by the caller. */
module Movement {
  import opened Common

  /** `NavMeshPathStatus`. */
  datatype PathStatus = PathComplete | PathPartial | PathInvalid

  /** The fields of a NavMeshAgent that the driver touches. `velocitySq` is
      `velocity.sqrMagnitude`. */
  datatype NavAgent = NavAgent(
    activeAndEnabled: bool,
    hasPath: bool,
    pathPending: bool,
    remainingDistance: real,
    stoppingDistance: real,
    velocitySq: real,
    pathStatus: PathStatus,
    isStopped: bool,
    speed: real,
    destination: Vec3)
  {
    /** `IsPathStillValid`. */
    predicate IsPathStillValid()
    {
      !pathPending && pathStatus != PathInvalid
    }
  }

  /** What the engine recomputes about an agent between frames. */
  datatype Kinematics = Kinematics(
    activeAndEnabled: bool,
    hasPath: bool,
    pathPending: bool,
    remainingDistance: real,
    velocitySq: real,
    pathStatus: PathStatus)

  /** The serialized settings of the component (`idleSpeed` is never read). */
  datatype MoveConfig = MoveConfig(patrolSpeed: real, minMoveSpeed: real, stoppingDistance: real, patrolRadius: real)

  const DefaultConfig: MoveConfig := MoveConfig(3.0, 0.1, 0.1, 15.0)

  /** Search radius of the snap-to-NavMesh query in `Awake`. */
  const SnapSearchRadius: real := 5.0

  /** What one poll of the stuck monitor did. */
  datatype PollOutcome =
    | Waiting    // the agent moves: wait one more second
    | Ended      // no active path any more: the coroutine returns
    | Recovered  // stuck: a new patrol destination was requested and the coroutine returns

  /** Driver state: the agent, the `stuckCheckCoroutine` handle, the ids of
      the stuck-monitor coroutines the scheduler is still running, and the id
      the next `StartCoroutine` will hand out. */
  datatype Mover = Mover(cfg: MoveConfig, agent: NavAgent, handle: Option<nat>, running: set<nat>, nextId: nat)
  {
    /** Every running monitor is the one the handle names, and the handle
        never names an id that has not been handed out. */
    ghost predicate MonitorInv()
    {
      && (forall id | id in running :: handle == Some(id))
      && (handle.Some? ==> handle.value < nextId)
    }

    /** Stopping, steering and monitoring leave the agent's active flag and
        the engine-maintained fields alone. */
    ghost predicate SameEngineView(other: Mover)
    {
      && other.cfg == cfg
      && other.agent.activeAndEnabled == agent.activeAndEnabled
      && other.agent.hasPath == agent.hasPath
      && other.agent.pathPending == agent.pathPending
      && other.agent.remainingDistance == agent.remainingDistance
      && other.agent.stoppingDistance == agent.stoppingDistance
      && other.agent.velocitySq == agent.velocitySq
      && other.agent.pathStatus == agent.pathStatus
    }

    /** `StopStuckCheck`: stop the coroutine the handle names, if any, and
        clear the handle. */
    function StopStuckCheck(): (r: Mover)
      ensures r.handle == None
      ensures r.running == if handle.Some? then running - {handle.value} else running
      ensures r.agent == agent && r.nextId == nextId && r.cfg == cfg
      ensures MonitorInv() ==> r.MonitorInv() && r.running == {}
    {
      match handle
      case None => this
      case Some(h) => this.(running := running - {h}, handle := None)
    }

    /** `StartStuckCheck`: cancel the previous monitor, then start a fresh one. */
    function StartStuckCheck(): (r: Mover)
      ensures r.handle == Some(nextId) && r.nextId == nextId + 1
      ensures r.agent == agent && r.cfg == cfg
      ensures MonitorInv() ==> r.MonitorInv() && r.running == {nextId}
    {
      var stopped := StopStuckCheck();
      stopped.(running := stopped.running + {nextId}, handle := Some(nextId), nextId := nextId + 1)
    }

    /** `SetRandomPatrolDestination`, with `sample` the result of
        `NavMesh.SamplePosition` around the random point (None when it fails). */
    function SetRandomPatrolDestination(sample: Option<Vec3>): (r: Mover)
      ensures !agent.activeAndEnabled ==> r == this
      ensures agent.activeAndEnabled ==> r.agent.speed == cfg.patrolSpeed && SameEngineView(r)
      ensures agent.activeAndEnabled && sample.Some? ==>
                && r.agent.destination == sample.value
                && !r.agent.isStopped
                && r.handle == Some(nextId)
                && (MonitorInv() ==> r.running == {nextId})
      ensures agent.activeAndEnabled && sample.None? ==>
                && r.agent.isStopped
                && r.agent.destination == agent.destination
                && r.handle == None
                && (MonitorInv() ==> r.running == {})
      ensures MonitorInv() ==> r.MonitorInv()
    {
      if !agent.activeAndEnabled then this
      else
        var fast := this.(agent := agent.(speed := cfg.patrolSpeed));
        match sample
        case Some(p) =>
          fast.(agent := fast.agent.(destination := p, isStopped := false)).StartStuckCheck()
        case None =>
          fast.(agent := fast.agent.(isStopped := true)).StopStuckCheck()
    }

    /** `StopMoving`. */
    function StopMoving(): (r: Mover)
      ensures !agent.activeAndEnabled ==> r == this
      ensures agent.activeAndEnabled ==> r.agent == agent.(isStopped := true) && r.handle == None
      ensures agent.activeAndEnabled && MonitorInv() ==> r.running == {}
      ensures MonitorInv() ==> r.MonitorInv()
    {
      if agent.activeAndEnabled then this.(agent := agent.(isStopped := true)).StopStuckCheck() else this
    }

    /** `HasReachedDestination`: the answer, and the driver after the query
        (which cancels the monitor on arrival). */
    function HasReachedDestination(): (res: (bool, Mover))
      ensures !agent.activeAndEnabled ==> res == (true, this)
      ensures agent.activeAndEnabled && (!agent.hasPath || agent.pathPending) ==> res == (false, this)
      ensures agent.activeAndEnabled && agent.hasPath && !agent.pathPending ==>
                res.0 == (agent.remainingDistance <= agent.stoppingDistance)
      ensures res.0 && agent.activeAndEnabled ==> res.1.handle == None && (MonitorInv() ==> res.1.running == {})
      ensures !res.0 ==> res.1 == this
      ensures res.1.agent == agent && (MonitorInv() ==> res.1.MonitorInv())
    {
      if !agent.activeAndEnabled then (true, this)
      else if !agent.hasPath || agent.pathPending then (false, this)
      else if agent.remainingDistance <= agent.stoppingDistance then (true, StopStuckCheck())
      else (false, this)
    }

    /** The stuck test of `CheckIfStuck`. */
    predicate IsStuck()
    {
      agent.velocitySq < cfg.minMoveSpeed * cfg.minMoveSpeed && agent.remainingDistance > agent.stoppingDistance
    }

    /** One evaluation of the `CheckIfStuck` loop, by the running monitor `id`,
        after its wait. */
    function PollStuckCheck(id: nat, sample: Option<Vec3>): (res: (PollOutcome, Mover))
      requires id in running
      ensures res.0 == Waiting <==> agent.hasPath && !agent.pathPending && !IsStuck()
      ensures res.0 == Recovered <==> agent.hasPath && !agent.pathPending && IsStuck()
      ensures res.0 == Waiting ==> res.1 == this
      ensures res.0 == Ended ==> res.1 == this.(running := running - {id})
      ensures res.0 == Recovered ==>
                var next := SetRandomPatrolDestination(sample);
                res.1 == next.(running := next.running - {id})
      ensures res.0 != Waiting ==> id !in res.1.running
      ensures MonitorInv() ==> res.1.MonitorInv()
    {
      if !(agent.hasPath && !agent.pathPending) then
        (Ended, this.(running := running - {id}))
      else if IsStuck() then
        var next := SetRandomPatrolDestination(sample);
        (Recovered, next.(running := next.running - {id}))
      else
        (Waiting, this)
    }

    /** The engine refreshing the agent between frames. */
    function Sense(k: Kinematics): (r: Mover)
      ensures r.handle == handle && r.running == running && r.nextId == nextId && r.cfg == cfg
      ensures r.agent.isStopped == agent.isStopped && r.agent.speed == agent.speed
      ensures r.agent.destination == agent.destination
      ensures r.agent.stoppingDistance == agent.stoppingDistance
      ensures MonitorInv() ==> r.MonitorInv()
    {
      this.(agent := agent.(activeAndEnabled := k.activeAndEnabled, hasPath := k.hasPath,
                            pathPending := k.pathPending, remainingDistance := k.remainingDistance,
                            velocitySq := k.velocitySq, pathStatus := k.pathStatus))
    }
  }

  /** A pending path is never valid; a resolved one is valid exactly when
      the engine has not marked it invalid. */
  lemma PathValidity(agent: NavAgent)
    ensures agent.pathPending ==> !agent.IsPathStillValid()
    ensures !agent.pathPending ==> (agent.IsPathStillValid() <==> agent.pathStatus != PathInvalid)
    ensures agent.IsPathStillValid() ==> agent.pathStatus in {PathComplete, PathPartial}
  {
  }

  /** The invariant bounds the running monitors to at most one, the one the
      handle names. */
  lemma AtMostOneMonitor(m: Mover)
    requires m.MonitorInv()
    ensures |m.running| <= 1
    ensures m.running != {} ==> m.handle.Some? && m.running == {m.handle.value}
  {
    if m.running != {} {
      var id :| id in m.running;
      assert m.running == {id} by {
        forall other | other in m.running ensures other == id {
          assert m.handle == Some(other) && m.handle == Some(id);
        }
      }
    }
  }

  /** `Awake`: the NavMesh agent as the scene builds it, configured with the
      component's stopping distance; no monitor is running yet. */
  function Awakened(cfg: MoveConfig, agent: NavAgent): (m: Mover)
    ensures m.agent.stoppingDistance == cfg.stoppingDistance
    ensures m.handle == None && m.running == {} && m.MonitorInv()
  {
    Mover(cfg, agent.(stoppingDistance := cfg.stoppingDistance), None, {}, 0)
  }

  /** An event in the life of the driver: a command from the controller, a
      monitor poll, or an engine refresh. */
  datatype MoveEvent =
    | Retarget(sample: Option<Vec3>)
    | Halt
    | ArrivalQuery
    | Poll(sample: Option<Vec3>)
    | Refresh(k: Kinematics)

  /** Apply one event; a poll happens only when a monitor is running. */
  function Apply(m: Mover, e: MoveEvent): Mover
  {
    match e
    case Retarget(sample) => m.SetRandomPatrolDestination(sample)
    case Halt => m.StopMoving()
    case ArrivalQuery => m.HasReachedDestination().1
    case Poll(sample) =>
      if m.handle.Some? && m.handle.value in m.running then m.PollStuckCheck(m.handle.value, sample).1 else m
    case Refresh(k) => m.Sense(k)
  }

  function ApplyAll(m: Mover, es: seq<MoveEvent>): Mover
    decreases |es|
  {
    if es == [] then m else ApplyAll(Apply(m, es[0]), es[1..])
  }

  /** Whatever the driver is asked to do, at most one stuck monitor is ever
      running, and it is the one the handle names. */
  lemma {:induction false} MonitorInvAlways(m: Mover, es: seq<MoveEvent>)
    requires m.MonitorInv()
    ensures ApplyAll(m, es).MonitorInv()
    ensures |ApplyAll(m, es).running| <= 1
    decreases |es|
  {
    if es == [] {
      AtMostOneMonitor(m);
    } else {
      var m1 := Apply(m, es[0]);
      assert m1.MonitorInv();
      MonitorInvAlways(m1, es[1..]);
    }
  }

  /** The EnemyMovement component. `position` is the transform's position. */
  class EnemyMovement {
    const cfg: MoveConfig
    var position: Vec3
    var agent: NavAgent
    var stuckCheckCoroutine: Option<nat>
    var runningMonitors: set<nat>
    var nextCoroutineId: nat

    function Snapshot(): Mover
      reads this
    {
      Mover(cfg, agent, stuckCheckCoroutine, runningMonitors, nextCoroutineId)
    }

    ghost predicate Valid()
      reads this
    {
      Snapshot().MonitorInv()
    }

    /** `Awake`: snap to the NavMesh when `snap` (the answer of
        `NavMesh.SamplePosition` within `SnapSearchRadius` of `position`)
        found a point, then copy the stopping distance into the agent. */
    constructor (cfg: MoveConfig, position: Vec3, agent: NavAgent, snap: Option<Vec3>)
      ensures Valid()
      ensures Snapshot() == Awakened(cfg, agent)
      ensures this.position == if snap.Some? then snap.value else position
    {
      this.cfg := cfg;
      this.position := if snap.Some? then snap.value else position;
      this.agent := agent.(stoppingDistance := cfg.stoppingDistance);
      stuckCheckCoroutine := None;
      runningMonitors := {};
      nextCoroutineId := 0;
    }

    method StopStuckCheck()
      requires Valid()
      modifies this
      ensures Valid() && position == old(position)
      ensures Snapshot() == old(Snapshot()).StopStuckCheck()
    {
      if stuckCheckCoroutine.Some? {
        runningMonitors := runningMonitors - {stuckCheckCoroutine.value};
        stuckCheckCoroutine := None;
      }
    }

    method StartStuckCheck()
      requires Valid()
      modifies this
      ensures Valid() && position == old(position)
      ensures Snapshot() == old(Snapshot()).StartStuckCheck()
    {
      StopStuckCheck();
      stuckCheckCoroutine := Some(nextCoroutineId);
      runningMonitors := runningMonitors + {nextCoroutineId};
      nextCoroutineId := nextCoroutineId + 1;
    }

    method SetRandomPatrolDestination(sample: Option<Vec3>)
      requires Valid()
      modifies this
      ensures Valid() && position == old(position)
      ensures Snapshot() == old(Snapshot()).SetRandomPatrolDestination(sample)
    {
      if !agent.activeAndEnabled {
        return;
      }
      agent := agent.(speed := cfg.patrolSpeed);
      if sample.Some? {
        agent := agent.(destination := sample.value, isStopped := false);
        StartStuckCheck();
        return;
      }
      agent := agent.(isStopped := true);
      StopStuckCheck();
    }

    method StopMoving()
      requires Valid()
      modifies this
      ensures Valid() && position == old(position)
      ensures Snapshot() == old(Snapshot()).StopMoving()
    {
      if agent.activeAndEnabled {
        agent := agent.(isStopped := true);
        StopStuckCheck();
      }
    }

    method HasReachedDestination() returns (reached: bool)
      requires Valid()
      modifies this
      ensures Valid() && position == old(position)
      ensures (reached, Snapshot()) == old(Snapshot()).HasReachedDestination()
    {
      if !agent.activeAndEnabled {
        return true;
      }
      if !agent.hasPath || agent.pathPending {
        return false;
      }
      if agent.remainingDistance <= agent.stoppingDistance {
        StopStuckCheck();
        return true;
      }
      return false;
    }

    /** One pass of the `CheckIfStuck` loop for the running monitor `id`. */
    method PollStuckCheck(id: nat, sample: Option<Vec3>) returns (outcome: PollOutcome)
      requires Valid() && id in runningMonitors
      modifies this
      ensures Valid() && position == old(position)
      ensures (outcome, Snapshot()) == old(Snapshot()).PollStuckCheck(id, sample)
    {
      if !(agent.hasPath && !agent.pathPending) {
        runningMonitors := runningMonitors - {id};
        return Ended;
      }
      if agent.velocitySq < cfg.minMoveSpeed * cfg.minMoveSpeed && agent.remainingDistance > agent.stoppingDistance {
        SetRandomPatrolDestination(sample);
        runningMonitors := runningMonitors - {id};
        return Recovered;
      }
      return Waiting;
    }

    method IsPathStillValid() returns (valid: bool)
      ensures valid == agent.IsPathStillValid()
    {
      if agent.pathPending {
        return false;
      }
      return agent.pathStatus != PathInvalid;
    }
  }
}
