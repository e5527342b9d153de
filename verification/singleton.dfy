/** Singleton<T>: the static `instance` slot of one singleton type and the
    per-object `initialized` flags of the objects of that type. Objects are
    named by ids; `FindFirstObjectByType` is an optional id handed in by the
    caller. */
module Singletons {
  import opened Common

  type ObjectId = nat

  /** The state of one singleton type `T`: whether it persists across
      scenes, the `instance` slot, the objects whose `initialized` flag is
      set, the objects on which `OnSingletonAwake` ran (in order), those
      marked `DontDestroyOnLoad`, and those asked to `Destroy` themselves. */
  datatype Registry = Registry(
    persistAcrossScenes: bool,
    instance: Option<ObjectId>,
    initialized: set<ObjectId>,
    hookRuns: seq<ObjectId>,
    persisted: set<ObjectId>,
    destroyRequested: set<ObjectId>)
  {
    /** Only the registered instance can be initialised. */
    ghost predicate Inv()
    {
      forall o | o in initialized :: instance == Some(o)
    }

    /** The `Instance` getter: the cached slot if set, otherwise the lookup,
        which is cached. */
    function Instance(found: Option<ObjectId>): (res: (Option<ObjectId>, Registry))
      ensures instance.Some? ==> res == (instance, this)
      ensures instance.None? ==> res.0 == found && res.1 == this.(instance := found)
      ensures res.1.instance == res.0
      ensures Inv() ==> res.1.Inv()
    {
      if instance.None? then (found, this.(instance := found)) else (instance, this)
    }

    /** `Awake` of object `self`. */
    function Awake(self: ObjectId): (r: Registry)
      ensures instance.Some? && instance.value != self ==>
                r == this.(destroyRequested := destroyRequested + {self})
      ensures !(instance.Some? && instance.value != self) ==>
                && r.instance == Some(self)
                && self in r.initialized
                && r.hookRuns == (if self in initialized then hookRuns else hookRuns + [self])
                && r.persisted == (if persistAcrossScenes then persisted + {self} else persisted)
                && r.destroyRequested == destroyRequested
      ensures Inv() ==> r.Inv()
    {
      if instance.Some? && instance.value != self then
        this.(destroyRequested := destroyRequested + {self})
      else
        var registered := this.(instance := Some(self));
        var kept := if persistAcrossScenes then registered.(persisted := persisted + {self}) else registered;
        if self !in initialized then kept.(initialized := initialized + {self}, hookRuns := hookRuns + [self])
        else kept
    }

    /** `OnDestroy` of object `self`. */
    function OnDestroy(self: ObjectId): (r: Registry)
      ensures instance == Some(self) ==> r == this.(instance := None, initialized := initialized - {self})
      ensures instance != Some(self) ==> r == this
      ensures Inv() ==> r.Inv() && r.initialized == initialized - {self}
    {
      if instance == Some(self) then this.(instance := None, initialized := initialized - {self}) else this
    }
  }

  /** A type's state before any of its objects wakes up. */
  function Empty(persistAcrossScenes: bool): (r: Registry)
    ensures r.instance.None? && r.initialized == {} && r.hookRuns == [] && r.Inv()
  {
    Registry(persistAcrossScenes, None, {}, [], {}, {})
  }

  /** The invariant leaves room for one initialised object at most. */
  lemma AtMostOneInitialized(r: Registry)
    requires r.Inv()
    ensures |r.initialized| <= 1
    ensures r.initialized != {} ==> r.instance.Some? && r.initialized == {r.instance.value}
  {
    if r.initialized != {} {
      var o :| o in r.initialized;
      assert r.initialized == {o} by {
        forall p | p in r.initialized ensures p == o {
          assert r.instance == Some(p) && r.instance == Some(o);
        }
      }
    }
  }

  /** Waking the same object twice is the same as waking it once. */
  lemma AwakeIdempotent(r: Registry, self: ObjectId)
    ensures r.Awake(self).Awake(self) == r.Awake(self)
  {
  }

  /** Life-cycle calls on the objects of one singleton type. */
  datatype RegistryEvent = Lookup(found: Option<ObjectId>) | AwakeOf(o: ObjectId) | DestroyOf(o: ObjectId)

  function Apply(r: Registry, e: RegistryEvent): Registry
  {
    match e
    case Lookup(found) => r.Instance(found).1
    case AwakeOf(o) => r.Awake(o)
    case DestroyOf(o) => r.OnDestroy(o)
  }

  function ApplyAll(r: Registry, es: seq<RegistryEvent>): Registry
    decreases |es|
  {
    if es == [] then r else ApplyAll(Apply(r, es[0]), es[1..])
  }

  /** Between two destructions of an object, `OnSingletonAwake` runs on it at
      most once, and not at all if it is already initialised; once it has
      run the object stays initialised. */
  lemma {:induction false} HookRunsAtMostOnce(r: Registry, es: seq<RegistryEvent>, o: ObjectId)
    requires r.Inv()
    requires forall i | 0 <= i < |es| :: es[i] != DestroyOf(o)
    ensures multiset(ApplyAll(r, es).hookRuns)[o] <= multiset(r.hookRuns)[o] + (if o in r.initialized then 0 else 1)
    ensures o in r.initialized ==> o in ApplyAll(r, es).initialized
    ensures ApplyAll(r, es).Inv()
    decreases |es|
  {
    if es != [] {
      var r1 := Apply(r, es[0]);
      assert r1.Inv();
      assert o in r.initialized ==> o in r1.initialized;
      assert multiset(r1.hookRuns)[o] <= multiset(r.hookRuns)[o] + (if o in r.initialized then 0 else 1);
      assert multiset(r1.hookRuns)[o] > multiset(r.hookRuns)[o] ==> o in r1.initialized;
      forall i | 0 <= i < |es[1..]| ensures es[1..][i] != DestroyOf(o) {
        assert es[1..][i] == es[i + 1];
      }
      HookRunsAtMostOnce(r1, es[1..], o);
    }
  }

  /** The static slot and per-object flags of one singleton type `T`. */
  class SingletonSlot {
    const persistAcrossScenes: bool
    var instance: Option<ObjectId>
    var initialized: set<ObjectId>
    var hookRuns: seq<ObjectId>
    var persisted: set<ObjectId>
    var destroyRequested: set<ObjectId>

    function Snapshot(): Registry
      reads this
    {
      Registry(persistAcrossScenes, instance, initialized, hookRuns, persisted, destroyRequested)
    }

    constructor (persistAcrossScenes: bool)
      ensures Snapshot() == Empty(persistAcrossScenes)
    {
      this.persistAcrossScenes := persistAcrossScenes;
      instance := None;
      initialized := {};
      hookRuns := [];
      persisted := {};
      destroyRequested := {};
    }

    method Instance(found: Option<ObjectId>) returns (result: Option<ObjectId>)
      modifies this
      ensures (result, Snapshot()) == old(Snapshot()).Instance(found)
    {
      if instance.None? {
        instance := found;
      }
      return instance;
    }

    method Awake(self: ObjectId)
      modifies this
      ensures Snapshot() == old(Snapshot()).Awake(self)
    {
      if instance.Some? && instance.value != self {
        destroyRequested := destroyRequested + {self};
        return;
      }
      instance := Some(self);
      if persistAcrossScenes {
        persisted := persisted + {self};
      }
      if self !in initialized {
        initialized := initialized + {self};
        hookRuns := hookRuns + [self];
      }
    }

    method OnDestroy(self: ObjectId)
      modifies this
      ensures Snapshot() == old(Snapshot()).OnDestroy(self)
    {
      if instance == Some(self) {
        instance := None;
        initialized := initialized - {self};
      }
    }
  }
}
