/** The API server and ADO as the operator sees them. Every call may fail, a failed call has no effect,
    and the environment may move before a call takes effect. Reads see the operator's own writes. */
module Clusters {
  import opened Base
  import opened Naming
  import opened Store
  import opened Ledgers

  datatype Reply = Done | NotFound | AlreadyExists | Unavailable

  /** What the operator reads from a listed pod. */
  datatype PodItem = PodItem(name: string, phase: Phase)

  datatype PvcItem = PvcItem(key: Key, pvc: Pvc)

  function ItemKey(pool: Key, item: PodItem): Key {
    Key(pool.ns, item.name)
  }

  /** `items` are the pods of the pool, each once, in any order. */
  ghost predicate ListsPods(items: seq<PodItem>, w: World, pool: Key) {
    && (forall i :: 0 <= i < |items| ==>
          var k := ItemKey(pool, items[i]);
          k in Members(w, pool) && PhaseAt(w.pods[k].fate, w.now) == Some(items[i].phase))
    && (forall i, j :: 0 <= i < j < |items| ==> items[i].name != items[j].name)
    && (forall k :: k in Members(w, pool) ==> exists i :: 0 <= i < |items| && items[i].name == k.name)
  }

  /** `items` are the claims `cs`, each once, in any order. */
  ghost predicate ListsPvcs(items: seq<PvcItem>, pvcs: Pvcs, cs: set<Key>) {
    && (forall i :: 0 <= i < |items| ==>
         items[i].key in cs && items[i].key in pvcs && items[i].pvc == pvcs[items[i].key])
    && (forall i, j :: 0 <= i < j < |items| ==> items[i].key != items[j].key)
    && (forall c :: c in cs ==> exists i :: 0 <= i < |items| && items[i].key == c)
    && |items| == |cs|
  }

  /** The effect of a merge patch (section 2 of RFC 7396) computed from `orig` and `modified`: only the
      labels that differ between the two are written. */
  function MergePatch(current: Pvc, orig: Pvc, modified: Pvc): (r: Pvc)
    ensures current == orig ==> r == modified
    ensures modified == orig ==> r == current
  {
    Pvc(
      if modified.pool == orig.pool then current.pool else modified.pool,
      if modified.cache == orig.cache then current.cache else modified.cache,
      if modified.slot == orig.slot then current.slot else modified.slot,
      if modified.state == orig.state then current.state else modified.state,
      if modified.assignedPod == orig.assignedPod then current.assignedPod else modified.assignedPod)
  }

  /** The claim names of a pool: the key of the claim for a template and a slot. */
  type SlotNames = (string, nat) -> Key

  function SlotKey(pool: Key, cache: string, slot: nat): Key {
    Key(pool.ns, PvcSlotName(pool.name, cache, slot))
  }

  function SlotNamesOf(pool: Key): SlotNames {
    (cache: string, slot: nat) => SlotKey(pool, cache, slot)
  }

  /** An AgentPool as it is created. */
  function NewPool(spec: PoolSpec): Pool {
    Pool(spec, PoolStatus(0, 0, None, None), false, false)
  }

  /** The AgentPools after one of them was deleted: it is marked and waits for its finalizer, if it has one. */
  function Doomed(pools: map<Key, Pool>, key: Key): map<Key, Pool>
    requires key in pools
  {
    if pools[key].finalizer then pools[key := pools[key].(deleting := true)] else pools - {key}
  }

  /** The operator's in-memory copy of an AgentPool. */
  class AgentPool {
    const key: Key
    const names: SlotNames
    const spec: PoolSpec
    const deleting: bool
    var finalizer: bool
    var status: PoolStatus

    constructor (key: Key, p: Pool)
      ensures this.key == key && Image() == p && names == SlotNamesOf(key)
    {
      this.key, names := key, SlotNamesOf(key);
      spec := p.spec;
      deleting := p.deleting;
      finalizer := p.finalizer;
      status := p.status;
    }

    function Image(): Pool
      reads this
    {
      Pool(spec, status, finalizer, deleting)
    }
  }

  class Cluster {
    var pods: Pods
    var pvcs: Pvcs
    var pools: map<Key, Pool>
    var ado: Registry
    var now: nat

    const azure: Azure                   // what ADO answers
    ghost var led: Ledger
    ghost const bounds: map<Key, nat>    // limits on active pods that the run is watched against

    function View(): World
      reads this
    {
      World(pods, pvcs, pools, ado, now)
    }

    ghost function S(): Sys
      reads this
    {
      Sys(View(), led)
    }

    ghost predicate Ok()
      reads this
    {
      Valid(S(), bounds)
    }

    constructor (w: World, azure: Azure, ghost bounds: map<Key, nat>)
      requires Safe(w, bounds)
      ensures Ok() && View() == w && this.bounds == bounds && this.azure == azure
    {
      pods, pvcs, pools, ado, now := w.pods, w.pvcs, w.pools, w.ado, w.now;
      this.azure, this.bounds := azure, bounds;
      led := Ledger(0, 0, 0, 0, 0, 0, 0, 0, 0, 0, {}, 0);
    }

    /** The environment moves any number of times: pods advance or vanish, the job lists change. */
    method Interfere()
      requires Ok()
      modifies this
      ensures Ok() && Passive(old(S()), S()) && NoFault(old(S()), S())
    {
      var moves: int := *;
      while moves > 0
        invariant Ok() && Passive(old(S()), S()) && NoFault(old(S()), S())
      {
        ghost var s := S();
        NowSafe(s, bounds);
        SafeUnderMove(View(), now + 1, bounds);
        now, moves := now + 1, moves - 1;
        Tick();
      }
    }

    /** An instant: the state is looked at. */
    ghost method Tick()
      modifies this`led
      ensures led == old(led).(unsafe := old(led).unsafe + (if Safe(View(), bounds) then 0 else 1))
    {
      led := led.(unsafe := led.unsafe + if Safe(View(), bounds) then 0 else 1);
    }

    ghost method Fault()
      requires Ok()
      modifies this`led
      ensures Ok() && led == old(led).(faults := old(led).faults + 1)
    {
      led := led.(faults := led.faults + 1);
    }

    ghost method InputFault()
      requires Ok()
      modifies this`led
      ensures Ok() && led == old(led).(faults := old(led).faults + 1, inputFaults := old(led).inputFaults + 1)
    {
      led := led.(faults := led.faults + 1, inputFaults := led.inputFaults + 1);
    }

    ghost method ApiFault()
      requires Ok()
      modifies this`led
      ensures Ok() && led == old(led).(faults := old(led).faults + 1, apiFaults := old(led).apiFaults + 1)
    {
      led := led.(faults := led.faults + 1, apiFaults := led.apiFaults + 1);
    }

    /** The failed call was made to release a claim. */
    ghost method ReleaseFault()
      requires Ok()
      modifies this`led
      ensures Ok() && led == old(led).(releaseFaults := old(led).releaseFaults + 1)
    {
      led := led.(releaseFaults := led.releaseFaults + 1);
    }

    /** A pod name was chosen; `stale` tells that something already bears it. */
    ghost method NameChosen(stale: bool)
      requires Ok()
      modifies this`led
      ensures Ok()
      ensures led == old(led).(named := old(led).named + 1, reused := old(led).reused + (if stale then 1 else 0))
    {
      led := led.(named := led.named + 1, reused := led.reused + if stale then 1 else 0);
    }

    /** Marks an object about to be created as owned by the pool: no call, but it may fail. */
    method SetControllerReference() returns (ok: bool)
      requires Ok()
      modifies this`led
      ensures Ok() && led == old(led).(faults := old(led).faults + (if ok then 0 else 1))
    {
      ok := *;
      if !ok {
        Fault();
      }
    }

    // ----- AgentPool objects -----

    /** A user creates an AgentPool: no status, no finalizer yet. */
    method ApplyPool(key: Key, spec: PoolSpec)
      requires Ok() && key !in pools
      modifies this
      ensures Ok() && S() == old(S()).(w := old(View()).(pools := old(pools)[key := NewPool(spec)]))
    {
      ghost var s := S();
      NowSafe(s, bounds);
      pools := pools[key := NewPool(spec)];
      SafeIgnoresRest(s.w, pools, ado, bounds);
    }

    /** A user changes the spec of an AgentPool. */
    method EditSpec(key: Key, spec: PoolSpec)
      requires Ok() && key in pools
      modifies this
      ensures Ok() && S() == old(S()).(w := old(View()).(pools := old(pools)[key := old(pools)[key].(spec := spec)]))
    {
      ghost var s := S();
      NowSafe(s, bounds);
      pools := pools[key := pools[key].(spec := spec)];
      SafeIgnoresRest(s.w, pools, ado, bounds);
    }

    /** A user deletes an AgentPool. */
    method MarkDeleted(key: Key)
      requires Ok() && key in pools
      modifies this
      ensures Ok() && S() == old(S()).(w := old(View()).(pools := Doomed(old(pools), key)))
    {
      ghost var s := S();
      NowSafe(s, bounds);
      if pools[key].finalizer {
        pools := pools[key := pools[key].(deleting := true)];
      } else {
        pools := pools - {key};
      }
      SafeIgnoresRest(s.w, pools, ado, bounds);
    }

    method GetPool(key: Key) returns (reply: Reply, pool: AgentPool?)
      requires Ok()
      modifies this
      ensures Ok() && ReadsApi(old(S()), S(), reply != Unavailable)
      ensures reply == Done || reply == NotFound || reply == Unavailable
      ensures reply == Done ==>
        pool != null && fresh(pool) && pool.key == key && key in pools && pool.Image() == pools[key]
        && pool.names == SlotNamesOf(key)
      ensures reply == NotFound ==> key !in pools
    {
      Interfere();
      var up: bool := *;
      pool := null;
      if !up {
        ApiFault();
        reply := Unavailable;
      } else if key in pools {
        pool := new AgentPool(key, pools[key]);
        reply := Done;
      } else {
        reply := NotFound;
      }
    }

    /** Writes the status subresource. */
    method UpdateStatus(pool: AgentPool) returns (ok: bool)
      requires Ok()
      modifies this
      ensures Ok() && Grows(old(S()), S())
      ensures ok ==> pool.key in old(pools)
      ensures View() == old(View()).(now := now,
        pools := if ok then old(pools)[pool.key := old(pools)[pool.key].(status := pool.status)] else old(pools))
      ensures led == old(led).(faults := old(led).faults + (if ok then 0 else 1),
                               statusFaults := old(led).statusFaults + (if ok then 0 else 1))
    {
      Interfere();
      ok := *;
      if ok && pool.key in pools {
        ghost var s := S();
        NowSafe(s, bounds);
        pools := pools[pool.key := pools[pool.key].(status := pool.status)];
        SafeIgnoresRest(s.w, pools, ado, bounds);
        Tick();
      } else {
        ok := false;
        led := led.(statusFaults := led.statusFaults + 1, faults := led.faults + 1);
      }
    }

    /** Writes the object's metadata. An object marked for deletion disappears with its finalizer. */
    method Update(pool: AgentPool) returns (ok: bool)
      requires Ok()
      modifies this
      ensures Ok() && Grows(old(S()), S())
      ensures ok ==> pool.key in old(pools)
      ensures View() == old(View()).(now := now, pools :=
        if !ok then old(pools)
        else if old(pools)[pool.key].deleting && !pool.finalizer then old(pools) - {pool.key}
        else old(pools)[pool.key := old(pools)[pool.key].(finalizer := pool.finalizer)])
      ensures led == old(led).(faults := old(led).faults + (if ok then 0 else 1),
                               apiFaults := old(led).apiFaults + (if ok then 0 else 1))
    {
      Interfere();
      ok := *;
      if ok && pool.key in pools {
        ghost var s := S();
        NowSafe(s, bounds);
        if pools[pool.key].deleting && !pool.finalizer {
          pools := pools - {pool.key};
        } else {
          pools := pools[pool.key := pools[pool.key].(finalizer := pool.finalizer)];
        }
        SafeIgnoresRest(s.w, pools, ado, bounds);
        Tick();
      } else {
        ok := false;
        ApiFault();
      }
    }

    /** Reads the access token from the referenced Secret. */
    method ReadToken(pool: AgentPool) returns (ok: bool)
      requires Ok()
      modifies this
      ensures Ok() && ReadsToken(old(S()), S(), ok)
    {
      Interfere();
      ok := *;
      if ok {
        led := led.(tokens := led.tokens + 1);
      } else {
        InputFault();
      }
    }

    // ----- pods -----

    method ListPods(pool: Key) returns (ok: bool, items: seq<PodItem>)
      requires Ok()
      modifies this
      ensures Ok() && ReadsApi(old(S()), S(), ok)
      ensures ok ==> ListsPods(items, View(), pool)
    {
      Interfere();
      ok := *;
      items := [];
      if ok {
        items := Collect(View(), pool);
      } else {
        ApiFault();
      }
    }

    /** Creates a pod in phase Pending; a pod of that name makes the call fail. What the environment will
        do to the new pod is not under the operator's control. */
    method CreatePod(k: Key, poolLabel: string, claims: map<string, string>) returns (ok: bool, pod: Pod)
      requires Ok()
      requires OwnsClaims(pvcs, k, Pod(poolLabel, claims, Fate(None, None, false, None)))
      requires var p := Key(k.ns, poolLabel); p in bounds ==> |Active(View(), p)| < bounds[p]
      modifies this
      ensures Ok() && Grows(old(S()), S())
      ensures View() == old(View()).(now := now, pods := if ok then old(pods)[k := pod] else old(pods))
      ensures led == old(led).(faults := old(led).faults + (if ok then 0 else 1),
                               writes := old(led).writes + (if ok then 1 else 0))
      ensures ok ==> pod.pool == poolLabel && pod.claims == claims && PhaseAt(pod.fate, now) == Some(Pending)
      ensures ok ==> !Live(old(View()).(now := now), k)
    {
      ghost var w := View();
      Interfere();
      ok := *;
      var fate: Fate := *;
      if PhaseAt(fate, now) != Some(Pending) {
        fate := Fate(None, None, false, None);
      }
      pod := Pod(poolLabel, claims, fate);
      if ok && !Live(View(), k) {
        SafeToCreate(w, S(), k, pod, bounds);
        AddPod(k, pod);
      } else {
        ok := false;
        Fault();
      }
    }

    /** The pod is there. */
    method AddPod(k: Key, pod: Pod)
      requires Ok() && SafeNow(View().(pods := pods[k := pod]), bounds)
      modifies this`pods, this`led
      ensures Ok() && pods == old(pods)[k := pod] && led == old(led).(writes := old(led).writes + 1)
    {
      pods := pods[k := pod];
      led := led.(writes := led.writes + 1);
      assert Inspect(View());
      Tick();
    }

    method DeletePod(k: Key) returns (reply: Reply)
      requires Ok()
      modifies this
      ensures Ok() && Grows(old(S()), S())
      ensures reply == Done || reply == NotFound || reply == Unavailable
      ensures led.faults == old(led).faults + (if reply == Unavailable then 1 else 0)
      ensures reply != Done ==> Passive(old(S()), S())
      ensures reply == NotFound ==> !Live(View(), k)
      ensures reply == Done ==>
        && k in old(pods) && Live(old(View()).(now := now), k)
        && View() == old(View()).(now := now, pods := old(pods) - {k})
        && led == old(led).(writes := old(led).writes + 1, kills := old(led).kills + {Kill(k, old(pods)[k], now)})
    {
      Interfere();
      var up: bool := *;
      if !up {
        Fault();
        reply := Unavailable;
      } else if Live(View(), k) {
        ghost var s := S();
        NowSafe(s, bounds);
        SafeUnderDelete(View(), k, bounds);
        led := led.(writes := led.writes + 1, kills := led.kills + {Kill(k, pods[k], now)});
        pods := pods - {k};
        Tick();
        reply := Done;
      } else {
        reply := NotFound;
      }
    }

    // ----- claims -----

    method ListFreePvcs(pool: Key, cache: string) returns (ok: bool, items: seq<PvcItem>)
      requires Ok()
      modifies this
      ensures Ok() && Passive(old(S()), S())
      ensures led.faults == old(led).faults + (if ok then 0 else 1)
      ensures ok ==> ListsPvcs(items, pvcs, FreeSlots(pvcs, pool, cache))
    {
      Interfere();
      ok := *;
      items := [];
      if ok {
        items := CollectPvcs(pvcs, FreeSlots(pvcs, pool, cache));
      } else {
        Fault();
      }
    }

    method ListPvcsForPod(pool: Key, pod: string) returns (ok: bool, items: seq<PvcItem>)
      requires Ok()
      modifies this
      ensures Ok() && Passive(old(S()), S())
      ensures led.faults == old(led).faults + (if ok then 0 else 1)
      ensures ok ==> ListsPvcs(items, pvcs, SlotsOf(pvcs, pool, pod))
    {
      Interfere();
      ok := *;
      items := [];
      if ok {
        items := CollectPvcs(pvcs, SlotsOf(pvcs, pool, pod));
      } else {
        Fault();
      }
    }

    method GetPvc(c: Key) returns (reply: Reply, pvc: Pvc)
      requires Ok()
      modifies this
      ensures Ok() && Passive(old(S()), S())
      ensures reply == Done || reply == NotFound || reply == Unavailable
      ensures led.faults == old(led).faults + (if reply == Unavailable then 1 else 0)
      ensures reply == Done ==> c in pvcs && pvc == pvcs[c]
      ensures reply == NotFound ==> c !in pvcs
    {
      Interfere();
      var up: bool := *;
      pvc := *;
      if !up {
        Fault();
        reply := Unavailable;
      } else if c in pvcs {
        reply, pvc := Done, pvcs[c];
      } else {
        reply := NotFound;
      }
    }

    method CreatePvc(c: Key, pvc: Pvc) returns (reply: Reply)
      requires Ok() && pvc.state == Free && pvc.assignedPod == None
      modifies this
      ensures Ok() && Grows(old(S()), S())
      ensures reply == Done || reply == AlreadyExists || reply == Unavailable
      ensures View() == old(View()).(now := now, pvcs := if reply == Done then old(pvcs)[c := pvc] else old(pvcs))
      ensures led == old(led).(faults := old(led).faults + (if reply == Unavailable then 1 else 0),
        writes := old(led).writes + (if reply == Done then 1 else 0))
      ensures reply == Done ==> c !in old(pvcs)
      ensures reply == AlreadyExists ==> c in old(pvcs)
    {
      Interfere();
      var up: bool := *;
      if !up {
        Fault();
        reply := Unavailable;
      } else if c !in pvcs {
        ghost var s := S();
        NowSafe(s, bounds);
        SafeUnderCreatePvc(View(), c, pvc, bounds);
        pvcs := pvcs[c := pvc];
        led := led.(writes := led.writes + 1);
        Tick();
        reply := Done;
      } else {
        reply := AlreadyExists;
      }
    }

    /** Sends the merge patch from `orig` to `modified`. The patched store may be unsafe; the caller has to
        know that it is not. */
    method PatchPvc(c: Key, orig: Pvc, modified: Pvc) returns (ok: bool)
      requires Ok()
      modifies this
      ensures Grows(old(S()), S())
      ensures ok ==> c in old(pvcs)
      ensures View() == old(View()).(now := now,
        pvcs := if ok then old(pvcs)[c := MergePatch(old(pvcs)[c], orig, modified)] else old(pvcs))
      ensures led == old(led).(unsafe := led.unsafe,
        faults := old(led).faults + (if ok then 0 else 1), writes := old(led).writes + (if ok then 1 else 0))
      ensures Safe(old(View()).(now := now), bounds)
      ensures !ok || Safe(View(), bounds) ==> Ok()
    {
      Interfere();
      ghost var s := S();
      NowSafe(s, bounds);
      ok := *;
      if ok && c in pvcs {
        pvcs := pvcs[c := MergePatch(pvcs[c], orig, modified)];
        led := led.(writes := led.writes + 1);
        Tick();
      } else {
        ok := false;
        Fault();
      }
    }

    // ----- Azure DevOps -----

    /** The id of the ADO pool of that name; it is an error if there is none, or more than one. */
    method GetPoolID(pool: AgentPool) returns (ok: bool, id: int)
      requires Ok()
      modifies this
      ensures Ok() && ReadsInput(old(S()), S(), ok)
      ensures ok ==> azure.pools(pool.spec.poolName, now) == [id]
    {
      Interfere();
      ok, id := *, 0;
      if ok && |azure.pools(pool.spec.poolName, now)| == 1 {
        id := azure.pools(pool.spec.poolName, now)[0];
      } else {
        ok := false;
        InputFault();
      }
    }

    method GetJobs(p: int) returns (ok: bool, list: seq<Job>)
      requires Ok()
      modifies this
      ensures Ok() && ReadsInput(old(S()), S(), ok)
      ensures ok ==> list == azure.jobs(p, now)
    {
      Interfere();
      ok := *;
      list := [];
      if ok {
        list := azure.jobs(p, now);
      } else {
        InputFault();
      }
    }

    /** The id of an agent of that name, or 0 when there is none. */
    method GetAgentByName(p: int, name: string) returns (ok: bool, id: int)
      requires Ok()
      modifies this
      ensures Ok() && Grows(old(S()), S())
      ensures View() == old(View()).(now := now)
      ensures led == old(led).(faults := old(led).faults + (if ok then 0 else 1),
                               lookupFaults := old(led).lookupFaults + (if ok then 0 else 1))
      ensures ok ==> p in ado && AnswersLookup(ado[p], name, id)
    {
      Interfere();
      ok := *;
      id := 0;
      if ok && p in ado {
        if i :| i in ado[p] && ado[p][i] == name {
          id := i;
        }
      } else {
        ok := false;
        led := led.(lookupFaults := led.lookupFaults + 1, faults := led.faults + 1);
      }
    }

    /** Registers an offline agent under a new id. ADO is not assumed to reject a name already taken. */
    method RegisterDummyAgent(p: int, name: string) returns (ok: bool, id: int)
      requires Ok()
      modifies this
      ensures Ok() && Grows(old(S()), S())
      ensures ok ==> p in old(ado) && id !in old(ado)[p] && 0 < id <= INT32_MAX
      ensures View() == old(View()).(now := now, ado := if ok then old(ado)[p := old(ado)[p][id := name]] else old(ado))
      ensures led == old(led).(faults := old(led).faults + (if ok then 0 else 1),
                               writes := old(led).writes + (if ok then 1 else 0))
    {
      Interfere();
      ok, id := *, *;
      if ok && p in ado && id !in ado[p] && 0 < id <= INT32_MAX {
        ghost var s := S();
        NowSafe(s, bounds);
        ado := ado[p := ado[p][id := name]];
        led := led.(writes := led.writes + 1);
        SafeIgnoresRest(s.w, pools, ado, bounds);
        Tick();
      } else {
        ok := false;
        Fault();
      }
    }

    /** Deletes an agent registration. For an unknown id the answer may be either. */
    method UnregisterAgent(p: int, id: int) returns (ok: bool)
      requires Ok()
      modifies this
      ensures Ok() && Grows(old(S()), S())
      ensures ok ==> p in old(ado)
      ensures View() == old(View()).(now := now, ado := if ok then old(ado)[p := old(ado)[p] - {id}] else old(ado))
      ensures led == old(led).(faults := old(led).faults + (if ok then 0 else 1),
                               writes := old(led).writes + (if ok then 1 else 0))
    {
      Interfere();
      ok := *;
      if ok && p in ado {
        ghost var s := S();
        NowSafe(s, bounds);
        ado := ado[p := ado[p] - {id}];
        led := led.(writes := led.writes + 1);
        SafeIgnoresRest(s.w, pools, ado, bounds);
        Tick();
      } else {
        ok := false;
        Fault();
      }
    }
  }

  /** The answer of a look-up by name. */
  ghost predicate AnswersLookup(agents: map<int, string>, name: string, id: int) {
    if forall i :: i in agents ==> agents[i] != name then id == 0 else id in agents && agents[id] == name
  }

  /** A pod that owns its claims may be created if its pool was below its limit a moment ago. */
  lemma SafeToCreate(w: World, s: Sys, k: Key, pod: Pod, bounds: map<Key, nat>)
    requires Valid(s, bounds) && s.w == w.(now := s.w.now) && w.now <= s.w.now
    requires OwnsClaims(w.pvcs, k, pod) && !Live(s.w, k) && PhaseAt(pod.fate, s.w.now) == Some(Pending)
    requires var p := Key(k.ns, pod.pool); p in bounds ==> |Active(w, p)| < bounds[p]
    ensures SafeNow(s.w.(pods := s.w.pods[k := pod]), bounds)
  {
    NowSafe(s, bounds);
    ActiveShrinks(w, s.w.now, Key(k.ns, pod.pool));
    SafeUnderCreatePod(s.w, k, pod, bounds);
  }

  /** Safety is about pods and claims only. */
  lemma SafeIgnoresRest(w: World, pools: map<Key, Pool>, ado: Registry, bounds: map<Key, nat>)
    requires Safe(w, bounds)
    ensures Safe(w.(pools := pools, ado := ado), bounds)
  {
    forall p | p in bounds
      ensures |Active(w.(pools := pools, ado := ado), p)| <= bounds[p]
    {
      assert Active(w.(pools := pools, ado := ado), p) == Active(w, p);
    }
  }

  /** The pods of a pool in some order. */
  method Collect(w: World, pool: Key) returns (items: seq<PodItem>)
    ensures ListsPods(items, w, pool)
  {
    items := [];
    var rest := Members(w, pool);
    while rest != {}
      invariant rest <= Members(w, pool)
      invariant forall i :: 0 <= i < |items| ==>
        var k := ItemKey(pool, items[i]);
        k in Members(w, pool) && k !in rest && PhaseAt(w.pods[k].fate, w.now) == Some(items[i].phase)
      invariant forall i, j :: 0 <= i < j < |items| ==> items[i].name != items[j].name
      invariant forall k :: k in Members(w, pool) && k !in rest ==>
        exists i :: 0 <= i < |items| && items[i].name == k.name
    {
      var k :| k in rest;
      ghost var before := items;
      items := items + [PodItem(k.name, PhaseAt(w.pods[k].fate, w.now).value)];
      rest := rest - {k};
      assert items[|before|].name == k.name;
      forall q | q in Members(w, pool) && q !in rest
        ensures exists i :: 0 <= i < |items| && items[i].name == q.name
      {
        if q != k {
          var i :| 0 <= i < |before| && before[i].name == q.name;
          assert items[i].name == q.name;
        }
      }
    }
  }

  /** Some claims in some order. */
  method CollectPvcs(pvcs: Pvcs, cs: set<Key>) returns (items: seq<PvcItem>)
    requires cs <= pvcs.Keys
    ensures ListsPvcs(items, pvcs, cs)
  {
    items := [];
    var rest := cs;
    while rest != {}
      invariant rest <= cs && |items| == |cs| - |rest|
      invariant forall i :: 0 <= i < |items| ==>
        items[i].key in cs && items[i].key !in rest && items[i].key in pvcs && items[i].pvc == pvcs[items[i].key]
      invariant forall i, j :: 0 <= i < j < |items| ==> items[i].key != items[j].key
      invariant forall c :: c in cs && c !in rest ==> exists i :: 0 <= i < |items| && items[i].key == c
    {
      var c :| c in rest;
      ghost var before := items;
      items := items + [PvcItem(c, pvcs[c])];
      rest := rest - {c};
      assert items[|before|].key == c;
      forall q | q in cs && q !in rest
        ensures exists i :: 0 <= i < |items| && items[i].key == q
      {
        if q != c {
          var i :| 0 <= i < |before| && before[i].key == q;
          assert items[i].key == q;
        }
      }
    }
  }
}
