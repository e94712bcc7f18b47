/** A whole reconcile pass as a relation between the states before and after it. `Controller.Reconcile`
    guarantees the relation; the theorems of the following modules are about it. */
module Passes {
  import opened Base
  import opened Naming
  import opened Store
  import opened Ledgers
  import opened Clusters
  import opened Jobs
  import opened Allocator
  import opened Stages

  /** A pass that got as far as the pods, with the states between its stages. */
  datatype FullPass = FullPass(
    spec: PoolSpec,
    mem: PoolStatus,        // the status in memory once the ADO pool id is known
    names: SlotNames,
    loaded: Sys,            // the ADO pool id is known
    provisioned: Sys,       // EnsurePVCPool has returned
    ensured: bool,          // ... successfully
    asked: nat,             // when the job list was read
    jobs: JobStatus,
    listed: Sys,            // the pods were listed
    items: seq<PodItem>,
    cleaned: Sys,           // completed pods were cleaned up
    freed: set<Key>,
    swept: set<Key>,
    tidy: bool,             // ... without an error
    grown: Sys,             // scale-up is over
    growth: Growth,
    shrunk: Sys,            // scale-down is over
    gone: set<Key>,
    managed: Sys,           // the placeholder agent was dealt with
    action: DummyAction,
    saved: bool             // the status write succeeded
  ) {
    function ActiveCount(): nat { |ActiveItems(items)| }

    function Target(): int { Desired(spec, jobs.pending) }

    function ToCreate(): int { Target() - ActiveCount() }

    function ToDelete(): int { ActiveCount() + growth.created - Target() }

    function Reported(): int { ActiveCount() + growth.created - |gone| }

    /** The status the pass tries to persist. */
    function FinalStatus(): PoolStatus {
      mem.(dummyAgentID := DummyAfter(action, mem.dummyAgentID),
           activeAgents := Some(ToInt32(Reported())), pendingJobs := Some(ToInt32(jobs.pending)))
    }
  }

  /** How far a pass got that gave up before the pods: it had no token or no ADO pool id, or it had no job list
      or no list of pods, with the states before and after provisioning. */
  datatype Halt = NotLoaded | NotSurveyed(loaded: Sys, provisioned: Sys, ensured: bool)

  datatype Pass =
    | Nothing                                          // no such object, or it could not be read
    | Teardown(unregistered: bool, removed: bool)      // the object is being deleted
    | Marking(saved: bool)                             // the finalizer was missing
    | Stopped(mem: PoolStatus, names: SlotNames, halt: Halt)   // gave up before looking at the pods
    | Full(f: FullPass)

  /** The persisted status of a pool replaced. */
  function WithStatus(pools: map<Key, Pool>, key: Key, status: PoolStatus): map<Key, Pool>
    requires key in pools
  {
    pools[key := pools[key].(status := status)]
  }

  lemma SameStatus(pools: map<Key, Pool>, key: Key)
    requires key in pools
    ensures WithStatus(pools, key, pools[key].status) == pools
  {
  }

  /** The only thing loading may change: the ADO pool id, when it was not known. */
  ghost predicate Resolves(before: PoolStatus, after: PoolStatus) {
    after == before.(poolID := after.poolID) && (before.poolID != 0 ==> after == before)
  }

  /** At that time ADO had exactly one pool of the name, and this was its id. */
  predicate IsPoolID(J: Azure, name: string, at: nat, id: int) {
    |J.pools(name, at)| == 1 && id == ToInt32(J.pools(name, at)[0])
  }

  /** The ADO pool id is the persisted one or, if there was none, the one ADO gave for the name in the spec. */
  ghost predicate Knows(s: Sys, t: Sys, key: Key, J: Azure, mem: PoolStatus)
    requires key in s.w.pools
  {
    var pool := s.w.pools[key];
    && Resolves(pool.status, mem)
    && (pool.status.poolID == 0 ==>
         exists at: nat :: s.w.now <= at <= t.w.now && IsPoolID(J, pool.spec.poolName, at, mem.poolID))
  }

  /** Nothing has changed but the ADO pool id, which is known and persisted. */
  ghost predicate Located(s: Sys, t: Sys, key: Key, J: Azure, mem: PoolStatus) {
    && Grows(s, t) && key in s.w.pools && Knows(s, t, key, J, mem)
    && t == Sys(s.w.(pools := WithStatus(s.w.pools, key, mem), now := t.w.now), s.led.(tokens := t.led.tokens))
  }

  /** The token and the ADO pool id could be read, and the id is persisted. */
  ghost predicate Loaded(s: Sys, t: Sys, key: Key, J: Azure, mem: PoolStatus) {
    Located(s, t, key, J, mem) && TokensRead(s, t) == 1
  }

  /** They could not: reading one of them failed, or persisting the id did. The status write that reports this
      may have failed too. */
  ghost predicate Unloaded(s: Sys, t: Sys, before: PoolStatus) {
    && Grows(s, t) && t.w == s.w.(now := t.w.now)
    && t.led == s.led.(faults := t.led.faults, statusFaults := t.led.statusFaults, inputFaults := t.led.inputFaults,
                       tokens := t.led.tokens)
    && TokensRead(s, t) <= 1
    && FailedCalls(s, t) == FailedInputs(s, t) + FailedStatus(s, t)
    && FailedInputs(s, t) <= 1 && FailedStatus(s, t) <= 1
    && (FailedInputs(s, t) == 1 || (FailedStatus(s, t) == 1 && before.poolID == 0))
  }

  /** The job list or the list of pods could not be read. */
  ghost predicate Unsurveyed(s: Sys, t: Sys) {
    && Grows(s, t) && t.w == s.w.(now := t.w.now)
    && t.led == s.led.(faults := t.led.faults, statusFaults := t.led.statusFaults, inputFaults := t.led.inputFaults,
                       apiFaults := t.led.apiFaults)
    && FailedCalls(s, t) == FailedInputs(s, t) + FailedApi(s, t) + FailedStatus(s, t)
    && FailedInputs(s, t) + FailedApi(s, t) == 1 && FailedStatus(s, t) <= FailedInputs(s, t)
  }

  ghost predicate Provisioning(s: Sys, t: Sys, key: Key, spec: PoolSpec, names: SlotNames, ok: bool) {
    && CreatesOnly(s, t) && FailedCalls(s, t) == (if ok then 0 else 1)
    && Extended(s.w.pvcs, t.w.pvcs, PlanOf(names, key, spec))
    && (ok ==> t.w.pvcs == PlanOf(names, key, spec) + s.w.pvcs)
  }

  ghost predicate Saves(s: Sys, t: Sys, key: Key, status: PoolStatus, ok: bool) {
    && Grows(s, t) && key in s.w.pools
    && t.w == s.w.(pools := if ok then WithStatus(s.w.pools, key, status) else s.w.pools, now := t.w.now)
    && t.led == s.led.(faults := t.led.faults, statusFaults := t.led.statusFaults)
    && FailedStatus(s, t) == (if ok then 0 else 1) && FailedCalls(s, t) <= FailedStatus(s, t) + 1
  }

  ghost predicate Prepares(s: Sys, key: Key, J: Azure, f: FullPass) {
    && key in s.w.pools && s.w.pools[key].finalizer && !s.w.pools[key].deleting && s.w.pools[key].spec == f.spec
    && Loaded(s, f.loaded, key, J, f.mem)
    && f.names == SlotNamesOf(key) && Provisioning(f.loaded, f.provisioned, key, f.spec, f.names, f.ensured)
    && Passive(f.provisioned, f.listed) && NoFault(f.provisioned, f.listed)
    && f.provisioned.w.now <= f.asked <= f.listed.w.now && f.jobs == Summary(J.jobs(f.mem.poolID, f.asked))
    && ListsPods(f.items, f.listed.w, key)
  }

  ghost predicate Scales(key: Key, f: FullPass) {
    && Cleaned(f.listed, f.cleaned, key, |f.spec.caches| > 0, CompletedNames(f.items), f.freed, f.swept, f.tidy)
    && Grown(f.cleaned, f.grown, key, f.spec, f.growth)
    && f.growth.created <= (if f.ToCreate() > 0 then f.ToCreate() else 0)
    && (f.growth.created < f.ToCreate() ==> f.growth.full || !NoFault(f.cleaned, f.grown))
    && (f.growth.full ==> f.growth.created < f.ToCreate())
    && (f.growth.full && f.growth.created == 0 ==> WroteUnlessBare(f.cleaned, f.grown, key, f.spec.caches))
    && NamesTried(f.cleaned, f.grown) == f.growth.created + (if f.growth.created < f.ToCreate() then 1 else 0)
    && (f.ToCreate() <= 0 ==> f.grown == f.cleaned)
    && Shrunk(f.grown, f.shrunk, key, ActiveItems(f.items), f.ToDelete(), f.jobs.busyAgentNames, f.gone)
    && ShrunkExactly(f.grown, f.shrunk, key, ActiveItems(f.items), f.ToDelete(), f.jobs.busyAgentNames, f.gone)
    && ShrunkInOrder(f.grown, f.shrunk, key, ActiveItems(f.items), f.ToDelete(), f.jobs.busyAgentNames, f.gone)
  }

  ghost predicate Finishes(t: Sys, key: Key, f: FullPass) {
    && Managed(f.shrunk, f.managed, f.mem.poolID, DummyName(key.name), f.Target(), f.mem.dummyAgentID, f.action)
    && Saves(f.managed, t, key, f.FinalStatus(), f.saved)
  }

  /** Mentioned where a proof wants to know what the stages of a pass are. */
  ghost predicate Open(f: FullPass) { true }

  ghost predicate IsScaled(key: Key, f: FullPass) {
    forall g {:trigger Open(g)} :: g == f ==> Scales(key, g)
  }

  /** The three parts of a pass; the trigger keeps them out of proofs that do not ask for them. */
  ghost predicate FullOf(s: Sys, t: Sys, key: Key, J: Azure, f: FullPass) {
    forall g {:trigger Open(g)} :: g == f ==> Prepares(s, key, J, g) && Scales(key, g) && Finishes(t, key, g)
  }

  /** Nothing but claims and the ADO pool id may have changed, and a call failed that the pass cannot do without. */
  ghost predicate StoppedOf(s: Sys, t: Sys, key: Key, J: Azure, mem: PoolStatus, names: SlotNames, halt: Halt) {
    && Grows(s, t) && !NoFault(s, t)
    && key in s.w.pools && s.w.pools[key].finalizer && !s.w.pools[key].deleting && Resolves(s.w.pools[key].status, mem)
    && t.w == s.w.(pools := WithStatus(s.w.pools, key, mem), pvcs := t.w.pvcs, now := t.w.now)
    && t.led == s.led.(faults := t.led.faults, statusFaults := t.led.statusFaults, inputFaults := t.led.inputFaults,
                       apiFaults := t.led.apiFaults, tokens := t.led.tokens, writes := t.led.writes)
    && names == SlotNamesOf(key) && Extended(s.w.pvcs, t.w.pvcs, PlanOf(names, key, s.w.pools[key].spec))
    && (t.w.pvcs.Keys == s.w.pvcs.Keys ==> t.led.writes == s.led.writes)
    && HaltOf(s, t, key, J, mem, names, halt)
  }

  ghost predicate HaltOf(s: Sys, t: Sys, key: Key, J: Azure, mem: PoolStatus, names: SlotNames, halt: Halt)
    requires key in s.w.pools
  {
    match halt
    case NotLoaded => mem == s.w.pools[key].status && Unloaded(s, t, mem)
    case NotSurveyed(loaded, provisioned, ensured) =>
      && Loaded(s, loaded, key, J, mem)
      && Provisioning(loaded, provisioned, key, s.w.pools[key].spec, names, ensured)
      && Unsurveyed(provisioned, t)
  }

  /** The placeholder is unregistered if it can be, and the finalizer is dropped whatever becomes of that. */
  ghost predicate TeardownOf(s: Sys, t: Sys, key: Key, unregistered: bool, removed: bool) {
    && Grows(s, t)
    && key in s.w.pools && s.w.pools[key].deleting && s.w.pools[key].finalizer
    && var st := s.w.pools[key].status;
    && (unregistered ==> st.dummyAgentID != 0 && st.poolID in s.w.ado)
    && t.w == s.w.(now := t.w.now, pools := if removed then s.w.pools - {key} else s.w.pools,
                   ado := if unregistered then s.w.ado[st.poolID := s.w.ado[st.poolID] - {st.dummyAgentID}]
                          else s.w.ado)
    && t.led == s.led.(faults := t.led.faults, inputFaults := t.led.inputFaults, apiFaults := t.led.apiFaults,
                       tokens := t.led.tokens, writes := t.led.writes)
    && TokensRead(s, t) <= 1 && (unregistered ==> TokensRead(s, t) == 1)
    && FailedApi(s, t) == (if removed then 0 else 1)
    && FailedCalls(s, t) == FailedApi(s, t) + (if st.dummyAgentID != 0 && !unregistered then 1 else 0)
    && t.led.writes == s.led.writes + (if unregistered then 1 else 0)
  }

  ghost predicate MarkingOf(s: Sys, t: Sys, key: Key, saved: bool) {
    && Grows(s, t)
    && key in s.w.pools && !s.w.pools[key].deleting && !s.w.pools[key].finalizer
    && t.w == s.w.(now := t.w.now,
                   pools := if saved then s.w.pools[key := s.w.pools[key].(finalizer := true)] else s.w.pools)
    && t.led == s.led.(faults := t.led.faults, apiFaults := t.led.apiFaults)
    && FailedCalls(s, t) == FailedApi(s, t) == (if saved then 0 else 1)
  }

  /** The object could not be read, or there is nothing to do for it. */
  ghost predicate NothingOf(s: Sys, t: Sys, key: Key) {
    && Grows(s, t) && t.w == s.w.(now := t.w.now)
    && t.led == s.led.(faults := t.led.faults, apiFaults := t.led.apiFaults)
    && FailedCalls(s, t) == FailedApi(s, t) <= 1
    && (NoFault(s, t) ==> key !in s.w.pools || (s.w.pools[key].deleting && !s.w.pools[key].finalizer))
  }

  /** What one call of Reconcile for the pool `key` does. */
  ghost predicate PassOf(s: Sys, t: Sys, key: Key, J: Azure, p: Pass) {
    match p
    case Nothing => NothingOf(s, t, key)
    case Teardown(unregistered, removed) => TeardownOf(s, t, key, unregistered, removed)
    case Marking(saved) => MarkingOf(s, t, key, saved)
    case Stopped(mem, names, halt) => StoppedOf(s, t, key, J, mem, names, halt)
    case Full(f) => FullOf(s, t, key, J, f)
  }

  /** A pass that got to the pods has read all it needs. */
  lemma FullHasRead(s: Sys, t: Sys, key: Key, J: Azure, f: FullPass)
    requires FullOf(s, t, key, J, f)
    ensures FailedApi(s, t) == 0 && FailedInputs(s, t) == 0 && TokensRead(s, t) == 1
  {
    assert Open(f);
  }

  /** The limits a run is watched against allow for what the pool may do. */
  ghost predicate BoundsFit(bounds: map<Key, nat>, key: Key, spec: PoolSpec) {
    var p := Key(key.ns, AgentLabel(key, spec));
    p in bounds ==> p == key && spec.minAgents <= spec.maxAgents <= bounds[p]
  }
}
