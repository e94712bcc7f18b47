/** The placeholder agent: at most one per name, known to the operator, gone when its pool is, and there
    exactly when no agent is. */
module Dummies {
  import opened Base
  import opened Naming
  import opened Store
  import opened Ledgers
  import opened Jobs
  import opened Stages
  import opened Passes
  import opened Scaling

  /** No two agents of an ADO pool bear the same name. */
  ghost predicate NamesUnique(ado: Registry) {
    forall p, i, j :: p in ado && i in ado[p] && j in ado[p] && ado[p][i] == ado[p][j] ==> i == j
  }

  /** No ADO pool has an agent of that name. */
  ghost predicate NoneNamed(ado: Registry, name: string) {
    forall p :: p in ado ==> NoAgent(ado, p, name)
  }

  /** No two AgentPools of any namespaces share a name, hence a placeholder name. */
  ghost predicate PoolNamesDiffer(pools: map<Key, Pool>) {
    forall j, k :: j in pools && k in pools && j.name == k.name ==> j == k
  }

  /** Every registered placeholder of an AgentPool is the one its persisted status names. */
  ghost predicate DummiesKnown(w: World) {
    forall k, p, i :: k in w.pools && p in w.ado && i in w.ado[p] && w.ado[p][i] == DummyName(k.name) ==>
      w.pools[k].status.poolID == p && w.pools[k].status.dummyAgentID == i
  }

  /** Every registered placeholder of an AgentPool is in the ADO pool its status names. */
  ghost predicate DummiesAtHome(w: World) {
    forall k, p, i :: k in w.pools && p in w.ado && i in w.ado[p] && w.ado[p][i] == DummyName(k.name) ==>
      w.pools[k].status.poolID == p
  }

  /** A persisted placeholder id names an agent of the AgentPool's own placeholder name; only while the
      AgentPool is being deleted may the agent be gone already. */
  ghost predicate IdsNameDummies(w: World) {
    forall k :: k in w.pools && w.pools[k].status.dummyAgentID != 0 ==>
      var st := w.pools[k].status;
      if st.poolID in w.ado && st.dummyAgentID in w.ado[st.poolID]
      then w.ado[st.poolID][st.dummyAgentID] == DummyName(k.name)
      else w.pools[k].deleting
  }

  /** ADO gave the new placeholder an id that no other AgentPool's status still names. */
  ghost predicate IdIsNew(pools: map<Key, Pool>, key: Key, p: Pass) {
    p.Full? && p.f.action.Registered? ==> forall k :: k in pools && k != key ==>
      !(pools[k].status.poolID == p.f.mem.poolID && pools[k].status.dummyAgentID == p.f.action.id)
  }

  lemma DummyStage(s: Sys, t: Sys, key: Key, J: Azure, f: FullPass)
    requires FullOf(s, t, key, J, f)
    ensures ActionFits(f.action, f.shrunk, f.managed, f.mem.poolID, DummyName(key.name), f.Target(), f.mem.dummyAgentID)
    ensures f.shrunk.w.ado == s.w.ado
    ensures t.w.ado == RegistryAfter(f.action, s.w.ado, f.mem.poolID, DummyName(key.name), f.mem.dummyAgentID)
    ensures FailedLookups(s, t) == FailedLookups(f.shrunk, f.managed) >= 0
    ensures t.led.statusFaults == s.led.statusFaults ==> f.saved
  {
    assert Open(f);
  }

  // ----- at most one -----

  /** While the placeholder is managed the look-up by name fails and no other call does. */
  ghost predicate OnlyLookupFails(f: FullPass) {
    && FailedLookups(f.shrunk, f.managed) > 0
    && f.managed.led.faults - f.shrunk.led.faults == FailedLookups(f.shrunk, f.managed)
  }

  /** A pass makes a second agent of a name appear exactly when no agent is wanted, no id is known, ADO has
      the name already, and the look-up fails while the registration does not. */
  lemma SecondDummyIff(s: Sys, t: Sys, key: Key, J: Azure, p: Pass)
    requires PassOf(s, t, key, J, p) && IdsOk(s.w.ado) && NamesUnique(s.w.ado)
    ensures !NamesUnique(t.w.ado) <==>
      && p.Full? && p.f.Target() == 0 && p.f.mem.dummyAgentID == 0
      && !NoAgent(s.w.ado, p.f.mem.poolID, DummyName(key.name)) && OnlyLookupFails(p.f)
  {
    if p.Full? {
      DummyStage(s, t, key, J, p.f);
      if p.f.action.Registered? && !NoAgent(s.w.ado, p.f.mem.poolID, DummyName(key.name)) {
        var i :| i in s.w.ado[p.f.mem.poolID] && s.w.ado[p.f.mem.poolID][i] == DummyName(key.name);
        assert t.w.ado[p.f.mem.poolID][i] == t.w.ado[p.f.mem.poolID][p.f.action.id];
      }
    }
  }

  /** While look-ups by name answer, no pass registers a name twice, even if status writes were lost. */
  lemma AtMostOneDummy(s: Sys, t: Sys, key: Key, J: Azure, p: Pass)
    requires PassOf(s, t, key, J, p) && t.led.lookupFaults == s.led.lookupFaults
    requires IdsOk(s.w.ado) && NamesUnique(s.w.ado)
    ensures IdsOk(t.w.ado) && NamesUnique(t.w.ado)
  {
    SecondDummyIff(s, t, key, J, p);
    if p.Full? {
      DummyStage(s, t, key, J, p.f);
    }
  }

  /** Placeholders are registered nowhere but in the ADO pool the persisted status names, even if later
      status writes are lost: the ADO pool is persisted first. */
  lemma DummiesStayAtHome(s: Sys, t: Sys, key: Key, J: Azure, p: Pass)
    requires PassOf(s, t, key, J, p) && IdsOk(s.w.ado) && PoolNamesDiffer(s.w.pools) && DummiesAtHome(s.w)
    ensures PoolNamesDiffer(t.w.pools) && DummiesAtHome(t.w)
  {
    match p
    case Full(f) =>
      DummyStage(s, t, key, J, f);
      StatusAfterPass(s, t, key, J, f);
      forall k, q, i | k in t.w.pools && q in t.w.ado && i in t.w.ado[q] && t.w.ado[q][i] == DummyName(k.name)
        ensures t.w.pools[k].status.poolID == q
      {
        AtHomeBefore(s.w, t.w, key, f.mem, f.action, k, q, i);
      }
    case Stopped(mem, _, _) =>
      forall k, q, i | k in t.w.pools && q in t.w.ado && i in t.w.ado[q] && t.w.ado[q][i] == DummyName(k.name)
        ensures t.w.pools[k].status.poolID == q
      {
        assert s.w.pools[k].status.poolID == q;
      }
    case _ =>
  }

  lemma AtHomeBefore(s: World, t: World, key: Key, mem: PoolStatus, a: DummyAction, k: Key, q: int, i: int)
    requires IdsOk(s.ado) && PoolNamesDiffer(s.pools) && DummiesAtHome(s)
    requires key in s.pools && key in t.pools && Resolves(s.pools[key].status, mem)
    requires t.pools == WithStatus(s.pools, key, t.pools[key].status) && t.pools[key].status.poolID == mem.poolID
    requires t.ado == RegistryAfter(a, s.ado, mem.poolID, DummyName(key.name), mem.dummyAgentID)
    requires k in t.pools && q in t.ado && i in t.ado[q] && t.ado[q][i] == DummyName(k.name)
    ensures t.pools[k].status.poolID == q
  {
    SameDummySamePool(s.pools, k, key);
  }

  lemma SameDummySamePool(pools: map<Key, Pool>, j: Key, k: Key)
    requires PoolNamesDiffer(pools) && j in pools && k in pools
    ensures DummyName(j.name) == DummyName(k.name) ==> j == k
  {
    if DummyName(j.name) == DummyName(k.name) {
      DummyNameInjective(j.name, k.name);
    }
  }

  /** Then ADO as a whole has at most one placeholder of each AgentPool. */
  lemma OneDummyAnywhere(w: World, k: Key, p: int, i: int, q: int, j: int)
    requires NamesUnique(w.ado) && DummiesAtHome(w) && k in w.pools
    requires p in w.ado && i in w.ado[p] && w.ado[p][i] == DummyName(k.name)
    requires q in w.ado && j in w.ado[q] && w.ado[q][j] == DummyName(k.name)
    ensures p == q && i == j
  {
    assert w.pools[k].status.poolID == p;
    assert w.pools[k].status.poolID == q;
  }

  // ----- none left behind -----

  /** While no status write is lost, every registered placeholder stays known. */
  lemma DummiesStayKnown(s: Sys, t: Sys, key: Key, J: Azure, p: Pass)
    requires PassOf(s, t, key, J, p) && t.led.statusFaults == s.led.statusFaults
    requires IdsOk(s.w.ado) && PoolNamesDiffer(s.w.pools) && DummiesKnown(s.w)
    ensures PoolNamesDiffer(t.w.pools) && DummiesKnown(t.w)
  {
    if p.Full? {
      DummyStage(s, t, key, J, p.f);
      StatusAfterPass(s, t, key, J, p.f);
      forall k, q, i | k in t.w.pools && q in t.w.ado && i in t.w.ado[q] && t.w.ado[q][i] == DummyName(k.name)
        ensures t.w.pools[k].status.poolID == q && t.w.pools[k].status.dummyAgentID == i
      {
        RegisteredBefore(s.w, t.w, key, p.f, k, q, i);
      }
    }
  }

  lemma RegisteredBefore(s: World, t: World, key: Key, f: FullPass, k: Key, q: int, i: int)
    requires IdsOk(s.ado) && PoolNamesDiffer(s.pools) && DummiesKnown(s)
    requires key in s.pools && Resolves(s.pools[key].status, f.mem)
    requires t.pools == WithStatus(s.pools, key, f.FinalStatus())
    requires t.ado == RegistryAfter(f.action, s.ado, f.mem.poolID, DummyName(key.name), f.mem.dummyAgentID)
    requires f.action.Registered? ==> f.mem.dummyAgentID == 0 && f.mem.poolID in s.ado && 0 < f.action.id <= INT32_MAX
    requires f.action.Recovered? ==>
      && f.mem.dummyAgentID == 0 && f.mem.poolID in s.ado && f.action.id in s.ado[f.mem.poolID]
      && s.ado[f.mem.poolID][f.action.id] == DummyName(key.name)
    requires f.action.Unregistered? ==> f.mem.poolID in s.ado
    requires k in t.pools && q in t.ado && i in t.ado[q] && t.ado[q][i] == DummyName(k.name)
    ensures t.pools[k].status.poolID == q && t.pools[k].status.dummyAgentID == i
  {
    SameDummySamePool(s.pools, k, key);
  }

  /** While no status write is lost and ADO does not hand out an id somebody still holds, every persisted
      id of an AgentPool in use names its registered placeholder. */
  lemma IdsStayNamed(s: Sys, t: Sys, key: Key, J: Azure, p: Pass)
    requires PassOf(s, t, key, J, p) && t.led.statusFaults == s.led.statusFaults && IdIsNew(s.w.pools, key, p)
    requires IdsOk(s.w.ado) && PoolNamesDiffer(s.w.pools) && IdsNameDummies(s.w)
    ensures IdsNameDummies(t.w)
  {
    forall k | k in t.w.pools && t.w.pools[k].status.dummyAgentID != 0
      ensures var st := t.w.pools[k].status;
        if st.poolID in t.w.ado && st.dummyAgentID in t.w.ado[st.poolID]
        then t.w.ado[st.poolID][st.dummyAgentID] == DummyName(k.name)
        else t.w.pools[k].deleting
    {
      match p
      case Full(f) =>
        FullNeedsFinalizer(s, t, key, J, f);
        DummyStage(s, t, key, J, f);
        StatusAfterPass(s, t, key, J, f);
        NamedAfterFull(s.w, t.w, key, f, k);
      case Teardown(unregistered, removed) =>
        NamedAfterTeardown(s, t, key, unregistered, removed, k);
      case _ =>
        assert k in s.w.pools;
    }
  }

  lemma NamedAfterFull(s: World, t: World, key: Key, f: FullPass, k: Key)
    requires IdsOk(s.ado) && PoolNamesDiffer(s.pools) && IdsNameDummies(s) && IdIsNew(s.pools, key, Pass.Full(f))
    requires key in s.pools && !s.pools[key].deleting && Resolves(s.pools[key].status, f.mem)
    requires t.pools == WithStatus(s.pools, key, f.FinalStatus())
    requires t.ado == RegistryAfter(f.action, s.ado, f.mem.poolID, DummyName(key.name), f.mem.dummyAgentID)
    requires f.action.Registered? ==>
      f.mem.poolID in s.ado && f.action.id !in s.ado[f.mem.poolID] && 0 < f.action.id <= INT32_MAX
    requires f.action.Recovered? ==>
      && f.mem.poolID in s.ado && f.action.id in s.ado[f.mem.poolID]
      && s.ado[f.mem.poolID][f.action.id] == DummyName(key.name)
    requires f.action.Unregistered? ==> f.mem.dummyAgentID != 0
    requires k in t.pools && t.pools[k].status.dummyAgentID != 0
    ensures var st := t.pools[k].status;
      if st.poolID in t.ado && st.dummyAgentID in t.ado[st.poolID]
      then t.ado[st.poolID][st.dummyAgentID] == DummyName(k.name)
      else t.pools[k].deleting
  {
    SameDummySamePool(s.pools, k, key);
    assert s.pools[key].status.dummyAgentID != 0 ==> s.pools[key].status.poolID in s.ado;
  }

  lemma NamedAfterTeardown(s: Sys, t: Sys, key: Key, unregistered: bool, removed: bool, k: Key)
    requires TeardownOf(s, t, key, unregistered, removed)
    requires PoolNamesDiffer(s.w.pools) && IdsNameDummies(s.w)
    requires k in t.w.pools && t.w.pools[k].status.dummyAgentID != 0
    ensures var st := t.w.pools[k].status;
      if st.poolID in t.w.ado && st.dummyAgentID in t.w.ado[st.poolID]
      then t.w.ado[st.poolID][st.dummyAgentID] == DummyName(k.name)
      else t.w.pools[k].deleting
  {
    SameDummySamePool(s.w.pools, k, key);
    assert k in s.w.pools && t.w.pools[k] == s.w.pools[k];
  }

  /** A deletion leaves no placeholder behind exactly when it unregistered it or there was none. */
  lemma TeardownLeavesNone(s: Sys, t: Sys, key: Key, unregistered: bool, removed: bool)
    requires TeardownOf(s, t, key, unregistered, removed)
    requires IdsOk(s.w.ado) && DummiesKnown(s.w)
    ensures NoneNamed(t.w.ado, DummyName(key.name)) <==> unregistered || NoneNamed(s.w.ado, DummyName(key.name))
    ensures NoFault(s, t) ==> removed && NoneNamed(t.w.ado, DummyName(key.name))
  {
    var st := s.w.pools[key].status;
    if !NoneNamed(s.w.ado, DummyName(key.name)) {
      var q :| q in s.w.ado && !NoAgent(s.w.ado, q, DummyName(key.name));
      var i :| i in s.w.ado[q] && s.w.ado[q][i] == DummyName(key.name);
      assert st.poolID == q && st.dummyAgentID == i;
    }
  }

  /** Two AgentPools of one name in different namespaces share a placeholder if they share an ADO pool: at
      target zero a pass of the second without failures takes over the agent of the first. */
  lemma SharedNameSharesDummy(s: Sys, t: Sys, k: Key, J: Azure, f: FullPass, j: Key)
    requires FullOf(s, t, k, J, f) && NoFault(s, t) && NamesUnique(s.w.ado) && IdsOk(s.w.ado)
    requires j in s.w.pools && j != k && j.name == k.name && s.w.pools[j].status.poolID == f.mem.poolID
    requires var st := s.w.pools[j].status;
      && st.poolID in s.w.ado && st.dummyAgentID in s.w.ado[st.poolID]
      && s.w.ado[st.poolID][st.dummyAgentID] == DummyName(j.name)
    requires f.Target() == 0 && f.mem.dummyAgentID == 0
    ensures j in t.w.pools && k in t.w.pools
    ensures t.w.pools[k].status.poolID == t.w.pools[j].status.poolID
    ensures t.w.pools[k].status.dummyAgentID == t.w.pools[j].status.dummyAgentID != 0
  {
    StageFaults(s, t, k, J, f);
    DummyStage(s, t, k, J, f);
    NoStatusFault(s, t, k, J, f);
    StatusAfterPass(s, t, k, J, f);
  }

  lemma NoStatusFault(s: Sys, t: Sys, key: Key, J: Azure, f: FullPass)
    requires FullOf(s, t, key, J, f) && NoFault(s, t)
    ensures f.saved && FailedLookups(f.shrunk, f.managed) == 0
  {
    assert Open(f);
  }

  /** A deletion that unregisters takes away the agent another AgentPool's status names exactly when the two
      statuses name the same agent. */
  lemma SharedNameLosesDummy(s: Sys, t: Sys, j: Key, k: Key, removed: bool)
    requires TeardownOf(s, t, j, true, removed) && k in s.w.pools && k != j
    requires var st := s.w.pools[k].status; st.poolID in s.w.ado && st.dummyAgentID in s.w.ado[st.poolID]
    ensures k in t.w.pools && t.w.pools[k] == s.w.pools[k]
    ensures var st := t.w.pools[k].status;
      (st.poolID in t.w.ado && st.dummyAgentID !in t.w.ado[st.poolID]) <==>
      s.w.pools[j].status.poolID == st.poolID && s.w.pools[j].status.dummyAgentID == st.dummyAgentID
  {
  }

  /** Before the finalizer is persisted a pass writes nothing but the finalizer. */
  lemma NothingBeforeFinalizer(s: Sys, t: Sys, key: Key, J: Azure, p: Pass)
    requires PassOf(s, t, key, J, p) && (key in s.w.pools ==> !s.w.pools[key].finalizer)
    ensures t.led.writes == s.led.writes
    ensures t.w.pods == s.w.pods && t.w.pvcs == s.w.pvcs && t.w.ado == s.w.ado
    ensures t.w.pools == s.w.pools
      || (key in s.w.pools && t.w.pools == s.w.pools[key := s.w.pools[key].(finalizer := true)])
  {
    if p.Full? {
      FullNeedsFinalizer(s, t, key, J, p.f);
    }
  }

  lemma FullNeedsFinalizer(s: Sys, t: Sys, key: Key, J: Azure, f: FullPass)
    requires FullOf(s, t, key, J, f)
    ensures key in s.w.pools && s.w.pools[key].finalizer && !s.w.pools[key].deleting && s.w.pools[key].spec == f.spec
  {
    assert Open(f);
  }

  /** After a failure-free pass at target zero ADO has the placeholder exactly if it had it before or no id
      was persisted: an id that ADO no longer knows, as a status write lost after an unregistration leaves
      behind, blocks registration for good. */
  lemma StaleIdBlocksRegistration(s: Sys, t: Sys, key: Key, J: Azure, f: FullPass)
    requires FullOf(s, t, key, J, f) && NoFault(s, t) && IdsOk(s.w.ado) && f.Target() == 0
    ensures !NoAgent(t.w.ado, f.mem.poolID, DummyName(key.name)) <==>
      f.mem.dummyAgentID == 0 || !NoAgent(s.w.ado, f.mem.poolID, DummyName(key.name))
    ensures f.mem.dummyAgentID != 0 ==> t.w.ado == s.w.ado && f.FinalStatus().dummyAgentID == f.mem.dummyAgentID
  {
    StageFaults(s, t, key, J, f);
    DummyStage(s, t, key, J, f);
    if f.mem.dummyAgentID == 0 {
      assert f.action.Registered? || f.action.Recovered?;
      assert t.w.ado[f.mem.poolID][f.action.id] == DummyName(key.name);
    }
  }

  // ----- there exactly when no agent is -----

  /** After a failure-free pass the status names a placeholder exactly when the target is zero. */
  lemma DummyFollowsTarget(s: Sys, t: Sys, key: Key, J: Azure, f: FullPass)
    requires FullOf(s, t, key, J, f) && NoFault(s, t) && IdsOk(s.w.ado) && 0 <= f.Target()
    ensures f.saved && (f.FinalStatus().dummyAgentID != 0 <==> f.Target() == 0)
  {
    StageFaults(s, t, key, J, f);
    DummyStage(s, t, key, J, f);
    assert Open(f);
  }

  /** A target of zero means an empty queue, hence no busy agent. */
  lemma ZeroTarget(spec: PoolSpec, jobs: seq<Job>)
    requires 0 <= spec.minAgents && 1 <= spec.maxAgents && |OpenJobs(jobs)| <= INT32_MAX
    ensures 0 <= Desired(spec, |OpenJobs(jobs)|)
    ensures Desired(spec, |OpenJobs(jobs)|) == 0 ==> Busy(jobs) == {}
  {
    BusyWithinPending(jobs);
  }

  /** After a pass without failures during which nothing moves, the status names a placeholder exactly when
      it reports zero agents, unless agents are wanted, none is there and some template has no free claim. */
  lemma DummyIffZero(s: Sys, t: Sys, key: Key, J: Azure, f: FullPass)
    requires FullOf(s, t, key, J, f) && Frozen(s, t) && NoFault(s, t)
    requires Distinct(f.spec.caches) && OwnLabel(key, f.spec) && IdsOk(s.w.ado)
    requires 0 <= f.spec.minAgents <= INT32_MAX && 1 <= f.spec.maxAgents <= INT32_MAX && f.jobs.pending <= INT32_MAX
    ensures key in t.w.pools
    ensures var st := t.w.pools[key].status;
      (st.dummyAgentID != 0 <==> st.activeAgents == Some(0)) <==>
      !(f.Target() > 0 && Active(s.w, key) == {} && !HasFree(Prepared(s.w, key, f.spec), key, f.spec.caches, 1))
  {
    JobsWere(s, t, key, J, f);
    var jobs := J.jobs(f.mem.poolID, f.asked);
    ZeroTarget(f.spec, jobs);
    BusyWithinPending(jobs);
    BusyActiveWithinBusy(s.w, key, f.jobs.busyAgentNames);
    DummyFollowsTarget(s, t, key, J, f);
    StatusAfterPass(s, t, key, J, f);
    TruthfulStatus(s, t, key, J, f);
    ScalingTarget(s, t, key, J, f);
    if f.Target() > 0 {
      AgentsAtLast(s, t, key, J, f);
    }
  }

  lemma JobsWere(s: Sys, t: Sys, key: Key, J: Azure, f: FullPass)
    requires FullOf(s, t, key, J, f)
    ensures f.jobs == Summary(J.jobs(f.mem.poolID, f.asked)) && s.w.now <= f.asked <= t.w.now
  {
    StageTimes(s, t, key, J, f);
    assert Open(f);
  }

  /** If agents are wanted, a failure-free pass ends with some, unless there were none and no claims. */
  lemma AgentsAtLast(s: Sys, t: Sys, key: Key, J: Azure, f: FullPass)
    requires FullOf(s, t, key, J, f) && Frozen(s, t) && NoFault(s, t) && f.Target() > 0
    requires Distinct(f.spec.caches) && OwnLabel(key, f.spec)
    ensures Active(t.w, key) == {}
      <==> Active(s.w, key) == {} && !HasFree(Prepared(s.w, key, f.spec), key, f.spec.caches, 1)
  {
    StageFaults(s, t, key, J, f);
    ActiveAfterPass(s, t, key, J, f);
    ClaimsPrepared(s, t, key, J, f);
    CreatedExactly(s, t, key, J, f);
    HowMany(s, t, key, J, f);
  }

  /** If statuses and registry agree, a failure-free pass leaves the placeholder registered in ADO exactly
      when its target is zero. */
  lemma RegisteredIffZeroTarget(s: Sys, t: Sys, key: Key, J: Azure, f: FullPass)
    requires FullOf(s, t, key, J, f) && NoFault(s, t) && IdsOk(s.w.ado) && 0 <= f.Target()
    requires PoolNamesDiffer(s.w.pools) && DummiesKnown(s.w) && IdsNameDummies(s.w)
    requires IdIsNew(s.w.pools, key, Pass.Full(f))
    ensures !NoneNamed(t.w.ado, DummyName(key.name)) <==> f.Target() == 0
  {
    NoStatusFault(s, t, key, J, f);
    DummyFollowsTarget(s, t, key, J, f);
    StatusAfterPass(s, t, key, J, f);
    AllStatusWrites(s, t, key, J, f);
    DummiesStayKnown(s, t, key, J, Pass.Full(f));
    IdsStayNamed(s, t, key, J, Pass.Full(f));
    FullNeedsFinalizer(s, t, key, J, f);
    IdsInRange(s, t, key, J, f);
    NamedIffKnown(t.w, key);
  }

  lemma AllStatusWrites(s: Sys, t: Sys, key: Key, J: Azure, f: FullPass)
    requires FullOf(s, t, key, J, f) && NoFault(s, t)
    ensures t.led.statusFaults == s.led.statusFaults
  {
    assert Open(f);
  }

  lemma IdsInRange(s: Sys, t: Sys, key: Key, J: Azure, f: FullPass)
    requires FullOf(s, t, key, J, f) && IdsOk(s.w.ado)
    ensures IdsOk(t.w.ado)
  {
    DummyStage(s, t, key, J, f);
  }

  lemma NamedIffKnown(w: World, key: Key)
    requires IdsOk(w.ado) && DummiesKnown(w) && IdsNameDummies(w) && key in w.pools && !w.pools[key].deleting
    ensures !NoneNamed(w.ado, DummyName(key.name)) <==> w.pools[key].status.dummyAgentID != 0
  {
    var st := w.pools[key].status;
    if st.dummyAgentID != 0 {
      assert w.ado[st.poolID][st.dummyAgentID] == DummyName(key.name);
      assert !NoAgent(w.ado, st.poolID, DummyName(key.name));
    }
  }

  /** So if nothing moves, ADO has the placeholder exactly when the pool reports zero agents, with the same
      exception as above. */
  lemma RegisteredIffZeroAgents(s: Sys, t: Sys, key: Key, J: Azure, f: FullPass)
    requires FullOf(s, t, key, J, f) && Frozen(s, t) && NoFault(s, t)
    requires Distinct(f.spec.caches) && OwnLabel(key, f.spec) && IdsOk(s.w.ado)
    requires 0 <= f.spec.minAgents <= INT32_MAX && 1 <= f.spec.maxAgents <= INT32_MAX && f.jobs.pending <= INT32_MAX
    requires PoolNamesDiffer(s.w.pools) && DummiesKnown(s.w) && IdsNameDummies(s.w)
    requires IdIsNew(s.w.pools, key, Pass.Full(f))
    ensures key in t.w.pools
    ensures (!NoneNamed(t.w.ado, DummyName(key.name)) <==> t.w.pools[key].status.activeAgents == Some(0)) <==>
      !(f.Target() > 0 && Active(s.w, key) == {} && !HasFree(Prepared(s.w, key, f.spec), key, f.spec.caches, 1))
  {
    DummyIffZero(s, t, key, J, f);
    JobsWere(s, t, key, J, f);
    ZeroTarget(f.spec, J.jobs(f.mem.poolID, f.asked));
    RegisteredIffZeroTarget(s, t, key, J, f);
    DummyFollowsTarget(s, t, key, J, f);
    StatusAfterPass(s, t, key, J, f);
  }
}
