/** Concrete passes in which the code does what its documentation does not say. */
module Witnesses {
  import opened Base
  import opened Naming
  import opened Store
  import opened Ledgers
  import opened Clusters
  import opened Jobs
  import opened Allocator
  import opened Stages
  import opened Passes
  import opened Scaling
  import opened Dummies
  import opened Accounting
  import opened Supply
  import opened Convergence
  import opened Runs

  /** An AgentPool without cache volumes, in use, its ADO pool known. */
  function Modest(minAgents: int, maxAgents: int): Pool {
    Pool(PoolSpec("ado", minAgents, maxAgents, [], map[]), PoolStatus(1, 0, None, None), true, false)
  }

  /** The state after a pass whose status write succeeds. */
  function Saved(key: Key, f: FullPass): Sys
    requires key in f.managed.w.pools
  {
    Sys(f.managed.w.(pools := WithStatus(f.managed.w.pools, key, f.FinalStatus())), f.managed.led)
  }

  lemma OneJob()
    ensures Summary([Job(false, None)]) == JobStatus(1, {})
  {
    assert OpenJobs([Job(false, None)]) == {0};
  }

  /** The token has been read. */
  function HasToken(s: Sys): Sys { s.(led := s.led.(tokens := s.led.tokens + 1)) }

  /** A pass up to scale-down that meets no failure, nothing that moves, and nothing to do. */
  function Uneventful(s: Sys, key: Key, J: Azure, items: seq<PodItem>): FullPass
    requires key in s.w.pools
  {
    var pool, a := s.w.pools[key], HasToken(s);
    FullPass(pool.spec, pool.status, SlotNamesOf(key), a, a, true,
             s.w.now, Summary(J.jobs(pool.status.poolID, s.w.now)), a, items,
             a, {}, {}, true, a, Growth(0, {}, map[], false), a, {}, a, NoAction, true)
  }

  lemma UneventfulStart(s: Sys, key: Key, J: Azure, items: seq<PodItem>)
    requires key in s.w.pools && s.w.pools[key].finalizer && !s.w.pools[key].deleting
    requires s.w.pools[key].spec.caches == [] && s.w.pools[key].status.poolID != 0
    requires ListsPods(items, s.w, key)
    ensures Prepares(s, key, J, Uneventful(s, key, J, items))
  {
    var f, pool := Uneventful(s, key, J, items), s.w.pools[key];
    SameStatus(s.w.pools, key);
    assert PlanOf(f.names, key, f.spec) == map[];
    assert map[] + s.w.pvcs == s.w.pvcs;
    assert Provisioning(HasToken(s), HasToken(s), key, f.spec, f.names, true);
    assert Loaded(s, HasToken(s), key, J, pool.status);
  }

  /** Cleanup and scale-up find nothing to do; scale-down does what is given. */
  lemma UneventfulScaling(s: Sys, key: Key, f: FullPass)
    requires f.listed == f.cleaned == f.grown == s && f.freed == {} && f.swept == {} && f.tidy && f.spec.caches == []
    requires f.growth == Growth(0, {}, map[], false) && CompletedNames(f.items) == {} && f.ToCreate() <= 0
    requires Shrunk(s, f.shrunk, key, ActiveItems(f.items), f.ToDelete(), f.jobs.busyAgentNames, f.gone)
    requires ShrunkExactly(s, f.shrunk, key, ActiveItems(f.items), f.ToDelete(), f.jobs.busyAgentNames, f.gone)
    requires ShrunkInOrder(s, f.shrunk, key, ActiveItems(f.items), f.ToDelete(), f.jobs.busyAgentNames, f.gone)
    ensures Scales(key, f)
  {
    CleanedNothing(s, key, false);
    GrownNothing(s, key, f.spec);
    assert Detail(f.swept) && Detail(f.growth);
  }

  // ----- a second placeholder -----

  /** An idle pass that registers its placeholder, whose status write may be lost. */
  ghost predicate Registers(s: Sys, t: Sys, key: Key, J: Azure, f: FullPass, failed: nat, id: int, saved: bool) {
    && key in s.w.pools
    && f == Uneventful(s, key, J, []).(managed := f.managed, action := Registered(id), saved := saved)
    && f.managed == Sys(s.w.(ado := RegistryAfter(f.action, s.w.ado, 1, DummyName(key.name), 0)),
         HasToken(s).led.(faults := s.led.faults + failed, lookupFaults := s.led.lookupFaults + failed,
                          writes := s.led.writes + 1))
    && t == Sys(f.managed.w.(pools := if saved then WithStatus(s.w.pools, key, f.FinalStatus()) else s.w.pools),
         if saved then f.managed.led
         else f.managed.led.(faults := f.managed.led.faults + 1, statusFaults := f.managed.led.statusFaults + 1))
  }

  lemma RegistersInPass(s: Sys, t: Sys, key: Key, J: Azure, f: FullPass, failed: nat, id: int, saved: bool)
    requires Registers(s, t, key, J, f, failed, id, saved)
    requires s.w.pools[key] == Modest(0, 1) && s.w.pods == map[] && J.jobs(1, s.w.now) == []
    requires 1 in s.w.ado && id !in s.w.ado[1] && 0 < id <= INT32_MAX
    requires failed == 0 ==> NoAgent(s.w.ado, 1, DummyName(key.name))
    ensures FullOf(s, t, key, J, f)
  {
    assert Members(s.w, key) == {};
    UneventfulStart(s, key, J, []);
    assert Prepares(s, key, J, f);
    assert OpenJobs([]) == {} && f.Target() == 0;
    ShrunkNotAtAll(HasToken(s), key, [], 0, f.jobs.busyAgentNames);
    assert Detail(f.gone);
    UneventfulScaling(HasToken(s), key, f);
    assert Managed(HasToken(s), f.managed, 1, DummyName(key.name), 0, 0, f.action);
    assert Finishes(t, key, f);
  }

  /** The placeholder is registered and its id lost with the status write. */
  lemma LosesStatus(s: Sys, key: Key, J: Azure) returns (t: Sys, f: FullPass)
    requires key in s.w.pools && s.w.pools[key] == Modest(0, 1) && s.w.pods == map[] && J.jobs(1, s.w.now) == []
    requires s.w.ado == map[1 := map[]]
    ensures FullOf(s, t, key, J, f) && !f.saved
    ensures t.w == s.w.(ado := map[1 := map[1 := DummyName(key.name)]])
  {
    var ado := map[1 := map[1 := DummyName(key.name)]];
    var m := Sys(s.w.(ado := ado), HasToken(s).led.(writes := s.led.writes + 1));
    f := Uneventful(s, key, J, []).(managed := m, action := Registered(1), saved := false);
    t := Sys(m.w, m.led.(faults := m.led.faults + 1, statusFaults := m.led.statusFaults + 1));
    assert RegistryAfter(f.action, s.w.ado, 1, DummyName(key.name), 0) == ado;
    RegistersInPass(s, t, key, J, f, 0, 1, false);
  }

  /** The look-up fails, and a second placeholder is registered. */
  lemma RegistersAgain(t: Sys, key: Key, J: Azure) returns (u: Sys, g: FullPass)
    requires key in t.w.pools && t.w.pools[key] == Modest(0, 1) && t.w.pods == map[] && J.jobs(1, t.w.now) == []
    requires t.w.ado == map[1 := map[1 := DummyName(key.name)]]
    ensures FullOf(t, u, key, J, g) && OnlyLookupFails(g) && !NamesUnique(u.w.ado)
  {
    var ado := map[1 := map[1 := DummyName(key.name), 2 := DummyName(key.name)]];
    var n := Sys(t.w.(ado := ado),
      HasToken(t).led.(faults := t.led.faults + 1, lookupFaults := t.led.lookupFaults + 1,
                       writes := t.led.writes + 1));
    g := Uneventful(t, key, J, []).(managed := n, action := Registered(2), saved := true);
    u := Sys(n.w.(pools := WithStatus(t.w.pools, key, g.FinalStatus())), n.led);
    assert RegistryAfter(g.action, t.w.ado, 1, DummyName(key.name), 0) == ado;
    RegistersInPass(t, u, key, J, g, 1, 2, true);
    assert u.w.ado[1][1] == u.w.ado[1][2];
  }

  /** A lost status write followed by a failed look-up: two passes after which ADO has two placeholders. */
  lemma FailedLookupMayDuplicate(s: Sys, key: Key, J: Azure)
    requires key in s.w.pools && s.w.pools[key] == Modest(0, 1) && s.w.pods == map[] && J.jobs(1, s.w.now) == []
    requires s.w.ado == map[1 := map[]]
    ensures IdsOk(s.w.ado) && NamesUnique(s.w.ado)
    ensures exists t, u, f, g ::
      && FullOf(s, t, key, J, f) && FullOf(t, u, key, J, g)
      && !f.saved && OnlyLookupFails(g) && NamesUnique(t.w.ado) && !NamesUnique(u.w.ado)
  {
    var t, f := LosesStatus(s, key, J);
    var u, g := RegistersAgain(t, key, J);
  }

  // ----- below the target -----

  /** Two agents, one of which somebody deletes at time 1. */
  predicate DoomedPair(w: World, pool: Key, a: Key, b: Key) {
    && a.ns == pool.ns && b.ns == pool.ns && a.name != b.name && w.now == 0
    && w.pods == map[a := Pod(pool.name, map[], Fate(None, None, false, Some(1))),
                     b := Pod(pool.name, map[], Fate(None, None, false, None))]
  }

  function Pair(a: Key, b: Key): seq<PodItem> { [PodItem(a.name, Pending), PodItem(b.name, Pending)] }

  lemma PairListed(w: World, pool: Key, a: Key, b: Key)
    requires DoomedPair(w, pool, a, b)
    ensures ListsPods(Pair(a, b), w, pool) && Active(w, pool) == {a, b}
  {
    var items := Pair(a, b);
    assert items[0].name == a.name && items[1].name == b.name;
    assert Members(w, pool) == {a, b};
  }

  lemma PairCounts(w: World, pool: Key, a: Key, b: Key)
    requires DoomedPair(w, pool, a, b)
    ensures |ActiveItems(Pair(a, b))| == |Active(w, pool)| == 2 && CompletedNames(Pair(a, b)) == {}
  {
    PairListed(w, pool, a, b);
    ListedActive(Pair(a, b), w, pool);
  }

  lemma SecondIsIdle(pool: Key, a: Key, b: Key)
    requires b.ns == pool.ns && a.name != b.name
    ensures b in KeysOf(pool.ns, ItemNames(IdleItems(ActiveItems(Pair(a, b)), {})))
  {
    var items := Pair(a, b);
    ActiveItemsAre(items);
    IdlePart(ActiveItems(items), {});
    NamesAre(pool.ns, IdleItems(ActiveItems(items), {}), b);
    assert items[1] in items;
  }

  /** One of the two is one too many; it is deleted while the other vanishes. */
  function AfterDelete(s: Sys, b: Key): Sys
    requires b in s.w.pods
  {
    Sys(s.w.(pods := s.w.pods - {b}, now := 1),
        s.led.(writes := s.led.writes + 1, kills := s.led.kills + {Kill(b, s.w.pods[b], 1)}))
  }

  lemma PairShrunk(s: Sys, pool: Key, a: Key, b: Key)
    requires DoomedPair(s.w, pool, a, b)
    ensures Shrunk(s, AfterDelete(s, b), pool, ActiveItems(Pair(a, b)), 1, {}, {b})
    ensures Active(AfterDelete(s, b).w, pool) == {}
  {
    SecondIsIdle(pool, a, b);
    assert KillsOf(s, AfterDelete(s, b), {b});
  }

  /** The first of the two is gone when its turn comes. */
  lemma PairTried(s: Sys, pool: Key, a: Key, b: Key)
    requires DoomedPair(s.w, pool, a, b)
    ensures ShrunkInOrder(s, AfterDelete(s, b), pool, ActiveItems(Pair(a, b)), 1, {}, {b})
  {
    var t, idle := AfterDelete(s, b), IdleItems(ActiveItems(Pair(a, b)), {});
    SecondIsIdle(pool, a, b);
    assert StillThere(t.w, pool, ItemNames(idle)) == {};
    CountsNone<string>();
    assert |idle| > 0;
    TriedWhole(s, t, pool, ActiveItems(Pair(a, b)), 1, {}, {b});
  }

  /** The pass between `s` and `t` in which this happens. */
  ghost predicate Undercutting(s: Sys, t: Sys, key: Key, J: Azure, a: Key, b: Key, f: FullPass) {
    && DoomedPair(s.w, key, a, b) && key in s.w.pools && s.w.pools[key] == Modest(1, 1) && J.jobs(1, 0) == []
    && f == Uneventful(s, key, J, Pair(a, b)).(shrunk := AfterDelete(HasToken(s), b), gone := {b},
                                                 managed := AfterDelete(HasToken(s), b))
    && t == f.managed.(w := f.managed.w.(pools := WithStatus(s.w.pools, key, f.FinalStatus())))
  }

  lemma UndercutScales(s: Sys, t: Sys, key: Key, J: Azure, a: Key, b: Key, f: FullPass)
    requires Undercutting(s, t, key, J, a, b, f)
    ensures Scales(key, f) && f.Target() == 1
  {
    assert OpenJobs([]) == {} && Busy([]) == {};
    PairCounts(s.w, key, a, b);
    PairShrunk(HasToken(s), key, a, b);
    PairTried(HasToken(s), key, a, b);
    UneventfulScaling(HasToken(s), key, f);
  }

  lemma UndercutInPass(s: Sys, t: Sys, key: Key, J: Azure, a: Key, b: Key, f: FullPass)
    requires Undercutting(s, t, key, J, a, b, f)
    ensures FullOf(s, t, key, J, f) && f.Target() == 1
  {
    PairListed(s.w, key, a, b);
    UneventfulStart(s, key, J, Pair(a, b));
    assert Prepares(s, key, J, f);
    UndercutScales(s, t, key, J, a, b, f);
    UndercutFinishes(s, t, key, J, a, b, f);
  }

  lemma UndercutFinishes(s: Sys, t: Sys, key: Key, J: Azure, a: Key, b: Key, f: FullPass)
    requires Undercutting(s, t, key, J, a, b, f) && f.Target() == 1
    ensures Finishes(t, key, f)
  {
  }

  lemma Undercuts(s: Sys, key: Key, J: Azure, a: Key, b: Key) returns (t: Sys, f: FullPass)
    requires DoomedPair(s.w, key, a, b) && key in s.w.pools && s.w.pools[key] == Modest(1, 1) && J.jobs(1, 0) == []
    ensures FullOf(s, t, key, J, f) && f.Target() == 1 && f.gone == {b} && f.mem.poolID == 1
    ensures t.w.pods == AfterDelete(HasToken(s), b).w.pods && t.w.now == 1 && t.led == AfterDelete(HasToken(s), b).led
  {
    var m := AfterDelete(HasToken(s), b);
    f := Uneventful(s, key, J, Pair(a, b)).(shrunk := m, gone := {b}, managed := m);
    t := Saved(key, f);
    UndercutInPass(s, t, key, J, a, b, f);
  }

  /** A pod deleted from outside between the listing and the deletions makes a pass without any failure
      undercut its target. */
  lemma OutsideDeleteUndercuts(s: Sys, key: Key, J: Azure, a: Key, b: Key)
    requires DoomedPair(s.w, key, a, b) && key in s.w.pools && s.w.pools[key] == Modest(1, 1) && J.jobs(1, 0) == []
    ensures exists t, f ::
      FullOf(s, t, key, J, f) && NoFault(s, t) && f.gone == {b} && |Active(t.w, key)| < f.Target() < |Active(s.w, key)|
  {
    var t, f := Undercuts(s, key, J, a, b);
    PairCounts(s.w, key, a, b);
    PairShrunk(HasToken(s), key, a, b);
    SameActiveNow(AfterDelete(HasToken(s), b).w, t.w, key);
  }

  /** An agent reserved by a job between the snapshot and the deletions is deleted although it is busy. */
  lemma ReservedMeanwhile(s: Sys, key: Key, J: Azure, a: Key, b: Key)
    requires DoomedPair(s.w, key, a, b) && key in s.w.pools && s.w.pools[key] == Modest(1, 1) && s.led.kills == {}
    requires J.jobs(1, 0) == [] && J.jobs(1, 1) == [Job(false, Some(b.name))]
    ensures exists t, f, x ::
      && FullOf(s, t, key, J, f) && NoFault(s, t) && x in t.led.kills && x !in s.led.kills
      && PhaseAt(x.pod.fate, x.at) == Some(Pending)
      && x.key.name in Summary(J.jobs(f.mem.poolID, x.at)).busyAgentNames
  {
    var t, f := Undercuts(s, key, J, a, b);
    var x := Kill(b, s.w.pods[b], 1);
    assert J.jobs(1, 1)[0].reservedAgent == Some(b.name);
    assert b.name in Busy(J.jobs(1, 1));
    assert x in t.led.kills;
  }

  lemma SameActiveNow(w: World, v: World, key: Key)
    requires v.pods == w.pods && v.now == w.now
    ensures Active(v, key) == Active(w, key)
  {
  }

  // ----- an id that blocks registration -----

  /** An AgentPool whose placeholder, agent 7, is registered; one job waits for its one agent, which vanishes
      at time 1, as does the job. */
  ghost predicate Awake(s: Sys, key: Key, J: Azure, k: Key) {
    && key in s.w.pools && s.w.pools[key] == Modest(0, 1).(status := PoolStatus(1, 7, None, None))
    && s.w.now == 0 && J.jobs(1, 0) == [Job(false, None)] && J.jobs(1, 1) == []
    && k.ns == key.ns && s.w.pods == map[k := Pod(key.name, map[], Fate(None, None, false, Some(1)))]
    && s.w.ado == map[1 := map[7 := DummyName(key.name)]]
  }

  /** The pass that unregisters the placeholder and loses its status write. */
  function Unregisters(s: Sys, key: Key, J: Azure, k: Key): FullPass
    requires key in s.w.pools
  {
    var m := Sys(s.w.(ado := map[1 := map[]]), HasToken(s).led.(writes := s.led.writes + 1));
    Uneventful(s, key, J, [PodItem(k.name, Pending)]).(managed := m, action := Unregistered, saved := false)
  }

  lemma LoneAgent(s: Sys, key: Key, J: Azure, k: Key)
    requires Awake(s, key, J, k)
    ensures var items := [PodItem(k.name, Pending)];
      ListsPods(items, s.w, key) && |ActiveItems(items)| == 1 && CompletedNames(items) == {}
  {
    var items := [PodItem(k.name, Pending)];
    assert items[0].name == k.name;
    assert Members(s.w, key) == {k};
    assert Active(s.w, key) == {k};
    ListedActive(items, s.w, key);
  }

  lemma UnregistersScales(s: Sys, key: Key, J: Azure, k: Key)
    requires Awake(s, key, J, k)
    ensures Scales(key, Unregisters(s, key, J, k)) && Unregisters(s, key, J, k).Target() == 1
  {
    var f := Unregisters(s, key, J, k);
    LoneAgent(s, key, J, k);
    OneJob();
    ShrunkNotAtAll(HasToken(s), key, ActiveItems(f.items), f.ToDelete(), f.jobs.busyAgentNames);
    assert Detail(f.gone);
    UneventfulScaling(HasToken(s), key, f);
  }

  lemma UnregistersFinishes(s: Sys, t: Sys, key: Key, J: Azure, k: Key)
    requires Awake(s, key, J, k) && Unregisters(s, key, J, k).Target() == 1
    requires var m := Unregisters(s, key, J, k).managed;
      t == Sys(m.w, m.led.(faults := m.led.faults + 1, statusFaults := m.led.statusFaults + 1))
    ensures Finishes(t, key, Unregisters(s, key, J, k))
  {
    assert s.w.ado[1] - {7} == map[];
    assert s.w.ado[1 := map[]] == map[1 := map[]];
  }

  lemma LosesUnregistration(s: Sys, key: Key, J: Azure, k: Key) returns (t: Sys, f: FullPass)
    requires Awake(s, key, J, k)
    ensures FullOf(s, t, key, J, f) && f.action == Unregistered && !f.saved && FailedCalls(s, t) == 1
    ensures t.w == s.w.(ado := map[1 := map[]])
  {
    f := Unregisters(s, key, J, k);
    var m := f.managed.led;
    t := Sys(f.managed.w, m.(faults := m.faults + 1, statusFaults := m.statusFaults + 1));
    LoneAgent(s, key, J, k);
    UneventfulStart(s, key, J, f.items);
    assert Prepares(s, key, J, f);
    UnregistersScales(s, key, J, k);
    UnregistersFinishes(s, t, key, J, k);
  }

  /** Nobody is left, and the id is still persisted. */
  ghost predicate Asleep(u: Sys, key: Key, J: Azure) {
    && key in u.w.pools && u.w.pools[key] == Modest(0, 1).(status := PoolStatus(1, 7, None, None))
    && Members(u.w, key) == {} && J.jobs(1, u.w.now) == [] && u.w.ado == map[1 := map[]]
  }

  lemma StaysUnregistered(u: Sys, key: Key, J: Azure) returns (v: Sys, g: FullPass)
    requires Asleep(u, key, J)
    ensures FullOf(u, v, key, J, g) && NoFault(u, v) && g.Target() == 0 && v.w.ado == u.w.ado
  {
    g := Uneventful(u, key, J, []);
    v := Saved(key, g);
    UneventfulStart(u, key, J, []);
    assert OpenJobs([]) == {} && g.Target() == 0;
    ShrunkNotAtAll(HasToken(u), key, [], 0, g.jobs.busyAgentNames);
    assert Detail(g.gone);
    UneventfulScaling(HasToken(u), key, g);
    assert Finishes(v, key, g);
  }

  /** A run in which an unregistration whose status write is lost leaves a pool at target zero without its
      placeholder, although no call of the last pass fails. */
  lemma LostUnregistrationBlocks(s: Sys, key: Key, J: Azure, k: Key)
    requires Awake(s, key, J, k)
    ensures exists t, u, v, f, g ::
      && RunOf([s, t, u, v], [Reconciled(key, Pass.Full(f)), Waited, Reconciled(key, Pass.Full(g))], J)
      && f.action == Unregistered && !f.saved && FailedCalls(s, t) == 1
      && NoFault(t, v) && g.Target() == 0 && NoneNamed(v.w.ado, DummyName(key.name))
  {
    var t, f := LosesUnregistration(s, key, J, k);
    var u := Sys(t.w.(now := 1), t.led);
    assert Members(u.w, key) == {};
    var v, g := StaysUnregistered(u, key, J);
    PassWaitPass(s, t, u, v, key, J, f, g);
  }

  lemma PassWaitPass(s: Sys, t: Sys, u: Sys, v: Sys, key: Key, J: Azure, f: FullPass, g: FullPass)
    requires FullOf(s, t, key, J, f) && Passive(t, u) && NoFault(t, u) && FullOf(u, v, key, J, g)
    ensures RunOf([s, t, u, v], [Reconciled(key, Pass.Full(f)), Waited, Reconciled(key, Pass.Full(g))], J)
  {
    var ss, steps := [s, t, u, v], [Reconciled(key, Pass.Full(f)), Waited, Reconciled(key, Pass.Full(g))];
    assert StepAt(ss, steps, J, 0);
    assert StepAt(ss, steps, J, 1);
    assert StepAt(ss, steps, J, 2);
  }

  // ----- a slot lost for good -----

  const ONE_CACHE := PoolSpec("ado", 0, 1, ["cache"], map[])

  /** An AgentPool with one cache volume, in use, its ADO pool known. */
  const CACHED := Pool(ONE_CACHE, PoolStatus(1, 0, None, None), true, false)

  /** One job is waiting, no pod exists, and the claims are these. */
  predicate Waiting(s: Sys, key: Key, J: Azure, pvcs: Pvcs) {
    && key in s.w.pools && s.w.pools[key] == CACHED.(status := s.w.pools[key].status)
    && s.w.pools[key].status.poolID == 1 && s.w.pools[key].status.dummyAgentID == 0
    && s.w.pods == map[] && s.w.pvcs == pvcs && J.jobs(1, s.w.now) == [Job(false, None)]
  }

  function OneSlot(key: Key, state: SlotState, pod: Option<string>): Pvcs {
    map[SlotKey(key, "cache", 0) := Pvc(key.name, "cache", 0, state, pod)]
  }

  lemma OneSlotPlanned(key: Key)
    ensures PlanOf(SlotNamesOf(key), key, ONE_CACHE) == OneSlot(key, Free, None)
  {
    var names := SlotNamesOf(key);
    assert ONE_CACHE.caches[..0] == [];
    assert Plan(names, key, [], 1) == map[];
    assert CachePlan(names, key, "cache", 0) == map[];
    assert CachePlan(names, key, "cache", 1) == OneSlot(key, Free, None);
  }

  /** The pass in which the slot is provisioned and assigned, and creating the pod and giving the slot back
      both fail. */
  function Fumbled(s: Sys, key: Key, pod: string): FullPass
    requires key in s.w.pools
  {
    var a := HasToken(s);
    var p := Sys(s.w.(pvcs := OneSlot(key, Free, None)), a.led.(writes := s.led.writes + 1));
    var g := Sys(s.w.(pvcs := OneSlot(key, Assigned, Some(pod))),
                 a.led.(writes := s.led.writes + 2, faults := s.led.faults + 2,
                        releaseFaults := s.led.releaseFaults + 1, named := s.led.named + 1));
    FullPass(ONE_CACHE, s.w.pools[key].status, SlotNamesOf(key), a, p, true, s.w.now, JobStatus(1, {}), p, [],
             p, {}, {}, true, g, Growth(0, {}, map[SlotKey(key, "cache", 0) := pod], false), g, {}, g, NoAction, true)
  }

  /** A pod name was chosen, and nothing came of it. */
  function Attempted(t: Sys): Sys { t.(led := t.led.(named := t.led.named + 1)) }

  /** The pass after it, which meets no failure and finds no free slot. */
  function InVain(t: Sys, key: Key): FullPass
    requires key in t.w.pools
  {
    var a := HasToken(t);
    FullPass(ONE_CACHE, t.w.pools[key].status, SlotNamesOf(key), a, a, true, t.w.now, JobStatus(1, {}), a, [],
             a, {}, {}, true, Attempted(a), Growth(0, {}, map[], true), Attempted(a), {}, Attempted(a), NoAction, true)
  }

  lemma FumbledProvisioning(s: Sys, key: Key, J: Azure, pod: string)
    requires Waiting(s, key, J, map[])
    ensures Provisioning(HasToken(s), Fumbled(s, key, pod).provisioned, key, ONE_CACHE, SlotNamesOf(key), true)
  {
    var p := OneSlot(key, Free, None);
    OneSlotPlanned(key);
    assert p + map[] == p;
    assert SlotKey(key, "cache", 0) in p.Keys;
    assert CreatesOnly(HasToken(s), Fumbled(s, key, pod).provisioned);
  }

  lemma FumbledStart(s: Sys, key: Key, J: Azure, pod: string)
    requires Waiting(s, key, J, map[])
    ensures Prepares(s, key, J, Fumbled(s, key, pod))
  {
    OneJob();
    SameStatus(s.w.pools, key);
    assert Members(Fumbled(s, key, pod).listed.w, key) == {};
    FumbledProvisioning(s, key, J, pod);
  }

  lemma FumbledGrowth(s: Sys, key: Key, J: Azure, pod: string)
    requires Waiting(s, key, J, map[])
    ensures var f := Fumbled(s, key, pod); Grown(f.cleaned, f.grown, key, f.spec, f.growth)
  {
    var f, c := Fumbled(s, key, pod), SlotKey(key, "cache", 0);
    assert Grant(f.cleaned.w.pvcs, f.growth.g) == f.grown.w.pvcs;
    assert Abandoned(f.growth.g, {}) == {c};
    CountsOne(c);
    assert GrownStore(f.cleaned, f.grown, key, f.spec, f.growth);
  }

  lemma FumbledScales(s: Sys, key: Key, J: Azure, pod: string)
    requires Waiting(s, key, J, map[])
    ensures Scales(key, Fumbled(s, key, pod))
  {
    var f := Fumbled(s, key, pod);
    FumbledGrowth(s, key, J, pod);
    CleanedNothing(f.listed, key, true);
    ShrunkNotAtAll(f.grown, key, [], f.ToDelete(), {});
    assert Detail(f.gone);
  }

  lemma FumbledFinishes(s: Sys, key: Key, J: Azure, pod: string)
    requires Waiting(s, key, J, map[])
    ensures Finishes(Saved(key, Fumbled(s, key, pod)), key, Fumbled(s, key, pod))
  {
  }

  lemma Fumbles(s: Sys, key: Key, J: Azure, pod: string) returns (t: Sys, f: FullPass)
    requires Waiting(s, key, J, map[])
    ensures FullOf(s, t, key, J, f) && FailedCalls(s, t) == 2 && Frozen(s, t) && t.led.reused == s.led.reused
    ensures Waiting(t, key, J, OneSlot(key, Assigned, Some(pod)))
  {
    f := Fumbled(s, key, pod);
    t := Saved(key, f);
    FumbledStart(s, key, J, pod);
    FumbledScales(s, key, J, pod);
    FumbledFinishes(s, key, J, pod);
  }

  lemma InVainStart(t: Sys, key: Key, J: Azure, pod: string)
    requires Waiting(t, key, J, OneSlot(key, Assigned, Some(pod)))
    ensures Prepares(t, key, J, InVain(t, key))
  {
    OneJob();
    SameStatus(t.w.pools, key);
    assert Members(t.w, key) == {};
    OnlyOnePlanned(t.w, key, ONE_CACHE, pod);
    assert Provisioning(HasToken(t), HasToken(t), key, ONE_CACHE, SlotNamesOf(key), true);
  }

  lemma InVainGrowth(t: Sys, key: Key, J: Azure, pod: string)
    requires Waiting(t, key, J, OneSlot(key, Assigned, Some(pod)))
    ensures Grown(HasToken(t), Attempted(HasToken(t)), key, ONE_CACHE, Growth(0, {}, map[], true))
    ensures WroteUnlessBare(HasToken(t), Attempted(HasToken(t)), key, ONE_CACHE.caches)
  {
    GrownNothing(HasToken(t), key, ONE_CACHE);
    assert Detail(Growth(0, {}, map[], false));
    assert "cache" in ONE_CACHE.caches && FreeSlots(t.w.pvcs, key, "cache") == {};
  }

  lemma InVainScales(t: Sys, key: Key, J: Azure, pod: string)
    requires Waiting(t, key, J, OneSlot(key, Assigned, Some(pod)))
    ensures Scales(key, InVain(t, key))
  {
    InVainGrowth(t, key, J, pod);
    CleanedNothing(HasToken(t), key, true);
    ShrunkNotAtAll(Attempted(HasToken(t)), key, [], InVain(t, key).ToDelete(), {});
    assert Detail(InVain(t, key).gone);
  }

  lemma InVainFinishes(t: Sys, key: Key, J: Azure, pod: string)
    requires Waiting(t, key, J, OneSlot(key, Assigned, Some(pod)))
    ensures Finishes(Saved(key, InVain(t, key)), key, InVain(t, key)) && InVain(t, key).Target() == 1
  {
  }

  lemma TriesAgain(t: Sys, key: Key, J: Azure, pod: string) returns (u: Sys, f: FullPass)
    requires Waiting(t, key, J, OneSlot(key, Assigned, Some(pod)))
    ensures FullOf(t, u, key, J, f) && NoFault(t, u) && Frozen(t, u) && u.led == Attempted(HasToken(t)).led
    ensures f.Target() == 1 && Active(u.w, key) == {}
  {
    f := InVain(t, key);
    u := Saved(key, f);
    InVainStart(t, key, J, pod);
    InVainScales(t, key, J, pod);
    InVainFinishes(t, key, J, pod);
  }

  lemma OneSlotBlocked(w: World, key: Key, pod: string)
    requires w.pods == map[] && w.pvcs == OneSlot(key, Assigned, Some(pod))
    ensures Inv(w) && OwnersMount(w) && OwnPods(w) && Blocked(w, key, ONE_CACHE, "cache")
  {
    StrandedSlotBlocks(w, key, ONE_CACHE, pod);
    OneSlotPlanned(key);
  }

  lemma TwoPasses(s: Sys, t: Sys, u: Sys, key: Key, J: Azure, f: FullPass, g: FullPass)
    requires FullOf(s, t, key, J, f) && FullOf(t, u, key, J, g)
    ensures RunOf([s, t, u], [Reconciled(key, Pass.Full(f)), Reconciled(key, Pass.Full(g))], J)
  {
    var ss, steps := [s, t, u], [Reconciled(key, Pass.Full(f)), Reconciled(key, Pass.Full(g))];
    assert StepAt(ss, steps, J, 0);
    assert StepAt(ss, steps, J, 1);
  }

  /** From a store without pods and claims, two failed calls in one pass, the creation of a pod and the release
      of its slot, strand the only slot of a pool. The next pass meets no failure and still creates no agent,
      though one is wanted; nor will any other (Runs.BlockedForGood). */
  lemma FailedRollbackStarves(s: Sys, key: Key, J: Azure, pod: string)
    requires Waiting(s, key, J, map[])
    ensures exists t, u, f, g ::
      && RunOf([s, t, u], [Reconciled(key, Pass.Full(f)), Reconciled(key, Pass.Full(g))], J)
      && FailedCalls(s, t) == 2 && NoFault(t, u) && Frozen(s, u) && u.led.reused == s.led.reused
      && Inv(t.w) && OwnersMount(t.w) && OwnPods(t.w) && Blocked(t.w, key, ONE_CACHE, "cache")
      && g.Target() == 1 && Active(u.w, key) == {} && u.led.writes == t.led.writes
  {
    var t, f := Fumbles(s, key, J, pod);
    var u, g := TriesAgain(t, key, J, pod);
    OneSlotBlocked(t.w, key, pod);
    TwoPasses(s, t, u, key, J, f, g);
  }
}
