/** How far a pool is from where its passes steer it: no pass increases the distance, one failure-free pass
    removes it, and at distance zero a pass changes nothing. */
module Convergence {
  import opened Base
  import opened Store
  import opened Ledgers
  import opened Clusters
  import opened Jobs
  import opened Allocator
  import opened Stages
  import opened Passes
  import opened Scaling
  import opened Invariants
  import opened Accounting
  import opened Supply
  import opened Dummies

  // ----- the distance -----

  /** Claims that are planned but do not exist. */
  function Missing(w: World, key: Key, spec: PoolSpec): set<Key> {
    PlanOf(SlotNamesOf(key), key, spec).Keys - w.pvcs.Keys
  }

  /** The number of active pods passes steer to. */
  function Goal(w: World, key: Key, spec: PoolSpec, jobs: JobStatus): int {
    Max(Desired(spec, jobs.pending), |BusyActive(w, key, jobs.busyAgentNames)|)
  }

  function Off(w: World, key: Key, spec: PoolSpec, jobs: JobStatus): nat {
    var d := |Active(w, key)| - Goal(w, key, spec, jobs);
    if d < 0 then -d else d
  }

  /** The placeholder is neither named when it should be nor absent when it should be. */
  function Mismatch(desired: int, id: int): nat {
    if (desired == 0 && id == 0) || (desired > 0 && id != 0) then 1 else 0
  }

  function JobsOf(w: World, key: Key, J: Azure): JobStatus
    requires key in w.pools
  {
    Summary(J.jobs(w.pools[key].status.poolID, w.now))
  }

  /** Missing claims, completed pods, agents too many or too few, and the placeholder. */
  function Distance(w: World, key: Key, J: Azure): nat
    requires key in w.pools
  {
    var spec, jobs := w.pools[key].spec, JobsOf(w, key, J);
    |Missing(w, key, spec)| + |Completed(w, key)| + Off(w, key, spec, jobs)
      + Mismatch(Desired(spec, jobs.pending), w.pools[key].status.dummyAgentID)
  }

  /** In use, and its ADO pool is known. */
  predicate Settled(w: World, key: Key) {
    key in w.pools && !w.pools[key].deleting && w.pools[key].status.poolID != 0 && OwnLabel(key, w.pools[key].spec)
  }

  // ----- what a pass sees -----

  /** The ADO pool is known once the pass has read it, from the status or from ADO. */
  ghost predicate Resolved(key: Key, f: FullPass) { f.mem.poolID != 0 && OwnLabel(key, f.spec) }

  /** A pass during which nothing moves leaves the pool settled, even if it is the one that persisted the
      ADO pool id. */
  lemma PassSettles(s: Sys, t: Sys, key: Key, J: Azure, f: FullPass)
    requires FullOf(s, t, key, J, f) && Frozen(s, t) && Resolved(key, f)
    ensures Settled(t.w, key) && t.w.pools[key].spec == f.spec && t.w.pools[key].status.poolID == f.mem.poolID
    ensures t.w.pools[key].status.dummyAgentID ==
      if f.saved then DummyAfter(f.action, f.mem.dummyAgentID) else f.mem.dummyAgentID
    ensures JobsOf(t.w, key, J) == f.jobs
  {
    FullNeedsFinalizer(s, t, key, J, f);
    StatusAfterPass(s, t, key, J, f);
    JobsWere(s, t, key, J, f);
  }

  /** In a pass during which nothing moves, everything is decided by the state it starts in. */
  lemma PassSees(s: Sys, t: Sys, key: Key, J: Azure, f: FullPass)
    requires FullOf(s, t, key, J, f) && Frozen(s, t) && Settled(s.w, key)
    ensures f.spec == s.w.pools[key].spec && f.mem == s.w.pools[key].status && f.jobs == JobsOf(s.w, key, J)
    ensures Resolved(key, f) && Settled(t.w, key) && t.w.pools[key].spec == f.spec
    ensures t.w.pools[key].status.poolID == f.mem.poolID && JobsOf(t.w, key, J) == f.jobs
    ensures t.w.pools[key].status.dummyAgentID ==
      if f.saved then DummyAfter(f.action, f.mem.dummyAgentID) else f.mem.dummyAgentID
  {
    FullNeedsFinalizer(s, t, key, J, f);
    StatusAfterPass(s, t, key, J, f);
    JobsWere(s, t, key, J, f);
    PassSettles(s, t, key, J, f);
  }

  /** The goal does not change under a pass, and the active pods end up between where they were and it. */
  lemma GoalStays(s: Sys, t: Sys, key: Key, J: Azure, f: FullPass)
    requires FullOf(s, t, key, J, f) && Frozen(s, t) && OwnLabel(key, f.spec)
    ensures Goal(t.w, key, f.spec, f.jobs) == Goal(s.w, key, f.spec, f.jobs)
    ensures Off(t.w, key, f.spec, f.jobs) <= Off(s.w, key, f.spec, f.jobs)
    ensures Completed(t.w, key) <= Completed(s.w, key)
  {
    ActiveAfterPass(s, t, key, J, f);
    HowMany(s, t, key, J, f);
    BetweenHereAndGoal(Active(s.w, key), f.jobs.busyAgentNames, f.Target(), f.growth.born, f.gone);
  }

  lemma BetweenHereAndGoal(a: set<Key>, busy: set<string>, target: int, born: set<Key>, gone: set<Key>)
    requires born !! a && gone <= a - BusyOf(a, busy)
    requires born != {} ==> |a| + |born| <= target
    requires gone != {} ==> |a| + |born| - |gone| >= target
    ensures var b, goal := a + born - gone, Max(target, |BusyOf(a, busy)|);
      && goal == Max(target, |BusyOf(b, busy)|)
      && (|a| <= |b| <= goal || goal <= |b| <= |a|)
  {
    var b := a + born - gone;
    CardParts(a, born, gone);
    SubsetCard(BusyOf(b, busy), b);
    SubsetCard(BusyOf(a, busy), a - gone);
    CardParts(a, {}, gone);
    if born == {} {
      assert BusyOf(b, busy) == BusyOf(a, busy);
      assert a + {} - gone == a - gone;
    }
  }

  lemma ClaimsGrow(s: Sys, t: Sys, key: Key, J: Azure, f: FullPass)
    requires FullOf(s, t, key, J, f)
    ensures t.w.pvcs.Keys == f.provisioned.w.pvcs.Keys
  {
    ClaimStages(s, t, key, J, f);
  }

  lemma DummyCloser(s: Sys, t: Sys, key: Key, J: Azure, f: FullPass)
    requires FullOf(s, t, key, J, f)
    ensures Mismatch(f.Target(), DummyAfter(f.action, f.mem.dummyAgentID)) <= Mismatch(f.Target(), f.mem.dummyAgentID)
  {
    DummyStage(s, t, key, J, f);
  }

  // ----- never further away -----

  /** Whatever calls fail, a pass during which nothing moves takes the pool no further from its goal. */
  lemma NeverFurther(s: Sys, t: Sys, key: Key, J: Azure, p: Pass)
    requires PassOf(s, t, key, J, p) && Frozen(s, t) && Settled(s.w, key)
    ensures Settled(t.w, key) && t.w.pools[key].spec == s.w.pools[key].spec
    ensures Distance(t.w, key, J) <= Distance(s.w, key, J)
  {
    match p
    case Full(f) =>
      PassSees(s, t, key, J, f);
      GoalStays(s, t, key, J, f);
      ProvisionedClaims(s, t, key, J, f);
      ClaimsGrow(s, t, key, J, f);
      DummyCloser(s, t, key, J, f);
      SubsetCard(Missing(t.w, key, f.spec), Missing(s.w, key, f.spec));
      SubsetCard(Completed(t.w, key), Completed(s.w, key));
    case Stopped(_, _, _) =>
      OnlyClaims(s.w, t.w, key, J);
    case _ =>
      OnlyClaims(s.w, t.w, key, J);
  }

  lemma OnlyClaims(w: World, v: World, key: Key, J: Azure)
    requires v.pods == w.pods && v.now == w.now && w.pvcs.Keys <= v.pvcs.Keys
    requires key in w.pools && key in v.pools
    requires v.pools[key].spec == w.pools[key].spec && v.pools[key].status == w.pools[key].status
    ensures Distance(v, key, J) <= Distance(w, key, J)
  {
    var spec, jobs := w.pools[key].spec, JobsOf(w, key, J);
    SubsetCard(Missing(v, key, spec), Missing(w, key, spec));
    assert Active(v, key) == Active(w, key) && Completed(v, key) == Completed(w, key);
    assert BusyActive(v, key, jobs.busyAgentNames) == BusyActive(w, key, jobs.busyAgentNames);
  }

  // ----- arrival -----

  /** One full pass without failures during which nothing moves, the first of an AgentPool's life included,
      reaches distance zero exactly when every template has a free claim for each missing agent. */
  lemma Arrives(s: Sys, t: Sys, key: Key, J: Azure, f: FullPass)
    requires FullOf(s, t, key, J, f) && Frozen(s, t) && NoFault(s, t) && Resolved(key, f)
    requires Distinct(f.spec.caches) && IdsOk(s.w.ado)
    ensures Settled(t.w, key)
    ensures Distance(t.w, key, J) == 0
       <==> HasFree(Prepared(s.w, key, f.spec), key, f.spec.caches, f.Target() - |Active(s.w, key)|)
  {
    PassSettles(s, t, key, J, f);
    GoalStays(s, t, key, J, f);
    ScalingTarget(s, t, key, J, f);
    NothingMissing(s, t, key, J, f);
    NothingCompleted(s, t, key, J, f);
    NoMismatch(s, t, key, J, f);
  }

  lemma NothingMissing(s: Sys, t: Sys, key: Key, J: Azure, f: FullPass)
    requires FullOf(s, t, key, J, f) && NoFault(s, t)
    ensures Missing(t.w, key, f.spec) == {}
  {
    StageFaults(s, t, key, J, f);
    ProvisionedClaims(s, t, key, J, f);
    ClaimsGrow(s, t, key, J, f);
  }

  lemma NothingCompleted(s: Sys, t: Sys, key: Key, J: Azure, f: FullPass)
    requires FullOf(s, t, key, J, f) && Frozen(s, t) && NoFault(s, t)
    ensures Completed(t.w, key) == {}
  {
    StageTimes(s, t, key, J, f);
    StageFaults(s, t, key, J, f);
    CleanStages(s, t, key, J, f);
    PodStages(s, t, key, J, f);
    Newborns(s, t, key, J, f);
    ActiveAfterPass(s, t, key, J, f);
    SnapshotSets(s.w, f.listed.w, key, f);
    forall k | k in Completed(s.w, key)
      ensures k !in Completed(t.w, key)
    {
      assert k in KeysOf(key.ns, CompletedNames(f.items));
      GoneIfSwept(f.cleaned.w, f.grown.w, t.w, key, f.growth.born, f.gone, k);
    }
  }

  lemma GoneIfSwept(cleaned: World, grown: World, t: World, key: Key, born: set<Key>, gone: set<Key>, k: Key)
    requires cleaned.now == grown.now == t.now && t.pods == grown.pods - gone
    requires grown.pods - born == cleaned.pods - born && forall b :: b in born ==> ActiveNow(grown, b)
    requires !Live(cleaned, k)
    ensures k !in Completed(t, key)
  {
    if k in grown.pods && k !in born {
      assert k in grown.pods - born;
    }
  }

  lemma NoMismatch(s: Sys, t: Sys, key: Key, J: Azure, f: FullPass)
    requires FullOf(s, t, key, J, f) && NoFault(s, t) && IdsOk(s.w.ado)
    ensures f.saved && Mismatch(f.Target(), DummyAfter(f.action, f.mem.dummyAgentID)) == 0
  {
    StageFaults(s, t, key, J, f);
    DummyStage(s, t, key, J, f);
    assert Open(f);
  }

  // ----- standing still -----

  /** At distance zero a pass makes no change, whatever calls fail; it only writes its status. */
  lemma Quiet(s: Sys, t: Sys, key: Key, J: Azure, f: FullPass)
    requires FullOf(s, t, key, J, f) && Frozen(s, t) && Settled(s.w, key) && Distance(s.w, key, J) == 0
    ensures t.led.writes == s.led.writes
    ensures t.w == s.w.(pools := t.w.pools)
    ensures f.FinalStatus() == StatusOf(s.w, key, f.jobs.pending)
    ensures t.w.pools == if f.saved then WithStatus(s.w.pools, key, f.FinalStatus()) else s.w.pools
  {
    QuietPods(s, t, key, J, f);
    QuietGrowth(s, t, key, J, f);
    StoreKept(s, t, key, J, f);
    StatusKept(s, t, key, J, f);
  }

  /** The status that tells the truth about a store, the placeholder left as it is. */
  function StatusOf(w: World, key: Key, pending: int): PoolStatus
    requires key in w.pools
  {
    w.pools[key].status.(activeAgents := Some(ToInt32(|Active(w, key)|)), pendingJobs := Some(ToInt32(pending)))
  }

  /** Nothing to clean up, nobody to create, nobody to delete. */
  lemma QuietPods(s: Sys, t: Sys, key: Key, J: Azure, f: FullPass)
    requires FullOf(s, t, key, J, f) && Frozen(s, t) && Settled(s.w, key) && Distance(s.w, key, J) == 0
    ensures CompletedNames(f.items) == {} && f.swept == {} && f.gone == {} && f.ToCreate() <= 0 && f.growth.created == 0
    ensures Missing(s.w, key, f.spec) == {} && Mismatch(f.Target(), f.mem.dummyAgentID) == 0
  {
    PassSees(s, t, key, J, f);
    NobodyCompleted(s, t, key, J, f);
    ActiveAfterPass(s, t, key, J, f);
    HowMany(s, t, key, J, f);
    IdleAndBusy(s.w, key, f.jobs.busyAgentNames);
    SubsetCard(f.gone, IdleActive(s.w, key, f.jobs.busyAgentNames));
  }

  lemma NobodyCompleted(s: Sys, t: Sys, key: Key, J: Azure, f: FullPass)
    requires FullOf(s, t, key, J, f) && Frozen(s, t) && Completed(s.w, key) == {}
    ensures CompletedNames(f.items) == {} && f.swept == {}
  {
    StageTimes(s, t, key, J, f);
    PodStages(s, t, key, J, f);
    SnapshotSets(s.w, f.listed.w, key, f);
    assert forall n :: n in CompletedNames(f.items) ==> Key(key.ns, n) in KeysOf(key.ns, CompletedNames(f.items));
  }

  /** Where nothing is wanted nothing grows. */
  lemma QuietGrowth(s: Sys, t: Sys, key: Key, J: Azure, f: FullPass)
    requires FullOf(s, t, key, J, f) && f.ToCreate() <= 0
    ensures f.grown == f.cleaned
  {
    PodCounts(s, t, key, J, f);
  }

  /** With every planned claim there and no completed pod, provisioning and cleanup change nothing. */
  lemma NothingToPrepare(s: Sys, t: Sys, key: Key, J: Azure, f: FullPass)
    requires FullOf(s, t, key, J, f) && Missing(s.w, key, f.spec) == {} && CompletedNames(f.items) == {}
    requires f.swept == {}
    ensures f.provisioned.w.pvcs == s.w.pvcs && f.freed == {}
    ensures f.cleaned.w.pvcs == s.w.pvcs && f.cleaned.w.pods == s.w.pods
  {
    ProvisionedClaims(s, t, key, J, f);
    NothingPlanned(s.w, f.provisioned.w.pvcs, key, f.spec);
    ClaimStages(s, t, key, J, f);
    assert f.freed == {};
    assert ReleaseAll(s.w.pvcs, {}) == s.w.pvcs && s.w.pods - {} == s.w.pods;
  }

  lemma NothingPlanned(w: World, p: Pvcs, key: Key, spec: PoolSpec)
    requires Missing(w, key, spec) == {} && Extended(w.pvcs, p, PlanOf(SlotNamesOf(key), key, spec))
    ensures p == w.pvcs
  {
    forall c | c in p
      ensures c in w.pvcs
    {
      assert c !in Missing(w, key, spec);
    }
  }

  /** A pass that finds nothing to prepare and keeps nothing it creates leaves the store as it is; all it
      wrote, it wrote while trying to scale up. */
  lemma StoreKept(s: Sys, t: Sys, key: Key, J: Azure, f: FullPass)
    requires FullOf(s, t, key, J, f) && Frozen(s, t)
    requires Missing(s.w, key, f.spec) == {} && CompletedNames(f.items) == {} && f.swept == {} && f.gone == {}
    requires f.grown.w.pods == f.cleaned.w.pods && f.grown.w.pvcs == f.cleaned.w.pvcs
    requires Mismatch(f.Target(), f.mem.dummyAgentID) == 0
    ensures t.w == s.w.(pools := t.w.pools) && f.action == NoAction
    ensures t.led.writes - s.led.writes == f.grown.led.writes - f.cleaned.led.writes
  {
    NothingToPrepare(s, t, key, J, f);
    StageTimes(s, t, key, J, f);
    PodStages(s, t, key, J, f);
    DummyStage(s, t, key, J, f);
    WritesAre(s, t, key, J, f);
  }

  lemma WritesAre(s: Sys, t: Sys, key: Key, J: Azure, f: FullPass)
    requires FullOf(s, t, key, J, f)
    requires f.provisioned.w.pvcs == s.w.pvcs && f.freed == {} && f.swept == {} && f.gone == {} && f.action == NoAction
    ensures t.led.writes - s.led.writes == f.grown.led.writes - f.cleaned.led.writes
  {
    assert Open(f);
  }

  /** Such a pass reports what is there. */
  lemma StatusKept(s: Sys, t: Sys, key: Key, J: Azure, f: FullPass)
    requires FullOf(s, t, key, J, f) && Frozen(s, t) && Settled(s.w, key)
    requires f.growth.created == 0 && f.gone == {} && f.action == NoAction
    ensures f.FinalStatus() == StatusOf(s.w, key, f.jobs.pending)
    ensures t.w.pools == if f.saved then WithStatus(s.w.pools, key, f.FinalStatus()) else s.w.pools
  {
    PassSees(s, t, key, J, f);
    StatusAfterPass(s, t, key, J, f);
    ActiveAfterPass(s, t, key, J, f);
    SameStatus(s.w.pools, key);
  }

  // ----- the fixpoint -----

  /** A failure-free pass that stayed short of its target used up the free claims of some template. */
  lemma ShortOfClaims(s: Sys, t: Sys, key: Key, J: Azure, f: FullPass)
    requires FullOf(s, t, key, J, f) && Frozen(s, t) && NoFault(s, t)
    requires Distinct(f.spec.caches) && OwnLabel(key, f.spec)
    requires !HasFree(Prepared(s.w, key, f.spec), key, f.spec.caches, f.Target() - |Active(s.w, key)|)
    ensures Exhausted(t.w.pvcs, key, f.spec.caches) && |Active(t.w, key)| < f.Target()
  {
    StageFaults(s, t, key, J, f);
    StageTimes(s, t, key, J, f);
    ClaimsPrepared(s, t, key, J, f);
    CreatedExactly(s, t, key, J, f);
    ActiveAfterPass(s, t, key, J, f);
    HowMany(s, t, key, J, f);
    ClaimCounts(s, t, key, J, f);
  }

  /** The next pass tries once more, in vain, and keeps no claim. */
  lemma TriesInVain(s: Sys, t: Sys, key: Key, J: Azure, f: FullPass)
    requires FullOf(s, t, key, J, f) && Frozen(s, t) && NoFault(s, t) && Distinct(f.spec.caches)
    requires Missing(s.w, key, f.spec) == {} && CompletedNames(f.items) == {} && f.swept == {}
    requires Exhausted(s.w.pvcs, key, f.spec.caches) && |Active(s.w, key)| < f.Target()
    ensures f.growth.created == 0 && f.growth.full && f.gone == {}
    ensures f.growth.born == {} && f.growth.g == map[]
  {
    StageFaults(s, t, key, J, f);
    NothingToPrepare(s, t, key, J, f);
    CreatedExactly(s, t, key, J, f);
    ActiveAfterPass(s, t, key, J, f);
    HowMany(s, t, key, J, f);
    NoReleaseFault(s, t, key, J, f);
    Releases(s, t, key, J, f);
  }

  lemma VainAttempt(s: Sys, t: Sys, key: Key, J: Azure, f: FullPass)
    requires FullOf(s, t, key, J, f) && f.growth.created == 0 && f.growth.full
    requires f.growth.born == {} && f.growth.g == map[]
    ensures f.grown.w.pods == f.cleaned.w.pods && f.grown.w.pvcs == f.cleaned.w.pvcs
    ensures WroteUnlessBare(f.cleaned, f.grown, key, f.spec.caches)
  {
    ClaimStages(s, t, key, J, f);
    assert Grant(f.cleaned.w.pvcs, map[]) == f.cleaned.w.pvcs;
    assert f.grown.w.pods - {} == f.grown.w.pods && f.cleaned.w.pods - {} == f.cleaned.w.pods;
    BareGrowth(s, t, key, J, f);
  }

  lemma BareGrowth(s: Sys, t: Sys, key: Key, J: Azure, f: FullPass)
    requires FullOf(s, t, key, J, f) && f.growth.full && f.growth.created == 0
    ensures WroteUnlessBare(f.cleaned, f.grown, key, f.spec.caches)
  {
    assert Open(f);
  }

  /** A pass after one that stayed short of claims leaves everything as it is. It assigns and rolls back
      claims in vain exactly if the first template still has a free one. */
  lemma StaysShort(s: Sys, t: Sys, key: Key, J: Azure, f: FullPass)
    requires FullOf(s, t, key, J, f) && Frozen(s, t) && NoFault(s, t) && Settled(s.w, key) && Distinct(f.spec.caches)
    requires Missing(s.w, key, f.spec) == {} && Completed(s.w, key) == {}
    requires Mismatch(f.Target(), f.mem.dummyAgentID) == 0
    requires Exhausted(s.w.pvcs, key, f.spec.caches) && |Active(s.w, key)| < f.Target()
    ensures t.w == s.w.(pools := t.w.pools)
    ensures f.FinalStatus() == StatusOf(s.w, key, f.jobs.pending)
    ensures t.w.pools == if f.saved then WithStatus(s.w.pools, key, f.FinalStatus()) else s.w.pools
    ensures |f.spec.caches| > 0 && (t.led.writes == s.led.writes <==> FreeSlots(s.w.pvcs, key, f.spec.caches[0]) == {})
  {
    NobodyCompleted(s, t, key, J, f);
    TriesInVain(s, t, key, J, f);
    VainAttempt(s, t, key, J, f);
    StoreKept(s, t, key, J, f);
    StatusKept(s, t, key, J, f);
    NothingToPrepare(s, t, key, J, f);
  }

  /** The control loop is level-triggered: after a failure-free full pass a second one, with nothing having
      moved, leaves the whole store as it is if none of its calls fail. It writes nothing exactly if the
      first pass had the claims it needed, or none is free of the template an assignment begins with. */
  lemma Fixpoint(s: Sys, t: Sys, u: Sys, key: Key, J: Azure, f: FullPass, g: FullPass)
    requires FullOf(s, t, key, J, f) && FullOf(t, u, key, J, g)
    requires Frozen(s, t) && Frozen(t, u) && NoFault(s, t) && NoFault(t, u) && Resolved(key, f)
    requires Distinct(f.spec.caches) && IdsOk(s.w.ado)
    ensures u.w == t.w
    ensures u.led.writes == t.led.writes <==>
      || HasFree(Prepared(s.w, key, f.spec), key, f.spec.caches, f.Target() - |Active(s.w, key)|)
      || (|f.spec.caches| > 0 && FreeSlots(t.w.pvcs, key, f.spec.caches[0]) == {})
  {
    PassSettles(s, t, key, J, f);
    PassSees(t, u, key, J, g);
    if HasFree(Prepared(s.w, key, f.spec), key, f.spec.caches, f.Target() - |Active(s.w, key)|) {
      Arrives(s, t, key, J, f);
      Quiet(t, u, key, J, g);
    } else {
      ShortOfClaims(s, t, key, J, f);
      NothingMissing(s, t, key, J, f);
      NothingCompleted(s, t, key, J, f);
      NoMismatch(s, t, key, J, f);
      StaysShort(t, u, key, J, g);
    }
    SecondStatus(s, t, u, key, J, f, g);
  }

  /** The second status is the first one. */
  lemma SecondStatus(s: Sys, t: Sys, u: Sys, key: Key, J: Azure, f: FullPass, g: FullPass)
    requires FullOf(s, t, key, J, f) && FullOf(t, u, key, J, g)
    requires Frozen(s, t) && NoFault(s, t) && Resolved(key, f) && IdsOk(s.w.ado)
    requires g.jobs == f.jobs && key in t.w.pools && g.FinalStatus() == StatusOf(t.w, key, g.jobs.pending)
    requires u.w.pools == if g.saved then WithStatus(t.w.pools, key, g.FinalStatus()) else t.w.pools
    ensures u.w.pools == t.w.pools
  {
    NoMismatch(s, t, key, J, f);
    TruthfulStatus(s, t, key, J, f);
    StatusAfterPass(s, t, key, J, f);
    SameStatus(t.w.pools, key);
  }

  // ----- blocked -----

  /** All planned claims exist, and all slots of some template are stranded. */
  ghost predicate Blocked(w: World, key: Key, spec: PoolSpec, cache: string) {
    cache in spec.caches && Missing(w, key, spec) == {} && Slots(w.pvcs, key, cache) <= Stranded(w, key)
  }

  /** A pass over a blocked pool creates no pod and finds no further slot, whatever calls succeed. */
  lemma BlockedPass(s: Sys, t: Sys, key: Key, J: Azure, p: Pass, spec: PoolSpec, cache: string)
    requires PassOf(s, t, key, J, p) && OwnersMount(s.w) && Blocked(s.w, key, spec, cache)
    requires key in s.w.pools ==> s.w.pools[key].spec == spec
    ensures t.w.pvcs.Keys == s.w.pvcs.Keys && Slots(t.w.pvcs, key, cache) == Slots(s.w.pvcs, key, cache)
    ensures p.Full? ==> p.f.growth.born == {} && Active(t.w, key) <= Active(s.w, key)
  {
    match p
    case Full(f) =>
      PodCounts(s, t, key, J, f);
      BlockedClaims(s, t, key, J, f, spec, cache);
      NoNewPods(s, t, key, J, f);
    case Stopped(_, _, _) =>
      NothingPlanned(s.w, t.w.pvcs, key, spec);
    case _ =>
  }

  lemma BlockedClaims(s: Sys, t: Sys, key: Key, J: Azure, f: FullPass, spec: PoolSpec, cache: string)
    requires FullOf(s, t, key, J, f) && OwnersMount(s.w) && Blocked(s.w, key, spec, cache) && f.spec == spec
    ensures t.w.pvcs.Keys == s.w.pvcs.Keys && Slots(t.w.pvcs, key, cache) == Slots(s.w.pvcs, key, cache)
    ensures f.growth.born == {}
  {
    PassMoves(s, t, key, J, Pass.Full(f));
    FreedWereHeld(s.w, t.w, MovesOf(Pass.Full(f)), key);
    ProvisionedClaims(s, t, key, J, f);
    NothingPlanned(s.w, f.provisioned.w.pvcs, key, spec);
    BlockedStages(s, t, key, J, f, cache);
  }

  lemma BlockedStages(s: Sys, t: Sys, key: Key, J: Azure, f: FullPass, cache: string)
    requires FullOf(s, t, key, J, f) && cache in f.spec.caches && f.provisioned.w.pvcs == s.w.pvcs
    requires Slots(s.w.pvcs, key, cache) <= Stranded(s.w, key) && Stranded(s.w, key) !! f.freed
    ensures t.w.pvcs.Keys == s.w.pvcs.Keys && Slots(t.w.pvcs, key, cache) == Slots(s.w.pvcs, key, cache)
    ensures f.growth.born == {}
  {
    ClaimStages(s, t, key, J, f);
    LabelsKept(s.w.pvcs, f.freed, f.growth.g, key, cache);
    NoneFree(s.w, f.cleaned.w.pvcs, key, cache, f.freed);
    NoneBorn(f.cleaned.w.pvcs, f.grown.w.pods, key, f.spec, cache, f.growth);
  }

  lemma LabelsKept(p: Pvcs, freed: set<Key>, g: map<Key, string>, key: Key, cache: string)
    ensures var q := Grant(ReleaseAll(p, freed), g);
      q.Keys == p.Keys && Slots(q, key, cache) == Slots(p, key, cache)
  {
  }

  lemma NoneFree(w: World, p: Pvcs, key: Key, cache: string, freed: set<Key>)
    requires p == ReleaseAll(w.pvcs, freed) && Slots(w.pvcs, key, cache) <= Stranded(w, key)
    requires Stranded(w, key) !! freed
    ensures FreeSlots(p, key, cache) == {}
  {
    forall c | c in Slots(w.pvcs, key, cache)
      ensures c !in FreeSlots(p, key, cache)
    {
      assert c in Stranded(w, key);
    }
  }

  /** Every new pod took a free claim of the template. */
  lemma BornTakeFree(p: Pvcs, pods: Pods, key: Key, spec: PoolSpec, cache: string, u: Growth, k: Key)
    requires cache in spec.caches && GrantsFree(p, key, spec.caches, u.g)
    requires k in pods && NewAgent(p, key, spec, k, pods[k], u.g)
    ensures cache in pods[k].claims && ClaimKey(k, pods[k], cache) in FreeSlots(p, key, cache)
  {
  }

  lemma NoneBorn(p: Pvcs, pods: Pods, key: Key, spec: PoolSpec, cache: string, u: Growth)
    requires cache in spec.caches && FreeSlots(p, key, cache) == {} && GrantsFree(p, key, spec.caches, u.g)
    requires forall k :: k in u.born ==> k in pods && NewAgent(p, key, spec, k, pods[k], u.g)
    ensures u.born == {}
  {
    forall k | k in u.born
      ensures false
    {
      BornTakeFree(p, pods, key, spec, cache, u, k);
    }
  }

  lemma NoNewPods(s: Sys, t: Sys, key: Key, J: Azure, f: FullPass)
    requires FullOf(s, t, key, J, f) && f.growth.born == {}
    ensures Active(t.w, key) <= Active(s.w, key)
  {
    StageTimes(s, t, key, J, f);
    PodStages(s, t, key, J, f);
    OnlyFewer(s.w, f.cleaned.w, f.grown.w, t.w, f.swept, f.gone, key);
  }

  lemma OnlyFewer(s: World, cleaned: World, grown: World, t: World, swept: set<Key>, gone: set<Key>, key: Key)
    requires cleaned.pods == s.pods - swept && grown.pods - {} == cleaned.pods - {} && t.pods == grown.pods - gone
    requires s.now <= t.now
    ensures Active(t, key) <= Active(s, key)
  {
    assert grown.pods - {} == grown.pods && cleaned.pods - {} == cleaned.pods;
  }
}
