/** What a pass makes of the number of agents: the target it reaches, the status it reports, the pods it
    spares. */
module Scaling {
  import opened Base
  import opened Naming
  import opened Store
  import opened Ledgers
  import opened Clusters
  import opened Jobs
  import opened Allocator
  import opened Stages
  import opened Passes

  // ----- vocabulary -----

  function Max(a: int, b: int): int { if a < b then b else a }

  /** The user's labels leave the `agentpool` label alone. */
  predicate OwnLabel(key: Key, spec: PoolSpec) { AgentLabel(key, spec) == key.name }

  /** The active pods a job snapshot names. */
  function BusyActive(w: World, pool: Key, busy: set<string>): set<Key> {
    BusyOf(Active(w, pool), busy)
  }

  function BusyOf(a: set<Key>, busy: set<string>): set<Key> {
    set k | k in a && k.name in busy
  }

  /** Every template has at least `n` free claims. */
  predicate HasFree(p: Pvcs, pool: Key, caches: seq<string>, n: int) {
    forall v :: v in caches ==> n <= |FreeSlots(p, pool, v)|
  }

  function CompletedNamesOf(w: World, pool: Key): set<string> {
    set k | k in Completed(w, pool) :: k.name
  }

  /** The claims once everything planned exists and the completed pods have given theirs back. */
  function Prepared(w: World, pool: Key, spec: PoolSpec): Pvcs {
    var p := PlanOf(SlotNamesOf(pool), pool, spec) + w.pvcs;
    if |spec.caches| == 0 then p else ReleaseAll(p, SlotsOfAny(p, pool, CompletedNamesOf(w, pool)))
  }

  // ----- stage by stage -----

  lemma StageTimes(s: Sys, t: Sys, key: Key, J: Azure, f: FullPass)
    requires FullOf(s, t, key, J, f)
    ensures s.w.now <= f.listed.w.now <= f.cleaned.w.now <= f.grown.w.now
    ensures f.grown.w.now <= f.shrunk.w.now <= f.managed.w.now <= t.w.now
    ensures f.listed.w.pods == s.w.pods && t.w.pods == f.shrunk.w.pods && t.w.pvcs == f.grown.w.pvcs
  {
    assert Open(f);
  }

  lemma StageFaults(s: Sys, t: Sys, key: Key, J: Azure, f: FullPass)
    requires FullOf(s, t, key, J, f)
    ensures s.led.faults <= f.loaded.led.faults <= f.provisioned.led.faults <= f.listed.led.faults
    ensures f.listed.led.faults <= f.cleaned.led.faults <= f.grown.led.faults
    ensures f.grown.led.faults <= f.shrunk.led.faults <= f.managed.led.faults <= t.led.faults
  {
    assert Open(f);
  }

  /** The listed completed pods are the completed pods of the pool. */
  lemma ListedCompleted(items: seq<PodItem>, w: World, pool: Key)
    requires ListsPods(items, w, pool)
    ensures KeysOf(pool.ns, CompletedNames(items)) == Completed(w, pool)
    ensures CompletedNames(items) == CompletedNamesOf(w, pool)
  {
  }

  lemma {:induction false} IdlePart(items: seq<PodItem>, busy: set<string>)
    requires DistinctNames(items)
    ensures forall x :: x in IdleItems(items, busy) <==> x in items && x.name !in busy
    ensures DistinctNames(IdleItems(items, busy))
  {
    if items != [] {
      var n := |items| - 1;
      IdlePart(items[..n], busy);
      assert items == items[..n] + [items[n]];
      var idle := IdleItems(items[..n], busy);
      forall a | 0 <= a < |idle|
        ensures idle[a].name != items[n].name
      {
        assert idle[a] in items[..n];
      }
    }
  }

  function IdleActive(w: World, pool: Key, busy: set<string>): set<Key> {
    Active(w, pool) - BusyActive(w, pool, busy)
  }

  lemma IdleAndBusy(w: World, pool: Key, busy: set<string>)
    ensures |IdleActive(w, pool, busy)| == |Active(w, pool)| - |BusyActive(w, pool, busy)|
  {
  }

  /** The listed pods scale-down may delete are the active pods that are not busy. */
  lemma ListedIdle(items: seq<PodItem>, w: World, pool: Key, busy: set<string>)
    requires ListsPods(items, w, pool)
    ensures var idle := IdleItems(ActiveItems(items), busy);
      && KeysOf(pool.ns, ItemNames(idle)) == Active(w, pool) - BusyActive(w, pool, busy)
      && |idle| == |Active(w, pool)| - |BusyActive(w, pool, busy)|
  {
    var act := ActiveItems(items);
    var idle := IdleItems(act, busy);
    ListedActive(items, w, pool);
    IdlePart(act, busy);
    CountNames(pool.ns, idle);
    forall k
      ensures k in KeysOf(pool.ns, ItemNames(idle)) <==> k in Active(w, pool) && k.name !in busy
    {
      NamesAre(pool.ns, idle, k);
      NamesAre(pool.ns, act, k);
    }
    assert KeysOf(pool.ns, ItemNames(idle)) == Active(w, pool) - BusyActive(w, pool, busy);
    IdleAndBusy(w, pool, busy);
  }

  /** Deleting completed pods. */
  lemma ActiveAfterSweep(w: World, v: World, key: Key, swept: set<Key>)
    requires v.pods == w.pods - swept && v.now == w.now && swept <= Completed(w, key)
    ensures Active(v, key) == Active(w, key) && Completed(v, key) <= Completed(w, key)
  {
  }

  /** Adding the pending pods `born`; they are not the pool's when their label is another's. */
  lemma ActiveAfterGrowth(w: World, v: World, key: Key, poolLabel: string, born: set<Key>)
    requires v.now == w.now && v.pods - born == w.pods - born && born <= v.pods.Keys
    requires forall k :: k in born ==> !Live(w, k) && ActiveNow(v, k) && k.ns == key.ns && v.pods[k].pool == poolLabel
    ensures Active(v, key) == Active(w, key) + (if poolLabel == key.name then born else {})
    ensures Completed(v, key) == Completed(w, key) && born !! Active(w, key)
  {
    forall k | k !in born
      ensures k in w.pods <==> k in v.pods
      ensures k in w.pods ==> w.pods[k] == v.pods[k]
    {
      assert k in w.pods - born <==> k in w.pods;
      assert k in v.pods - born <==> k in v.pods;
    }
  }

  /** What scale-up and scale-down did to the pods, in short. */
  lemma PodStages(s: Sys, t: Sys, key: Key, J: Azure, f: FullPass)
    requires FullOf(s, t, key, J, f)
    ensures f.cleaned.w.pods == s.w.pods - f.swept && f.swept <= KeysOf(key.ns, CompletedNames(f.items))
    ensures f.grown.w.pods - f.growth.born == f.cleaned.w.pods - f.growth.born && f.growth.born <= f.grown.w.pods.Keys
    ensures t.w.pods == f.grown.w.pods - f.gone
    ensures f.gone <= KeysOf(key.ns, ItemNames(IdleItems(ActiveItems(f.items), f.jobs.busyAgentNames)))
    ensures ListsPods(f.items, f.listed.w, key) && f.listed.w.pods == s.w.pods
  {
    assert Open(f);
  }

  lemma Newborns(s: Sys, t: Sys, key: Key, J: Azure, f: FullPass)
    requires FullOf(s, t, key, J, f)
    ensures forall k :: k in f.growth.born ==>
      k in f.grown.w.pods && k.ns == key.ns && f.grown.w.pods[k].pool == AgentLabel(key, f.spec)
    ensures |f.growth.born| <= f.growth.created
    ensures forall k :: k in f.growth.born ==> !Live(f.cleaned.w.(now := f.grown.w.now), k)
    ensures Frozen(f.cleaned, f.grown) ==> |f.growth.born| == f.growth.created
    ensures Frozen(f.cleaned, f.grown) ==>
      forall k :: k in f.growth.born ==> !Live(f.cleaned.w, k) && ActiveNow(f.grown.w, k)
  {
    assert Open(f);
    forall k | k in f.growth.born
      ensures k in f.grown.w.pods && k.ns == key.ns && f.grown.w.pods[k].pool == AgentLabel(key, f.spec)
    {
      assert NewAgent(f.cleaned.w.pvcs, key, f.spec, k, f.grown.w.pods[k], f.growth.g);
    }
  }

  /** The active pods after a pass during which nothing moved. */
  lemma ActiveAfterPass(s: Sys, t: Sys, key: Key, J: Azure, f: FullPass)
    requires FullOf(s, t, key, J, f) && Frozen(s, t)
    ensures f.gone <= Active(s.w, key) - BusyActive(s.w, key, f.jobs.busyAgentNames)
    ensures var born := if OwnLabel(key, f.spec) then f.growth.born else {};
      && born !! Active(s.w, key) && |f.growth.born| == f.growth.created
      && Active(t.w, key) == Active(s.w, key) + born - f.gone
      && |Active(t.w, key)| == |Active(s.w, key)| + |born| - |f.gone|
    ensures f.ActiveCount() == |Active(s.w, key)|
    ensures Completed(t.w, key) <= Completed(s.w, key)
  {
    StageTimes(s, t, key, J, f);
    PodStages(s, t, key, J, f);
    Newborns(s, t, key, J, f);
    SnapshotSets(s.w, f.listed.w, key, f);
    ActiveAfterStages(s.w, f.cleaned.w, f.grown.w, t.w, key, AgentLabel(key, f.spec), f.swept, f.growth.born, f.gone);
  }

  lemma ActiveAfterStages(s: World, cleaned: World, grown: World, t: World, key: Key, poolLabel: string,
                          swept: set<Key>, born: set<Key>, gone: set<Key>)
    requires s.now == cleaned.now == grown.now == t.now
    requires cleaned.pods == s.pods - swept && swept <= Completed(s, key)
    requires grown.pods - born == cleaned.pods - born && born <= grown.pods.Keys
    requires forall k :: k in born ==>
      !Live(cleaned, k) && ActiveNow(grown, k) && k.ns == key.ns && grown.pods[k].pool == poolLabel
    requires t.pods == grown.pods - gone && gone <= Active(s, key)
    ensures var own := if poolLabel == key.name then born else {};
      && own !! Active(s, key)
      && Active(t, key) == Active(s, key) + own - gone
      && |Active(t, key)| == |Active(s, key)| + |own| - |gone|
    ensures Completed(t, key) <= Completed(s, key)
  {
    ActiveAfterSweep(s, cleaned, key, swept);
    ActiveAfterGrowth(cleaned, grown, key, poolLabel, born);
    ActiveAfterDeletes(grown, t, key, gone);
    CardParts(Active(s, key), if poolLabel == key.name then born else {}, gone);
  }

  lemma ActiveAfterDeletes(w: World, v: World, key: Key, gone: set<Key>)
    requires v.pods == w.pods - gone && v.now == w.now
    ensures Active(v, key) == Active(w, key) - gone && Completed(v, key) <= Completed(w, key)
  {
  }

  /** What was listed is what there was. */
  lemma SnapshotSets(s: World, listed: World, key: Key, f: FullPass)
    requires ListsPods(f.items, listed, key) && listed.pods == s.pods && listed.now == s.now
    ensures f.ActiveCount() == |Active(s, key)|
    ensures KeysOf(key.ns, CompletedNames(f.items)) == Completed(s, key)
    ensures KeysOf(key.ns, ItemNames(IdleItems(ActiveItems(f.items), f.jobs.busyAgentNames)))
         == Active(s, key) - BusyActive(s, key, f.jobs.busyAgentNames)
  {
    assert Active(listed, key) == Active(s, key) && Completed(listed, key) == Completed(s, key);
    assert BusyActive(listed, key, f.jobs.busyAgentNames) == BusyActive(s, key, f.jobs.busyAgentNames);
    ListedActive(f.items, listed, key);
    ListedIdle(f.items, listed, key, f.jobs.busyAgentNames);
    ListedCompleted(f.items, listed, key);
  }

  lemma CardParts<T>(a: set<T>, b: set<T>, d: set<T>)
    requires a !! b && d <= a
    ensures |a + b - d| == |a| + |b| - |d|
  {
  }

  // ----- how many -----

  lemma HowMany(s: Sys, t: Sys, key: Key, J: Azure, f: FullPass)
    requires FullOf(s, t, key, J, f)
    ensures f.growth.created <= (if f.ToCreate() > 0 then f.ToCreate() else 0)
    ensures |f.gone| <= (if f.ToDelete() > 0 then f.ToDelete() else 0)
    ensures f.growth.full ==> f.growth.created < f.ToCreate()
    ensures f.growth.created < f.ToCreate() ==> f.growth.full || !NoFault(f.cleaned, f.grown)
  {
    assert Open(f);
  }

  lemma HowManyDeleted(s: Sys, t: Sys, key: Key, J: Azure, f: FullPass)
    requires FullOf(s, t, key, J, f)
    ensures ShrunkExactly(f.grown, f.shrunk, key, ActiveItems(f.items), f.ToDelete(), f.jobs.busyAgentNames, f.gone)
  {
    assert Open(f);
  }

  lemma ClaimCounts(s: Sys, t: Sys, key: Key, J: Azure, f: FullPass)
    requires FullOf(s, t, key, J, f) && Distinct(f.spec.caches)
    ensures f.grown.led.releaseFaults == f.cleaned.led.releaseFaults ==> forall v :: v in f.spec.caches ==>
      |FreeSlots(f.grown.w.pvcs, key, v)| == |FreeSlots(f.cleaned.w.pvcs, key, v)| - f.growth.created
    ensures f.growth.full ==> Exhausted(f.grown.w.pvcs, key, f.spec.caches)
    ensures NoFault(f.cleaned, f.grown) ==> f.grown.led.releaseFaults == f.cleaned.led.releaseFaults
  {
    assert Open(f);
  }

  /** Scale-up creates as many pods as are wanted or as there are claims for. */
  lemma CreatedExactly(s: Sys, t: Sys, key: Key, J: Azure, f: FullPass)
    requires FullOf(s, t, key, J, f) && NoFault(f.cleaned, f.grown) && Distinct(f.spec.caches)
    ensures HasFree(f.cleaned.w.pvcs, key, f.spec.caches, f.growth.created)
    ensures f.growth.created >= f.ToCreate() <==> HasFree(f.cleaned.w.pvcs, key, f.spec.caches, f.ToCreate())
    ensures f.growth.created < f.ToCreate() ==> !HasFree(f.cleaned.w.pvcs, key, f.spec.caches, f.growth.created + 1)
  {
    HowMany(s, t, key, J, f);
    ClaimCounts(s, t, key, J, f);
    if f.growth.full {
      var v :| v in f.spec.caches && FreeSlots(f.grown.w.pvcs, key, v) == {};
      assert |FreeSlots(f.cleaned.w.pvcs, key, v)| == f.growth.created;
    }
  }

  /** With nothing moving and nothing failing, cleanup and provisioning leave exactly the prepared claims. */
  lemma ClaimsPrepared(s: Sys, t: Sys, key: Key, J: Azure, f: FullPass)
    requires FullOf(s, t, key, J, f) && Frozen(s, t) && NoFault(s, t)
    ensures f.cleaned.w.pvcs == Prepared(s.w, key, f.spec)
  {
    StageTimes(s, t, key, J, f);
    StageFaults(s, t, key, J, f);
    CleanStages(s, t, key, J, f);
    ListedCompleted(f.items, f.listed.w, key);
    SameCompleted(s.w, f.listed.w, key);
    PreparedIs(s.w, key, f.spec, f.listed.w.pvcs, f.freed);
  }

  lemma SameCompleted(w: World, v: World, key: Key)
    requires v.pods == w.pods && v.now == w.now
    ensures CompletedNamesOf(v, key) == CompletedNamesOf(w, key)
  {
    assert Completed(v, key) == Completed(w, key);
  }

  lemma PreparedIs(w: World, key: Key, spec: PoolSpec, p: Pvcs, freed: set<Key>)
    requires p == PlanOf(SlotNamesOf(key), key, spec) + w.pvcs
    requires freed == if |spec.caches| == 0 then {} else SlotsOfAny(p, key, CompletedNamesOf(w, key))
    ensures ReleaseAll(p, freed) == Prepared(w, key, spec)
  {
    assert ReleaseAll(p, {}) == p;
  }

  lemma CleanStages(s: Sys, t: Sys, key: Key, J: Azure, f: FullPass)
    requires FullOf(s, t, key, J, f)
    ensures NoFault(f.loaded, f.provisioned) ==> f.listed.w.pvcs == PlanOf(SlotNamesOf(key), key, f.spec) + s.w.pvcs
    ensures f.cleaned.w.pvcs == ReleaseAll(f.listed.w.pvcs, f.freed)
    ensures |f.spec.caches| == 0 ==> f.freed == {}
    ensures |f.spec.caches| > 0 && NoFault(f.listed, f.cleaned) ==>
      f.freed == SlotsOfAny(f.listed.w.pvcs, key, CompletedNames(f.items))
    ensures NoFault(f.listed, f.cleaned) ==>
      forall n :: n in CompletedNames(f.items) ==> !Live(f.cleaned.w, Key(key.ns, n))
    ensures ListsPods(f.items, f.listed.w, key)
  {
    assert Open(f);
    NoneThere(f.cleaned.w, key, CompletedNames(f.items), OtherFaults(f.listed, f.cleaned));
  }

  lemma NoneThere(w: World, pool: Key, names: set<string>, n: int)
    ensures Within(StillThere(w, pool, names), n) && n <= 0 ==> forall m :: m in names ==> !Live(w, Key(pool.ns, m))
  {
    Counted(StillThere(w, pool, names), n);
    if Within(StillThere(w, pool, names), n) && n <= 0 {
      assert forall m :: m in names ==> m !in StillThere(w, pool, names);
    }
  }

  /** If nothing moves, scale-down deletes as many pods as are too many, or as are idle and could be deleted:
      a delete that fails does not keep it from the next pod. */
  lemma DeletedExactly(s: Sys, t: Sys, key: Key, J: Azure, f: FullPass)
    requires FullOf(s, t, key, J, f) && Frozen(s, t)
    ensures var idle := |IdleActive(s.w, key, f.jobs.busyAgentNames)|;
      && 0 <= FailedCalls(f.grown, f.shrunk) <= idle
      && |f.gone| == AtMost(idle - FailedCalls(f.grown, f.shrunk), f.ToDelete())
  {
    StageTimes(s, t, key, J, f);
    HowManyDeleted(s, t, key, J, f);
    TriedAreThere(s, t, key, J, f);
  }

  lemma TriedAreThere(s: Sys, t: Sys, key: Key, J: Azure, f: FullPass)
    requires FullOf(s, t, key, J, f) && Frozen(s, t)
    ensures AllLive(f.grown.w, key, ActiveItems(f.items))
    ensures |IdleItems(ActiveItems(f.items), f.jobs.busyAgentNames)| == |IdleActive(s.w, key, f.jobs.busyAgentNames)|
  {
    StageTimes(s, t, key, J, f);
    PodStages(s, t, key, J, f);
    Newborns(s, t, key, J, f);
    ListedStay(s.w, f.listed.w, f.cleaned.w, f.grown.w, key, f);
    IdleListed(s.w, f.listed.w, key, f);
  }

  lemma IdleListed(s: World, listed: World, key: Key, f: FullPass)
    requires ListsPods(f.items, listed, key) && listed.pods == s.pods && listed.now == s.now
    ensures |IdleItems(ActiveItems(f.items), f.jobs.busyAgentNames)| == |IdleActive(s, key, f.jobs.busyAgentNames)|
  {
    ListedIdle(f.items, listed, key, f.jobs.busyAgentNames);
    assert IdleActive(listed, key, f.jobs.busyAgentNames) == IdleActive(s, key, f.jobs.busyAgentNames);
    IdleAndBusy(listed, key, f.jobs.busyAgentNames);
  }

  // ----- what scale-up and scale-down do after a failure -----

  /** Scale-up ends with the first attempt that creates no pod: it makes one attempt for each pod it creates, and
      one more exactly if it stays short. But for the releases of its rollback at most one call failed in that
      one, and none did if it ended for want of a free claim. */
  lemma OneFailedAttempt(s: Sys, t: Sys, key: Key, J: Azure, f: FullPass)
    requires FullOf(s, t, key, J, f)
    ensures NamesTried(f.cleaned, f.grown) == f.growth.created + (if f.growth.created < f.ToCreate() then 1 else 0)
    ensures OtherFaults(f.cleaned, f.grown) == if f.growth.created < f.ToCreate() && !f.growth.full then 1 else 0
  {
    assert Open(f);
  }

  /** The listed idle pods that still exist. */
  ghost function IdleLeft(w: World, v: World, pool: Key, busy: set<string>): set<Key> {
    set k | k in IdleActive(w, pool, busy) && Live(v, k)
  }

  lemma DeletesInOrder(s: Sys, t: Sys, key: Key, J: Azure, f: FullPass) returns (n: nat)
    requires FullOf(s, t, key, J, f)
    ensures n <= |ActiveItems(f.items)|
    ensures Tries(f.grown, f.shrunk, key, ActiveItems(f.items), n, f.ToDelete(), f.jobs.busyAgentNames, f.gone)
    ensures ListsPods(f.items, f.listed.w, key)
  {
    assert Open(f);
    n :| n <= |ActiveItems(f.items)|
      && Tries(f.grown, f.shrunk, key, ActiveItems(f.items), n, f.ToDelete(), f.jobs.busyAgentNames, f.gone);
  }

  /** Whatever moves and whatever fails: if scale-down deleted fewer pods than it should, it tried all idle ones,
      and those that are left are no more than the deletes that failed. */
  lemma EveryIdleTried(s: Sys, t: Sys, key: Key, J: Azure, f: FullPass)
    requires FullOf(s, t, key, J, f)
    ensures |f.gone| < f.ToDelete() ==>
      |IdleLeft(f.listed.w, f.shrunk.w, key, f.jobs.busyAgentNames)| <= FailedCalls(f.grown, f.shrunk)
    ensures 0 <= FailedCalls(f.grown, f.shrunk) <= |IdleActive(f.listed.w, key, f.jobs.busyAgentNames)| - |f.gone|
  {
    var busy, act := f.jobs.busyAgentNames, ActiveItems(f.items);
    var n := DeletesInOrder(s, t, key, J, f);
    IdlePrefix(act, n, busy);
    ListedIdle(f.items, f.listed.w, key, busy);
    IdleAndBusy(f.listed.w, key, busy);
    StageFaults(s, t, key, J, f);
    if |f.gone| < f.ToDelete() {
      assert act[..n] == act;
      LeftAreThere(f.listed.w, f.shrunk.w, key, busy, ItemNames(IdleItems(act, busy)), FailedCalls(f.grown, f.shrunk));
    }
  }

  lemma LeftAreThere(w: World, v: World, key: Key, busy: set<string>, names: set<string>, n: int)
    requires KeysOf(key.ns, names) == IdleActive(w, key, busy) && Within(StillThere(v, key, names), n)
    ensures |IdleLeft(w, v, key, busy)| <= n
  {
    Counted(StillThere(v, key, names), n);
    forall k | k in IdleLeft(w, v, key, busy)
      ensures k.ns == key.ns && k.name in StillThere(v, key, names)
    {
      assert k in KeysOf(key.ns, names);
    }
    InjectionCard(IdleLeft(w, v, key, busy), StillThere(v, key, names), (k: Key) => k.name);
  }

  lemma {:induction false} IdleItemsGrow(items: seq<PodItem>, n: nat, busy: set<string>)
    requires n <= |items|
    ensures IdleItems(items[..n], busy) <= IdleItems(items, busy)
    decreases |items| - n
  {
    if n == |items| {
      assert items[..n] == items;
    } else {
      IdleItemsGrow(items, n + 1, busy);
      IdleStep(items, n, busy);
    }
  }

  /** The idle pods are tried in the order of the listing: unless a delete failed, none of those before one that
      was deleted is left. */
  lemma FirstIdleFirst(s: Sys, t: Sys, key: Key, J: Azure, f: FullPass, i: nat, j: nat)
    requires FullOf(s, t, key, J, f) && FailedCalls(f.grown, f.shrunk) == 0
    requires i < j < |IdleItems(ActiveItems(f.items), f.jobs.busyAgentNames)|
    requires ItemKey(key, IdleItems(ActiveItems(f.items), f.jobs.busyAgentNames)[j]) in f.gone
    ensures !Live(f.shrunk.w, ItemKey(key, IdleItems(ActiveItems(f.items), f.jobs.busyAgentNames)[i]))
  {
    var busy, act := f.jobs.busyAgentNames, ActiveItems(f.items);
    var n := DeletesInOrder(s, t, key, J, f);
    ListedActive(f.items, f.listed.w, key);
    IdlePart(act, busy);
    IdleItemsGrow(act, n, busy);
    var idle, tried := IdleItems(act, busy), IdleItems(act[..n], busy);
    assert ItemKey(key, idle[j]).name in ItemNames(tried);
    var m :| 0 <= m < |tried| && tried[m].name == idle[j].name;
    assert m == j && tried[i] == idle[i];
    NoneThere(f.shrunk.w, key, ItemNames(tried), 0);
    assert idle[i].name in ItemNames(tried);
  }

  /** New pods bear the names of agents, never that of a placeholder. */
  lemma BornAreAgents(s: Sys, t: Sys, key: Key, J: Azure, f: FullPass, k: Key)
    requires FullOf(s, t, key, J, f) && k in f.growth.born
    ensures k.ns == key.ns && exists x :: IsSuffix(x) && k.name == PodName(key.name, x)
    ensures !IsDummyName(k.name)
  {
    NewPodNamed(s, t, key, J, f, k);
    var x :| IsSuffix(x) && k.name == PodName(key.name, x);
    PodNameIsNotDummy(key.name, x);
  }

  lemma NewPodNamed(s: Sys, t: Sys, key: Key, J: Azure, f: FullPass, k: Key)
    requires FullOf(s, t, key, J, f) && k in f.growth.born
    ensures k.ns == key.ns && exists x :: IsSuffix(x) && k.name == PodName(key.name, x)
  {
    assert Open(f);
    assert NewAgent(f.cleaned.w.pvcs, key, f.spec, k, f.grown.w.pods[k], f.growth.g);
    assert Detail(k.name);
  }

  /** Without failing deletes: the lesser of surplus and idle pods. */
  lemma DeletedWithoutFault(s: Sys, t: Sys, key: Key, J: Azure, f: FullPass)
    requires FullOf(s, t, key, J, f) && Frozen(s, t) && NoFault(f.grown, f.shrunk)
    ensures |f.gone| == AtMost(|IdleActive(s.w, key, f.jobs.busyAgentNames)|, f.ToDelete())
  {
    DeletedExactly(s, t, key, J, f);
  }

  /** The listed active pods are still there when scale-down begins. */
  lemma ListedStay(s: World, listed: World, cleaned: World, grown: World, key: Key, f: FullPass)
    requires s.now == listed.now == cleaned.now == grown.now
    requires ListsPods(f.items, listed, key) && listed.pods == s.pods
    requires cleaned.pods == s.pods - f.swept && f.swept <= KeysOf(key.ns, CompletedNames(f.items))
    requires grown.pods - f.growth.born == cleaned.pods - f.growth.born && f.growth.born <= grown.pods.Keys
    requires forall k :: k in f.growth.born ==>
      !Live(cleaned, k) && ActiveNow(grown, k) && k.ns == key.ns && grown.pods[k].pool == AgentLabel(key, f.spec)
    ensures AllLive(grown, key, ActiveItems(f.items))
  {
    SnapshotSets(s, listed, key, f);
    ActiveAfterSweep(s, cleaned, key, f.swept);
    ActiveAfterGrowth(cleaned, grown, key, AgentLabel(key, f.spec), f.growth.born);
    assert Active(listed, key) == Active(s, key);
    ListedStillLive(f.items, listed, grown, key);
  }

  lemma ListedStillLive(items: seq<PodItem>, w: World, v: World, key: Key)
    requires ListsPods(items, w, key) && Active(w, key) <= Active(v, key)
    ensures AllLive(v, key, ActiveItems(items))
  {
    var act := ActiveItems(items);
    ListedActive(items, w, key);
    forall i | 0 <= i < |act|
      ensures Live(v, ItemKey(key, act[i]))
    {
      assert act[i].name in ItemNames(act);
      assert ItemKey(key, act[i]) in Active(w, key);
    }
  }

  // ----- the scaling target -----

  /** A pass during which nothing moves and no call fails steers the number of active pods to the target,
      or to the number of busy ones if that is larger, exactly when every template has a free claim for
      each missing agent. */
  lemma ScalingTarget(s: Sys, t: Sys, key: Key, J: Azure, f: FullPass)
    requires FullOf(s, t, key, J, f) && Frozen(s, t) && NoFault(s, t)
    requires Distinct(f.spec.caches) && OwnLabel(key, f.spec)
    ensures |Active(t.w, key)| == Max(f.Target(), |BusyActive(s.w, key, f.jobs.busyAgentNames)|)
       <==> HasFree(Prepared(s.w, key, f.spec), key, f.spec.caches, f.Target() - |Active(s.w, key)|)
    ensures |Active(t.w, key)| <= Max(f.Target(), |BusyActive(s.w, key, f.jobs.busyAgentNames)|)
  {
    ClaimsPrepared(s, t, key, J, f);
    ActiveCounts(s, t, key, J, f);
    CreatedCount(s, t, key, J, f);
    DeletedCount(s, t, key, J, f);
    TargetOrBusy(|Active(s.w, key)|, |Active(t.w, key)|, f.growth.created, |f.gone|, f.Target(),
                 |BusyActive(s.w, key, f.jobs.busyAgentNames)|,
                 HasFree(f.cleaned.w.pvcs, key, f.spec.caches, f.ToCreate()));
  }

  lemma ActiveCounts(s: Sys, t: Sys, key: Key, J: Azure, f: FullPass)
    requires FullOf(s, t, key, J, f) && Frozen(s, t) && OwnLabel(key, f.spec)
    ensures f.ActiveCount() == |Active(s.w, key)|
    ensures |Active(t.w, key)| == |Active(s.w, key)| + f.growth.created - |f.gone|
  {
    ActiveAfterPass(s, t, key, J, f);
  }

  lemma CreatedCount(s: Sys, t: Sys, key: Key, J: Azure, f: FullPass)
    requires FullOf(s, t, key, J, f) && NoFault(s, t) && Distinct(f.spec.caches)
    ensures f.growth.created <= Max(f.ToCreate(), 0)
    ensures f.growth.created >= f.ToCreate() <==> HasFree(f.cleaned.w.pvcs, key, f.spec.caches, f.ToCreate())
  {
    StageFaults(s, t, key, J, f);
    HowMany(s, t, key, J, f);
    CreatedExactly(s, t, key, J, f);
  }

  lemma DeletedCount(s: Sys, t: Sys, key: Key, J: Azure, f: FullPass)
    requires FullOf(s, t, key, J, f) && Frozen(s, t) && NoFault(s, t)
    ensures var busy := |BusyActive(s.w, key, f.jobs.busyAgentNames)|;
      busy <= |Active(s.w, key)| && |f.gone| == AtMost(|Active(s.w, key)| - busy, f.ToDelete())
  {
    StageFaults(s, t, key, J, f);
    DeletedWithoutFault(s, t, key, J, f);
    IdleAndBusy(s.w, key, f.jobs.busyAgentNames);
  }

  lemma TargetOrBusy(before: nat, after: int, created: nat, gone: nat, target: int, busy: nat, enough: bool)
    requires after == before + created - gone && created <= Max(target - before, 0) && busy <= before
    requires (created >= target - before <==> enough) && gone == AtMost(before - busy, before + created - target)
    ensures after == Max(target, busy) <==> enough
    ensures after <= Max(target, busy)
  {
  }

  /** The target by the queue the pass saw. */
  lemma TargetByQueue(s: Sys, t: Sys, key: Key, J: Azure, f: FullPass)
    requires FullOf(s, t, key, J, f) && f.spec.minAgents <= f.spec.maxAgents
    ensures s.w.now <= f.asked <= t.w.now
    ensures var n := |OpenJobs(J.jobs(f.mem.poolID, f.asked))|;
      n <= INT32_MAX ==>
        && (n <= f.spec.minAgents ==> f.Target() == f.spec.minAgents)
        && (n >= f.spec.maxAgents ==> f.Target() == f.spec.maxAgents)
        && (f.spec.minAgents <= n <= f.spec.maxAgents ==> f.Target() == n)
  {
    assert Open(f);
    if f.jobs.pending <= INT32_MAX {
      DesiredByQueue(f.spec, f.jobs.pending);
    }
  }

  /** `want` agents for a queue of `n` jobs: minAgents for a short queue, maxAgents for a long one, else one agent
      for each job. */
  predicate Wanted(spec: PoolSpec, n: nat, want: int) {
    && (n <= spec.minAgents ==> want == spec.minAgents)
    && (n >= spec.maxAgents ==> want == spec.maxAgents)
    && (spec.minAgents <= n <= spec.maxAgents ==> want == n)
  }

  lemma TargetIsWanted(s: Sys, t: Sys, key: Key, J: Azure, f: FullPass, want: int)
    requires FullOf(s, t, key, J, f) && Frozen(s, t) && f.spec.minAgents <= f.spec.maxAgents
    requires var n := |OpenJobs(J.jobs(f.mem.poolID, s.w.now))|; n <= INT32_MAX && Wanted(f.spec, n, want)
    ensures f.Target() == want
  {
    TargetByQueue(s, t, key, J, f);
  }

  /** What scaling arrives at by the length of the queue, or all busy agents if those are more; exactly when the
      claims suffice. */
  lemma ScalingByQueue(s: Sys, t: Sys, key: Key, J: Azure, f: FullPass, want: int)
    requires FullOf(s, t, key, J, f) && Frozen(s, t) && NoFault(s, t)
    requires Distinct(f.spec.caches) && OwnLabel(key, f.spec) && f.spec.minAgents <= f.spec.maxAgents
    requires var n := |OpenJobs(J.jobs(f.mem.poolID, s.w.now))|; n <= INT32_MAX && Wanted(f.spec, n, want)
    ensures |Active(t.w, key)| == Max(want, |BusyActive(s.w, key, f.jobs.busyAgentNames)|)
       <==> HasFree(Prepared(s.w, key, f.spec), key, f.spec.caches, want - |Active(s.w, key)|)
  {
    TargetIsWanted(s, t, key, J, f, want);
    ScalingTarget(s, t, key, J, f);
  }

  /** The busy pods of a snapshot are no more than its busy agents. */
  lemma BusyActiveWithinBusy(w: World, pool: Key, busy: set<string>)
    ensures |BusyActive(w, pool, busy)| <= |busy|
  {
    InjectionCard(BusyActive(w, pool, busy), busy, (k: Key) => k.name);
  }

  /** While the queue is no longer than maxAgents, the busy agents never push the count beyond the target. */
  lemma TargetCoversBusy(s: Sys, t: Sys, key: Key, J: Azure, f: FullPass)
    requires FullOf(s, t, key, J, f) && f.jobs.pending <= f.spec.maxAgents <= INT32_MAX
    ensures Max(f.Target(), |BusyActive(s.w, key, f.jobs.busyAgentNames)|) == f.Target()
  {
    assert Open(f);
    DesiredCoversBusy(f.spec, J.jobs(f.mem.poolID, f.asked));
    BusyActiveWithinBusy(s.w, key, f.jobs.busyAgentNames);
  }

  // ----- the reported count -----

  /** If nothing moves during a pass, the number of agents it reports is the real one whatever calls
      failed, unless the user's labels took the pods it created away from the pool. */
  lemma TruthfulStatus(s: Sys, t: Sys, key: Key, J: Azure, f: FullPass)
    requires FullOf(s, t, key, J, f) && Frozen(s, t)
    ensures f.Reported() == |Active(t.w, key)| <==> OwnLabel(key, f.spec) || f.growth.created == 0
    ensures OwnLabel(key, f.spec) && f.saved ==>
      key in t.w.pools && t.w.pools[key].status.activeAgents == Some(ToInt32(|Active(t.w, key)|))
  {
    ActiveAfterPass(s, t, key, J, f);
    StatusAfterPass(s, t, key, J, f);
  }

  lemma StatusAfterPass(s: Sys, t: Sys, key: Key, J: Azure, f: FullPass)
    requires FullOf(s, t, key, J, f)
    ensures key in s.w.pools && key in t.w.pools
    ensures t.w.pools == WithStatus(s.w.pools, key, if f.saved then f.FinalStatus() else f.mem)
    ensures Resolves(s.w.pools[key].status, f.mem)
    ensures f.saved <==> t.led.statusFaults == f.managed.led.statusFaults
  {
    assert Open(f);
  }
}
