/** What every pass keeps, whatever calls fail: exclusive use of claims, the limit on agents, the work of
    busy agents, and everything that belongs to other pools. */
module Invariants {
  import opened Base
  import opened Store
  import opened Ledgers
  import opened Clusters
  import opened Jobs
  import opened Allocator
  import opened Stages
  import opened Passes
  import opened Scaling

  // ----- planned claims -----

  lemma {:induction false} CachePlanAt(names: SlotNames, pool: Key, cache: string, n: nat, c: Key)
    ensures c in CachePlan(names, pool, cache, n) <==> exists s: nat :: s < n && names(cache, s) == c
    ensures c in CachePlan(names, pool, cache, n) ==>
      exists s: nat :: s < n && names(cache, s) == c && CachePlan(names, pool, cache, n)[c] == BuildPvc(pool, cache, s)
  {
    if n > 0 {
      CachePlanAt(names, pool, cache, n - 1, c);
      if s: nat :| s < n && names(cache, s) == c {
        assert s < n - 1 || names(cache, n - 1) == c;
      }
    }
  }

  /** A planned claim belongs to the first template that has a slot of its name. */
  lemma {:induction false} PlanAt(names: SlotNames, pool: Key, caches: seq<string>, n: nat, c: Key)
    ensures c in Plan(names, pool, caches, n)
      <==> exists i, s: nat :: 0 <= i < |caches| && s < n && names(caches[i], s) == c
    ensures c in Plan(names, pool, caches, n) ==>
      exists i, s: nat ::
        && 0 <= i < |caches| && s < n && names(caches[i], s) == c
        && Plan(names, pool, caches, n)[c] == BuildPvc(pool, caches[i], s)
        && forall j, r: nat :: 0 <= j < i && r < n ==> names(caches[j], r) != c
  {
    if caches != [] {
      var last := |caches| - 1;
      var rest := caches[..last];
      PlanAt(names, pool, rest, n, c);
      CachePlanAt(names, pool, caches[last], n, c);
      if c in Plan(names, pool, rest, n) {
        var i, s: nat :| 0 <= i < last && s < n && names(rest[i], s) == c
          && Plan(names, pool, rest, n)[c] == BuildPvc(pool, rest[i], s)
          && forall j, r: nat :: 0 <= j < i && r < n ==> names(rest[j], r) != c;
        assert names(caches[i], s) == c;
        assert forall j :: 0 <= j < i ==> rest[j] == caches[j];
      } else {
        forall j, r: nat | 0 <= j < last && r < n
          ensures names(caches[j], r) != c
        {
          assert rest[j] == caches[j];
        }
        if i, s: nat :| 0 <= i < |caches| && s < n && names(caches[i], s) == c {
          assert names(caches[last], s) == c;
        }
      }
    }
  }

  /** Planned claims are free claims of the pool. */
  lemma PlannedAreFree(key: Key, spec: PoolSpec)
    ensures forall c :: c in PlanOf(SlotNamesOf(key), key, spec) ==>
      var pvc := PlanOf(SlotNamesOf(key), key, spec)[c];
      pvc.state == Free && pvc.assignedPod == None && InPool(c, pvc.pool, key)
  {
    var names := SlotNamesOf(key);
    forall c | c in PlanOf(names, key, spec)
      ensures var pvc := PlanOf(names, key, spec)[c];
        pvc.state == Free && pvc.assignedPod == None && InPool(c, pvc.pool, key)
    {
      PlanAt(names, key, spec.caches, MaxSlots(spec), c);
    }
  }

  // ----- exclusivity -----

  ghost predicate FreeAdded(p: Pvcs, q: Pvcs) {
    && (forall c :: c in p ==> c in q && q[c] == p[c])
    && (forall c :: c in q && c !in p ==> q[c].state == Free && q[c].assignedPod == None)
  }

  lemma InvFreeAdded(w: World, v: World)
    requires Inv(w) && v.pods == w.pods && w.now <= v.now && FreeAdded(w.pvcs, v.pvcs)
    ensures Inv(v)
  {
  }

  lemma InvCleaned(w: World, v: World, key: Key, names: set<string>, freed: set<Key>, gone: set<Key>)
    requires Inv(w) && v.pods == w.pods - gone && v.pvcs == ReleaseAll(w.pvcs, freed) && w.now <= v.now
    requires freed <= SlotsOfAny(w.pvcs, key, names) && forall n :: n in names ==> !ActiveNow(w, Key(key.ns, n))
    ensures Inv(v)
  {
    forall k, x | k in v.pods && x in v.pods[k].claims && ActiveNow(v, k)
      ensures ClaimKey(k, v.pods[k], x) in v.pvcs && v.pvcs[ClaimKey(k, v.pods[k], x)].assignedPod == Some(k.name)
    {
      assert ActiveNow(w, k);
      assert ClaimKey(k, w.pods[k], x) !in freed;
    }
  }

  lemma InvGrown(w: World, v: World, key: Key, spec: PoolSpec, u: Growth)
    requires Inv(w) && v.pvcs == Grant(w.pvcs, u.g) && w.now <= v.now
    requires GrantsFree(w.pvcs, key, spec.caches, u.g)
    requires u.born <= v.pods.Keys && v.pods - u.born == w.pods - u.born
    requires forall k :: k in u.born ==> k in v.pods && NewAgent(w.pvcs, key, spec, k, v.pods[k], u.g)
    ensures Inv(v)
  {
    forall k | k in v.pods && k !in u.born
      ensures k in w.pods && w.pods[k] == v.pods[k]
    {
      assert k in v.pods - u.born;
    }
    forall k, x | k in v.pods && x in v.pods[k].claims
      ensures var c := ClaimKey(k, v.pods[k], x);
        c in v.pvcs && v.pvcs[c].cache == x && (ActiveNow(v, k) ==> v.pvcs[c].assignedPod == Some(k.name))
    {
      var c := ClaimKey(k, v.pods[k], x);
      if k in u.born {
        assert NewAgent(w.pvcs, key, spec, k, v.pods[k], u.g);
      } else {
        assert c in w.pvcs && w.pvcs[c].cache == x;
      }
    }
  }

  lemma InvDeletes(w: World, v: World, gone: set<Key>)
    requires Inv(w) && v.pods == w.pods - gone && v.pvcs == w.pvcs && w.now <= v.now
    ensures Inv(v)
  {
  }

  lemma ClaimStages(s: Sys, t: Sys, key: Key, J: Azure, f: FullPass)
    requires FullOf(s, t, key, J, f)
    ensures f.listed.w.pods == s.w.pods && s.w.now <= f.listed.w.now
    ensures f.listed.w.pvcs == f.provisioned.w.pvcs
    ensures f.cleaned.w.pods == f.listed.w.pods - f.swept && f.cleaned.w.pvcs == ReleaseAll(f.listed.w.pvcs, f.freed)
    ensures f.freed <= SlotsOfAny(f.listed.w.pvcs, key, CompletedNames(f.items))
    ensures f.grown.w.pvcs == Grant(f.cleaned.w.pvcs, f.growth.g)
    ensures GrantsFree(f.cleaned.w.pvcs, key, f.spec.caches, f.growth.g)
    ensures f.growth.born <= f.grown.w.pods.Keys && f.grown.w.pods - f.growth.born == f.cleaned.w.pods - f.growth.born
    ensures forall k :: k in f.growth.born ==>
      k in f.grown.w.pods && NewAgent(f.cleaned.w.pvcs, key, f.spec, k, f.grown.w.pods[k], f.growth.g)
    ensures t.w.pods == f.grown.w.pods - f.gone && t.w.pvcs == f.grown.w.pvcs
    ensures ListsPods(f.items, f.listed.w, key)
  {
    assert Open(f);
  }

  /** A pass adds nothing but free claims of the pool. */
  lemma OnlyFreeAdded(p: Pvcs, q: Pvcs, key: Key, spec: PoolSpec)
    requires Extended(p, q, PlanOf(SlotNamesOf(key), key, spec))
    ensures FreeAdded(p, q) && forall c :: c in q && c !in p ==> InPool(c, q[c].pool, key)
  {
    PlannedAreFree(key, spec);
  }

  lemma ProvisionedClaims(s: Sys, t: Sys, key: Key, J: Azure, f: FullPass)
    requires FullOf(s, t, key, J, f)
    ensures Extended(s.w.pvcs, f.provisioned.w.pvcs, PlanOf(SlotNamesOf(key), key, f.spec))
    ensures f.ensured ==> f.provisioned.w.pvcs == PlanOf(SlotNamesOf(key), key, f.spec) + s.w.pvcs
    ensures f.ensured <==> NoFault(f.loaded, f.provisioned)
  {
    assert Open(f);
  }

  lemma NotActiveListed(items: seq<PodItem>, w: World, key: Key)
    requires ListsPods(items, w, key)
    ensures forall n :: n in CompletedNames(items) ==> !ActiveNow(w, Key(key.ns, n))
  {
  }

  /** The invariant holds between any two stages of a pass. */
  lemma InvThroughout(s: Sys, t: Sys, key: Key, J: Azure, f: FullPass)
    requires FullOf(s, t, key, J, f) && Inv(s.w)
    ensures Inv(f.listed.w) && Inv(f.cleaned.w) && Inv(f.grown.w) && Inv(t.w)
  {
    StageTimes(s, t, key, J, f);
    ClaimStages(s, t, key, J, f);
    ProvisionedClaims(s, t, key, J, f);
    OnlyFreeAdded(s.w.pvcs, f.provisioned.w.pvcs, key, f.spec);
    NotActiveListed(f.items, f.listed.w, key);
    InvFreeAdded(s.w, f.listed.w);
    InvCleaned(f.listed.w, f.cleaned.w, key, CompletedNames(f.items), f.freed, f.swept);
    InvGrown(f.cleaned.w, f.grown.w, key, f.spec, f.growth);
    InvDeletes(f.grown.w, t.w, f.gone);
  }

  /** Whatever calls fail and whatever the environment does meanwhile: after a pass of any pool every claim
      mounted by an active pod is labelled with exactly that pod. */
  lemma PassKeepsInv(s: Sys, t: Sys, key: Key, J: Azure, p: Pass)
    requires PassOf(s, t, key, J, p) && Inv(s.w)
    ensures Inv(t.w)
  {
    match p
    case Full(f) =>
      InvThroughout(s, t, key, J, f);
    case Stopped(mem, names, _) =>
      OnlyFreeAdded(s.w.pvcs, t.w.pvcs, key, s.w.pools[key].spec);
      InvFreeAdded(s.w, t.w);
    case _ =>
      InvFreeAdded(s.w, t.w);
  }

  // ----- the limit on agents and the work of busy agents -----

  /** A pass never leaves more active pods than there were or than the pool may have. */
  lemma PassKeepsBound(s: Sys, t: Sys, key: Key, J: Azure, p: Pass)
    requires PassOf(s, t, key, J, p)
    requires key in s.w.pools ==> s.w.pools[key].spec.minAgents <= s.w.pools[key].spec.maxAgents
    ensures key in s.w.pools ==> |Active(t.w, key)| <= Max(|Active(s.w, key)|, s.w.pools[key].spec.maxAgents)
    ensures key !in s.w.pools ==> t.w.pods == s.w.pods
  {
    if p.Full? {
      PodCounts(s, t, key, J, p.f);
      BoundInPass(s, t, key, J, p.f);
    } else {
      ActiveShrinks(s.w, t.w.now, key);
      assert Active(t.w, key) == Active(s.w.(now := t.w.now), key);
    }
  }

  lemma BoundInPass(s: Sys, t: Sys, key: Key, J: Azure, f: FullPass)
    requires FullOf(s, t, key, J, f) && f.spec.minAgents <= f.spec.maxAgents
    ensures key in s.w.pools && f.spec == s.w.pools[key].spec
    ensures |Active(t.w, key)| <= Max(|Active(s.w, key)|, f.spec.maxAgents)
  {
    PodCounts(s, t, key, J, f);
    StageTimes(s, t, key, J, f);
    HowMany(s, t, key, J, f);
    PodStages(s, t, key, J, f);
    ListedActive(f.items, f.listed.w, key);
    FewerActive(s.w, f.listed.w, key);
    FewerActive(f.listed.w, f.cleaned.w, key);
    FewerActive(f.grown.w, t.w, key);
  }

  lemma FewerActive(w: World, v: World, key: Key)
    requires w.now <= v.now && forall k :: k in v.pods ==> k in w.pods && v.pods[k] == w.pods[k]
    ensures |Active(v, key)| <= |Active(w, key)|
  {
    SubsetCard(Active(v, key), Active(w, key));
  }

  lemma PodCounts(s: Sys, t: Sys, key: Key, J: Azure, f: FullPass)
    requires FullOf(s, t, key, J, f)
    ensures key in s.w.pools && f.spec == s.w.pools[key].spec
    ensures |Active(f.grown.w, key)| <= |Active(f.cleaned.w, key)| + f.growth.created
    ensures f.ToCreate() <= 0 ==> f.grown == f.cleaned
  {
    assert Open(f);
    assert IsGrown(f.cleaned, f.grown, key, f.spec, f.growth);
    GrownActive(f.cleaned, f.grown, key, f.spec, f.growth, key);
  }

  /** No pass both creates and scales down, and scale-down deletes no more than the snapshot has too many. */
  lemma NeverBothWays(s: Sys, t: Sys, key: Key, J: Azure, f: FullPass)
    requires FullOf(s, t, key, J, f)
    ensures f.growth.created == 0 || f.gone == {}
    ensures f.gone != {} ==> |Active(f.listed.w, key)| - |f.gone| >= f.Target()
  {
    HowMany(s, t, key, J, f);
    PodStages(s, t, key, J, f);
    ListedActive(f.items, f.listed.w, key);
  }

  /** The active pods of the snapshot that the environment ended or deleted by the end of the pass. */
  function LostMeanwhile(w: World, now: nat, key: Key): set<Key> {
    Active(w, key) - Active(w.(now := now), key)
  }

  /** Scale-down leaves what the snapshot had less what it deleted and what the environment took besides.
      So it ends below the target exactly if that was more than the surplus it had left in place. */
  lemma NotBelowTarget(s: Sys, t: Sys, key: Key, J: Azure, f: FullPass)
    requires FullOf(s, t, key, J, f) && f.gone != {}
    ensures var lost := LostMeanwhile(f.listed.w, t.w.now, key) - f.gone;
      && |Active(t.w, key)| == |Active(f.listed.w, key)| - |f.gone| - |lost|
      && (|Active(t.w, key)| >= f.Target() <==> |lost| <= |Active(f.listed.w, key)| - |f.gone| - f.Target())
  {
    NeverBothWays(s, t, key, J, f);
    StageTimes(s, t, key, J, f);
    PodCounts(s, t, key, J, f);
    HowMany(s, t, key, J, f);
    PodStages(s, t, key, J, f);
    ListedCompleted(f.items, f.listed.w, key);
    ListedIdle(f.items, f.listed.w, key, f.jobs.busyAgentNames);
    StillActive(f.listed.w, t.w, key, f.swept, f.gone);
  }

  lemma StillActive(w: World, v: World, key: Key, swept: set<Key>, gone: set<Key>)
    requires v.pods == w.pods - swept - gone && swept <= Completed(w, key) && gone <= Active(w, key) && w.now <= v.now
    ensures |Active(v, key)| == |Active(w, key)| - |gone| - |LostMeanwhile(w, v.now, key) - gone|
  {
    var later := Active(w.(now := v.now), key);
    ActiveShrinks(w, v.now, key);
    ActiveOfRest(w, v, key, swept, gone);
    TwoCuts(Active(w, key), later, gone);
  }

  lemma ActiveOfRest(w: World, v: World, key: Key, swept: set<Key>, gone: set<Key>)
    requires v.pods == w.pods - swept - gone && swept <= Completed(w, key) && w.now <= v.now
    ensures Active(v, key) == Active(w.(now := v.now), key) - gone
  {
  }

  lemma TwoCuts(all: set<Key>, later: set<Key>, gone: set<Key>)
    requires later <= all && gone <= all
    ensures |later - gone| == |all| - |gone| - |(all - later) - gone|
  {
    assert all == (later - gone) + gone + ((all - later) - gone);
  }

  lemma KillStages(s: Sys, t: Sys, key: Key, J: Azure, f: FullPass)
    requires FullOf(s, t, key, J, f)
    ensures forall x :: x in t.led.kills && x !in s.led.kills ==>
      || (x.key in f.swept && x.key in f.listed.w.pods && x.pod == f.listed.w.pods[x.key] && f.listed.w.now <= x.at)
      || (x.key in f.gone && f.listed.w.now <= x.at)
  {
    assert Open(f);
  }

  /** No pass deletes a Running or Pending pod whose agent the job snapshot names as busy. At the time of the
      delete the agent can be busy only if time has passed since the snapshot was taken. */
  lemma BusyNeverDeleted(s: Sys, t: Sys, key: Key, J: Azure, p: Pass, x: Kill)
    requires PassOf(s, t, key, J, p) && x in t.led.kills && x !in s.led.kills
    ensures p.Full? && p.f.asked <= x.at
    ensures var phase := PhaseAt(x.pod.fate, x.at);
      phase.Some? && IsActive(phase.value) ==>
        && x.key.name !in p.f.jobs.busyAgentNames
        && (x.key.name in Summary(J.jobs(p.f.mem.poolID, x.at)).busyAgentNames ==> p.f.asked < x.at)
  {
    KilledIdle(s, t, key, J, p.f, x);
    SnapshotTaken(s, t, key, J, p.f);
  }

  lemma KilledIdle(s: Sys, t: Sys, key: Key, J: Azure, f: FullPass, x: Kill)
    requires FullOf(s, t, key, J, f) && x in t.led.kills && x !in s.led.kills
    ensures f.listed.w.now <= x.at
    ensures var phase := PhaseAt(x.pod.fate, x.at);
      phase.Some? && IsActive(phase.value) ==> x.key.name !in f.jobs.busyAgentNames
  {
    KillStages(s, t, key, J, f);
    PodStages(s, t, key, J, f);
    if x.key in f.gone {
      ListedIdle(f.items, f.listed.w, key, f.jobs.busyAgentNames);
    } else {
      ListedCompleted(f.items, f.listed.w, key);
      assert CompletedNow(f.listed.w, x.key);
    }
  }

  lemma SnapshotTaken(s: Sys, t: Sys, key: Key, J: Azure, f: FullPass)
    requires FullOf(s, t, key, J, f)
    ensures f.asked <= f.listed.w.now && f.jobs == Summary(J.jobs(f.mem.poolID, f.asked))
  {
    assert Open(f);
  }

  // ----- isolation -----

  /** From `w` to `v` only the pods and claims of the pool changed: its claims were created, assigned and
      released, its pods created under the label `poolLabel` and deleted. */
  ghost predicate Isolated(w: World, v: World, key: Key, poolLabel: string) {
    && w.now <= v.now
    && (forall c :: c in w.pvcs ==>
         c in v.pvcs && v.pvcs[c] == w.pvcs[c].(state := v.pvcs[c].state, assignedPod := v.pvcs[c].assignedPod))
    && (forall c :: c in w.pvcs && !InPool(c, w.pvcs[c].pool, key) ==> v.pvcs[c] == w.pvcs[c])
    && (forall c :: c in v.pvcs && c !in w.pvcs ==> InPool(c, v.pvcs[c].pool, key))
    && (forall k :: k in w.pods && !InPool(k, w.pods[k].pool, key) && Live(w.(now := v.now), k) ==>
         k in v.pods && v.pods[k] == w.pods[k])
    && (forall k :: k in v.pods ==>
         (k in w.pods && v.pods[k] == w.pods[k]) || (k.ns == key.ns && v.pods[k].pool == poolLabel))
    && (forall k :: k != key ==> (k in w.pools <==> k in v.pools))
    && (forall k :: k != key && k in w.pools ==> v.pools[k] == w.pools[k])
  }

  /** A pass stays within its pool, also when slot names of two pools collide. */
  lemma PassIsIsolated(s: Sys, t: Sys, key: Key, J: Azure, p: Pass)
    requires PassOf(s, t, key, J, p)
    ensures key in s.w.pools ==> Isolated(s.w, t.w, key, AgentLabel(key, s.w.pools[key].spec))
    ensures key !in s.w.pools ==> t.w == s.w.(now := t.w.now)
  {
    match p
    case Full(f) =>
      FullIsIsolated(s, t, key, J, f);
    case Stopped(_, _, _) =>
      OnlyFreeAdded(s.w.pvcs, t.w.pvcs, key, s.w.pools[key].spec);
    case _ =>
  }

  lemma FullIsIsolated(s: Sys, t: Sys, key: Key, J: Azure, f: FullPass)
    requires FullOf(s, t, key, J, f)
    ensures key in s.w.pools && f.spec == s.w.pools[key].spec
    ensures Isolated(s.w, t.w, key, AgentLabel(key, f.spec))
  {
    PodCounts(s, t, key, J, f);
    StatusAfterPass(s, t, key, J, f);
    StageTimes(s, t, key, J, f);
    ClaimStages(s, t, key, J, f);
    ProvisionedClaims(s, t, key, J, f);
    OnlyFreeAdded(s.w.pvcs, f.provisioned.w.pvcs, key, f.spec);
    ClaimsStayInPool(s.w.pvcs, f.listed.w.pvcs, t.w.pvcs, key, f);
    Newborns(s, t, key, J, f);
    PodStages(s, t, key, J, f);
    ListedActive(f.items, f.listed.w, key);
    ListedIdle(f.items, f.listed.w, key, f.jobs.busyAgentNames);
    ListedCompleted(f.items, f.listed.w, key);
    PodsStayInPool(s.w, f.listed.w, f.cleaned.w, f.grown.w, t.w, key, AgentLabel(key, f.spec), f.swept, f.growth.born,
                   f.gone);
  }

  lemma ClaimsStayInPool(p: Pvcs, q: Pvcs, r: Pvcs, key: Key, f: FullPass)
    requires FreeAdded(p, q) && forall c :: c in q && c !in p ==> InPool(c, q[c].pool, key)
    requires f.freed <= SlotsOfAny(q, key, CompletedNames(f.items))
    requires GrantsFree(ReleaseAll(q, f.freed), key, f.spec.caches, f.growth.g)
    requires r == Grant(ReleaseAll(q, f.freed), f.growth.g)
    ensures forall c :: c in p ==> c in r && r[c] == p[c].(state := r[c].state, assignedPod := r[c].assignedPod)
    ensures forall c :: c in p && !InPool(c, p[c].pool, key) ==> r[c] == p[c]
    ensures forall c :: c in r && c !in p ==> InPool(c, r[c].pool, key)
  {
  }

  lemma PodsStayInPool(s: World, listed: World, cleaned: World, grown: World, t: World, key: Key, poolLabel: string,
                       swept: set<Key>, born: set<Key>, gone: set<Key>)
    requires s.now <= listed.now <= cleaned.now <= grown.now <= t.now && listed.pods == s.pods
    requires cleaned.pods == s.pods - swept && swept <= Completed(listed, key)
    requires grown.pods - born == cleaned.pods - born && born <= grown.pods.Keys
    requires forall k :: k in born ==>
      k.ns == key.ns && grown.pods[k].pool == poolLabel && !Live(cleaned.(now := grown.now), k)
    requires t.pods == grown.pods - gone && gone <= Active(listed, key)
    ensures forall k :: k in s.pods && !InPool(k, s.pods[k].pool, key) && Live(s.(now := t.now), k) ==>
      k in t.pods && t.pods[k] == s.pods[k]
    ensures forall k :: k in t.pods ==>
      (k in s.pods && t.pods[k] == s.pods[k]) || (k.ns == key.ns && t.pods[k].pool == poolLabel)
  {
    forall k | k in s.pods && !InPool(k, s.pods[k].pool, key) && Live(s.(now := t.now), k)
      ensures k in t.pods && t.pods[k] == s.pods[k]
    {
      assert Live(cleaned.(now := grown.now), k);
      assert k in cleaned.pods - born;
    }
    forall k | k in t.pods && k !in born
      ensures k in s.pods && t.pods[k] == s.pods[k]
    {
      assert k in grown.pods - born;
    }
  }

  /** What a pass of one pool means for another: nothing but the passing of time. */
  lemma OtherPoolUntouched(w: World, v: World, key: Key, other: Key)
    requires Isolated(w, v, key, key.name) && other != key
    ensures Members(v, other) == Members(w.(now := v.now), other)
    ensures Active(v, other) == Active(w.(now := v.now), other)
    ensures Completed(v, other) == Completed(w.(now := v.now), other)
    ensures forall cache :: Slots(v.pvcs, other, cache) == Slots(w.pvcs, other, cache)
    ensures forall cache :: FreeSlots(v.pvcs, other, cache) == FreeSlots(w.pvcs, other, cache)
  {
  }

  // ----- pod creation is a transaction -----

  /** Either one pod appears that mounts exactly one claim per template, each free before and assigned to it
      now, and all else is as before; or, unless a release of the rollback failed, nothing changed. */
  lemma CreationIsTransaction(s: Sys, t: Sys, pool: Key, spec: PoolSpec, b: Birth)
    requires Created(s, t, pool, spec, b) && LabelsOk(s.w.pvcs) && Distinct(spec.caches)
    ensures b.ok ==>
      && b.k in t.w.pods && t.w == s.w.(pods := s.w.pods[b.k := t.w.pods[b.k]], pvcs := t.w.pvcs, now := t.w.now)
      && var pod := t.w.pods[b.k]; var mine := set v | v in pod.claims :: ClaimKey(b.k, pod, v);
      && (forall v :: v in pod.claims <==> v in spec.caches)
      && (forall v :: v in pod.claims ==> ClaimKey(b.k, pod, v) in FreeSlots(s.w.pvcs, pool, v))
      && t.w.pvcs == Grant(s.w.pvcs, map c | c in mine :: b.k.name)
    ensures !b.ok && t.led.releaseFaults == s.led.releaseFaults ==> t.w == s.w.(now := t.w.now)
    ensures !b.ok ==> !NoFault(s, t) || Exhausted(s.w.pvcs, pool, spec.caches)
  {
    assert Grant(s.w.pvcs, map[]) == s.w.pvcs;
    if b.ok {
      var pod := t.w.pods[b.k];
      var mine := set v | v in pod.claims :: ClaimKey(b.k, pod, v);
      forall c | c in b.g
        ensures c in mine
      {
        assert ClaimKey(b.k, pod, s.w.pvcs[c].cache) == c;
      }
      assert b.g == map c | c in mine :: b.k.name;
    }
  }

  // ----- cleanup -----

  /** Cleanup leaves active pods and their claims alone. Without failing calls no completed pod of the
      snapshot is left and no claim names one; each pod left accounts for a failed delete, each
      pod that claims still name for a failed release. */
  lemma CleanupDoesItsJob(s: Sys, t: Sys, key: Key, J: Azure, f: FullPass)
    requires FullOf(s, t, key, J, f) && Inv(s.w)
    ensures forall k :: k in Active(f.listed.w, key) ==>
      && k in f.cleaned.w.pods && f.cleaned.w.pods[k] == f.listed.w.pods[k]
      && forall v :: v in f.listed.w.pods[k].claims ==>
           var c := ClaimKey(k, f.listed.w.pods[k], v);
           c in f.listed.w.pvcs && c in f.cleaned.w.pvcs && f.cleaned.w.pvcs[c] == f.listed.w.pvcs[c]
    ensures NoFault(f.listed, f.cleaned) ==> forall k :: k in Completed(f.listed.w, key) ==> !Live(f.cleaned.w, k)
    ensures NoFault(f.listed, f.cleaned) && |f.spec.caches| > 0 ==>
      forall k :: k in Completed(f.listed.w, key) ==> SlotsOf(f.cleaned.w.pvcs, key, k.name) == {}
    ensures |StillThere(f.cleaned.w, key, CompletedNamesOf(f.listed.w, key))| <= OtherFaults(f.listed, f.cleaned)
    ensures |f.spec.caches| > 0 ==>
      |Unreleased(f.cleaned.w.pvcs, key, CompletedNamesOf(f.listed.w, key))| <= FailedReleases(f.listed, f.cleaned)
    ensures |f.swept| + OtherFaults(f.listed, f.cleaned) <= |CompletedNamesOf(f.listed.w, key)|
    ensures f.tidy <==> NoFault(f.listed, f.cleaned)
  {
    ActiveUntouched(s, t, key, J, f);
    CompletedGone(s, t, key, J, f);
    CleanupCounts(s, t, key, J, f);
  }

  lemma ActiveUntouched(s: Sys, t: Sys, key: Key, J: Azure, f: FullPass)
    requires FullOf(s, t, key, J, f) && Inv(s.w)
    ensures forall k :: k in Active(f.listed.w, key) ==>
      && k in f.cleaned.w.pods && f.cleaned.w.pods[k] == f.listed.w.pods[k]
      && forall v :: v in f.listed.w.pods[k].claims ==>
           var c := ClaimKey(k, f.listed.w.pods[k], v);
           c in f.listed.w.pvcs && c in f.cleaned.w.pvcs && f.cleaned.w.pvcs[c] == f.listed.w.pvcs[c]
  {
    InvThroughout(s, t, key, J, f);
    ClaimStages(s, t, key, J, f);
    ListedCompleted(f.items, f.listed.w, key);
    PodStages(s, t, key, J, f);
    ActiveKeepsClaims(f.listed.w, f.cleaned.w, key, f.freed, CompletedNames(f.items), f.swept);
  }

  lemma CompletedGone(s: Sys, t: Sys, key: Key, J: Azure, f: FullPass)
    requires FullOf(s, t, key, J, f)
    ensures NoFault(f.listed, f.cleaned) ==> forall k :: k in Completed(f.listed.w, key) ==> !Live(f.cleaned.w, k)
    ensures NoFault(f.listed, f.cleaned) && |f.spec.caches| > 0 ==>
      forall k :: k in Completed(f.listed.w, key) ==> SlotsOf(f.cleaned.w.pvcs, key, k.name) == {}
  {
    ClaimStages(s, t, key, J, f);
    ListedCompleted(f.items, f.listed.w, key);
    CleanStages(s, t, key, J, f);
  }

  lemma CleanupCounts(s: Sys, t: Sys, key: Key, J: Azure, f: FullPass)
    requires FullOf(s, t, key, J, f)
    ensures |StillThere(f.cleaned.w, key, CompletedNamesOf(f.listed.w, key))| <= OtherFaults(f.listed, f.cleaned)
    ensures |f.spec.caches| > 0 ==>
      |Unreleased(f.cleaned.w.pvcs, key, CompletedNamesOf(f.listed.w, key))| <= FailedReleases(f.listed, f.cleaned)
    ensures |f.swept| + OtherFaults(f.listed, f.cleaned) <= |CompletedNamesOf(f.listed.w, key)|
    ensures f.tidy <==> NoFault(f.listed, f.cleaned)
  {
    ClaimStages(s, t, key, J, f);
    ListedCompleted(f.items, f.listed.w, key);
    CleanupFaults(s, t, key, J, f);
  }

  lemma ActiveKeepsClaims(w: World, v: World, key: Key, freed: set<Key>, names: set<string>, swept: set<Key>)
    requires Inv(w) && v.pods == w.pods - swept && v.pvcs == ReleaseAll(w.pvcs, freed)
    requires freed <= SlotsOfAny(w.pvcs, key, names) && KeysOf(key.ns, names) == Completed(w, key)
    requires swept <= Completed(w, key)
    ensures forall k :: k in Active(w, key) ==>
      && k in v.pods && v.pods[k] == w.pods[k]
      && forall x :: x in w.pods[k].claims ==>
           var c := ClaimKey(k, w.pods[k], x); c in w.pvcs && c in v.pvcs && v.pvcs[c] == w.pvcs[c]
  {
    forall k, x | k in Active(w, key) && x in w.pods[k].claims
      ensures var c := ClaimKey(k, w.pods[k], x); c in w.pvcs && c !in freed
    {
      assert w.pvcs[ClaimKey(k, w.pods[k], x)].assignedPod == Some(k.name);
      assert k !in KeysOf(key.ns, names);
    }
  }

  lemma CleanupFaults(s: Sys, t: Sys, key: Key, J: Azure, f: FullPass)
    requires FullOf(s, t, key, J, f)
    ensures |StillThere(f.cleaned.w, key, CompletedNames(f.items))| <= OtherFaults(f.listed, f.cleaned)
    ensures |f.spec.caches| > 0 ==>
      |Unreleased(f.cleaned.w.pvcs, key, CompletedNames(f.items))| <= FailedReleases(f.listed, f.cleaned)
    ensures |f.swept| + OtherFaults(f.listed, f.cleaned) <= |CompletedNames(f.items)|
    ensures f.tidy <==> NoFault(f.listed, f.cleaned)
  {
    assert Open(f);
    assert Detail(CompletedNames(f.items));
    Counted(StillThere(f.cleaned.w, key, CompletedNames(f.items)), OtherFaults(f.listed, f.cleaned));
    Counted(Unreleased(f.cleaned.w.pvcs, key, CompletedNames(f.items)), FailedReleases(f.listed, f.cleaned));
  }
}
