/** As long as no slot is stranded scale-up never runs out, and when one is it may never start. */
module Supply {
  import opened Base
  import opened Store
  import opened Ledgers
  import opened Clusters
  import opened Allocator
  import opened Stages
  import opened Passes
  import opened Scaling
  import opened Invariants
  import opened Capacity
  import opened Accounting
  import opened Losses

  // ----- scale-up never runs out -----

  lemma CleanedMoves(s: Sys, t: Sys, key: Key, J: Azure, f: FullPass)
    requires FullOf(s, t, key, J, f)
    ensures StoreStep(s.w, f.cleaned.w, Moves(f.swept, f.freed, {}, map[], {}))
  {
    CleanedSteps(s, t, key, J, f);
  }

  lemma CleanedSteps(s: Sys, t: Sys, key: Key, J: Azure, f: FullPass)
    requires FullOf(s, t, key, J, f)
    ensures Steps(s.w, f.cleaned.w, Moves(f.swept, f.freed, {}, map[], {}))
  {
    ClaimStages(s, t, key, J, f);
    ProvisionedClaims(s, t, key, J, f);
    OnlyFreeAdded(s.w.pvcs, f.provisioned.w.pvcs, key, f.spec);
    StageTimes(s, t, key, J, f);
    ReleasesKnown(s.w, f.listed.w, key, f.items, f.freed);
    assert Grant(f.cleaned.w.pvcs, map[]) == f.cleaned.w.pvcs;
    ClaimMoves(s.w.pvcs, f.listed.w.pvcs, f.cleaned.w.pvcs, key, f.spec, f.items,
               Moves(f.swept, f.freed, {}, map[], {}));
  }

  /** After cleanup, every claim of the pool that is held is held by a pod counted as active. */
  lemma HeldByActive(s: Sys, t: Sys, key: Key, J: Azure, f: FullPass, cache: string)
    requires FullOf(s, t, key, J, f) && Inv(s.w) && OwnPods(s.w) && cache in f.spec.caches
    requires f.cleaned.led.releaseFaults == f.listed.led.releaseFaults
    ensures |HeldSlots(f.cleaned.w, key, cache)| <= |Active(f.listed.w, key)|
  {
    InvThroughout(s, t, key, J, f);
    CleanedMoves(s, t, key, J, f);
    PodStages(s, t, key, J, f);
    StageTimes(s, t, key, J, f);
    forall c | c in HeldSlots(f.cleaned.w, key, cache)
      ensures HolderOf(f.cleaned.w, c) in Active(f.listed.w, key)
    {
      HeldBefore(s.w, f.cleaned.w, f, key, c);
      if HolderOf(s.w, c) in Completed(f.listed.w, key) {
        SweptAreReleased(s, t, key, J, f, c);
      }
    }
    HoldersDiffer(f.cleaned.w, key, cache, Active(f.listed.w, key));
  }

  lemma HeldBefore(s: World, cleaned: World, f: FullPass, key: Key, c: Key)
    requires StoreStep(s, cleaned, Moves(f.swept, f.freed, {}, map[], {})) && OwnPods(s)
    requires s.now <= f.listed.w.now <= cleaned.now && f.listed.w.pods == s.pods
    requires Held(cleaned, c) && InPool(c, cleaned.pvcs[c].pool, key)
    ensures c !in f.freed && Held(s, c) && HolderOf(cleaned, c) == HolderOf(s, c)
    ensures HolderOf(s, c) in Members(f.listed.w, key)
  {
    assert Seen(Moves(f.swept, f.freed, {}, map[], {}));
  }

  lemma SlotsOnlyGrow(s: Sys, t: Sys, key: Key, J: Azure, f: FullPass, i: nat)
    requires FullOf(s, t, key, J, f) && f.ensured && i < |f.spec.caches|
    requires DistinctCuts(f.spec.caches) && NamesOwned(s.w.pvcs, key, f.spec)
    ensures |Slots(f.cleaned.w.pvcs, key, f.spec.caches[i])| >= MaxSlots(f.spec)
  {
    ClaimStages(s, t, key, J, f);
    ProvisionedClaims(s, t, key, J, f);
    EnoughSlots(s.w.pvcs, key, f.spec, i);
    ReleaseKeepsSlots(f.provisioned.w.pvcs, f.freed, key, f.spec.caches[i]);
  }

  lemma ReleaseKeepsSlots(p: Pvcs, R: set<Key>, pool: Key, cache: string)
    ensures Slots(ReleaseAll(p, R), pool, cache) == Slots(p, pool, cache)
  {
  }

  /** When provisioning succeeded and no release failed, scale-up runs out of claims only if more slots of
      some template are stranded than the target leaves spare; with none stranded it never does, and stops
      short only because a call failed. */
  lemma ProvisioningSuffices(s: Sys, t: Sys, key: Key, J: Azure, f: FullPass)
    requires FullOf(s, t, key, J, f) && Inv(s.w) && OwnPods(s.w)
    requires f.ensured && t.led.releaseFaults == s.led.releaseFaults
    requires DistinctCuts(f.spec.caches) && NamesOwned(s.w.pvcs, key, f.spec) && f.spec.minAgents <= f.spec.maxAgents
    ensures f.growth.full ==>
      exists i :: 0 <= i < |f.spec.caches| &&
        |StrandedSlots(f.cleaned.w, key, f.spec.caches[i])| > f.spec.maxAgents - f.Target() >= 0
    ensures Stranded(f.cleaned.w, key) == {} ==>
      !f.growth.full && (f.growth.created < f.ToCreate() ==> !NoFault(f.cleaned, f.grown))
  {
    HowMany(s, t, key, J, f);
    if f.growth.full {
      assert Distinct(f.spec.caches);
      Releases(s, t, key, J, f);
      ClaimCounts(s, t, key, J, f);
      InvThroughout(s, t, key, J, f);
      PodStages(s, t, key, J, f);
      ListedActive(f.items, f.listed.w, key);
      var v :| v in f.spec.caches && FreeSlots(f.grown.w.pvcs, key, v) == {};
      var i :| 0 <= i < |f.spec.caches| && f.spec.caches[i] == v;
      HeldByActive(s, t, key, J, f, v);
      SlotsOnlyGrow(s, t, key, J, f, i);
      Balance(f.cleaned.w, key, v);
      assert |StrandedSlots(f.cleaned.w, key, f.spec.caches[i])| > f.spec.maxAgents - f.Target();
    }
  }

  // ----- when nothing is stranded -----

  /** No pod that holds claims of the pool is removed between `w` and `v` except by cleanup. */
  ghost predicate HoldersStay(w: World, v: World, m: Moves, pool: Key) {
    && (forall c :: Held(w, c) && InPool(c, w.pvcs[c].pool, pool) ==>
         HolderOf(w, c) !in m.gone && Live(w.(now := v.now), HolderOf(w, c)))
    && (forall k :: k in m.born && k in v.pods && InPool(k, v.pods[k].pool, pool) ==> Live(v, k))
  }

  /** Template names differ and labels are the operator's; the observed pool has cache volumes, and no pod
      created for it was gone again before the pass created another of its name. */
  ghost predicate Regular(key: Key, p: Pass, pool: Key) {
    p.Full? ==>
      && Distinct(p.f.spec.caches) && OwnLabel(key, p.f.spec)
      && (key == pool ==> |p.f.spec.caches| > 0 && |p.f.growth.born| == p.f.growth.created)
  }

  /** A pass without a failed release that removes no holder except by cleanup strands nothing, neither in
      its middle nor at its end. */
  lemma NothingStranded(s: Sys, t: Sys, key: Key, J: Azure, p: Pass, pool: Key)
    requires PassOf(s, t, key, J, p) && t.led.releaseFaults == s.led.releaseFaults
    requires Regular(key, p, pool) && HoldersStay(s.w, t.w, MovesOf(p), pool)
    requires LabelsOk(s.w.pvcs) && OwnPods(s.w) && Stranded(s.w, pool) == {}
    ensures Stranded(t.w, pool) == {} && OwnPods(t.w)
    ensures p.Full? ==> Stranded(p.f.cleaned.w, pool) == {}
  {
    OwnPodsAfter(s, t, key, J, p);
    NoneStrandedAfter(s, t, key, J, p, pool);
    if p.Full? {
      NoneStrandedYet(s, t, key, J, p.f, pool);
    }
  }

  lemma OwnPodsAfter(s: Sys, t: Sys, key: Key, J: Azure, p: Pass)
    requires PassOf(s, t, key, J, p) && t.led.releaseFaults == s.led.releaseFaults && OwnPods(s.w)
    requires p.Full? ==> Distinct(p.f.spec.caches) && OwnLabel(key, p.f.spec)
    ensures OwnPods(t.w)
  {
    PassMoves(s, t, key, J, p);
    OwnedPass(s, t, key, J, p);
    OwnPodsStay(s.w, t.w, MovesOf(p));
  }

  lemma NoneStrandedAfter(s: Sys, t: Sys, key: Key, J: Azure, p: Pass, pool: Key)
    requires PassOf(s, t, key, J, p) && t.led.releaseFaults == s.led.releaseFaults
    requires Regular(key, p, pool) && HoldersStay(s.w, t.w, MovesOf(p), pool)
    requires LabelsOk(s.w.pvcs) && OwnPods(s.w) && Stranded(s.w, pool) == {}
    ensures Stranded(t.w, pool) == {}
  {
    forall c
      ensures c !in Stranded(t.w, pool)
    {
      NotStranded(s, t, key, J, p, pool, c);
    }
  }

  lemma NoneStrandedYet(s: Sys, t: Sys, key: Key, J: Azure, f: FullPass, pool: Key)
    requires FullOf(s, t, key, J, f) && t.led.releaseFaults == s.led.releaseFaults
    requires Regular(key, Pass.Full(f), pool) && HoldersStay(s.w, t.w, MovesOf(Pass.Full(f)), pool)
    requires LabelsOk(s.w.pvcs) && OwnPods(s.w) && Stranded(s.w, pool) == {}
    ensures Stranded(f.cleaned.w, pool) == {}
  {
    StageTimes(s, t, key, J, f);
    forall c
      ensures c !in Stranded(f.cleaned.w, pool)
    {
      NotStrandedYet(s, t, key, J, f, pool, c);
    }
  }

  lemma OwnPodsStay(w: World, v: World, m: Moves)
    requires StoreStep(w, v, m) && GrantsOwned(v, m) && OwnPods(w)
    ensures OwnPods(v)
  {
    forall c | Held(v, c)
      ensures v.pods[HolderOf(v, c)].pool == v.pvcs[c].pool
    {
      OwnPodStays(w, v, m, c);
    }
  }

  lemma OwnPodStays(w: World, v: World, m: Moves, c: Key)
    requires StoreStep(w, v, m) && GrantsOwned(v, m) && Held(v, c)
    requires Held(w, c) ==> w.pods[HolderOf(w, c)].pool == w.pvcs[c].pool
    ensures v.pods[HolderOf(v, c)].pool == v.pvcs[c].pool
  {
    assert Seen(m);
    var k := HolderOf(v, c);
    if c !in m.g {
      var x :| x in v.pods[k].claims && v.pods[k].claims[x] == c.name;
      assert ClaimKey(k, v.pods[k], x) == c;
      assert k !in m.born;
    }
  }

  lemma NotStranded(s: Sys, t: Sys, key: Key, J: Azure, p: Pass, pool: Key, c: Key)
    requires PassOf(s, t, key, J, p) && t.led.releaseFaults == s.led.releaseFaults
    requires Regular(key, p, pool) && HoldersStay(s.w, t.w, MovesOf(p), pool)
    requires LabelsOk(s.w.pvcs) && OwnPods(s.w) && Stranded(s.w, pool) == {}
    ensures c !in Stranded(t.w, pool)
  {
    PassMoves(s, t, key, J, p);
    if c in Stranded(t.w, pool) {
      NewInPool(s.w, t.w, MovesOf(p), pool, c);
      if c in MovesOf(p).g {
        GrantHeld(s, t, key, J, p.f, pool, c);
      } else {
        DeadBirths(s, t, key, J, p);
        if p.Full? {
          NotOrphanedBySweep(s, t, key, J, p.f, c);
        }
        HeldStays(s.w, t.w, MovesOf(p), c);
      }
    }
  }

  /** A claim of the pool that is stranded now was assigned just now, or was held and left alone. */
  lemma NewInPool(w: World, v: World, m: Moves, pool: Key, c: Key)
    requires StoreStep(w, v, m) && LabelsOk(w.pvcs) && Stranded(w, pool) == {} && c in Stranded(v, pool)
    ensures c in m.g || (c !in m.freed && Held(w, c) && InPool(c, w.pvcs[c].pool, pool))
  {
    assert Seen(m);
    if c in w.pvcs && InPool(c, w.pvcs[c].pool, pool) {
      assert c !in Stranded(w, pool);
    }
  }

  /** A held claim that nobody touches stays held while its pod is there. */
  lemma HeldStays(w: World, v: World, m: Moves, c: Key)
    requires StoreStep(w, v, m) && BornOntoDead(w, v, m) && Held(w, c) && c !in m.g && c !in m.freed
    requires HolderOf(w, c) !in m.swept && HolderOf(w, c) !in m.gone && Live(w.(now := v.now), HolderOf(w, c))
    ensures Held(v, c)
  {
    assert Seen(m);
  }

  /** A claim assigned for good in a regular pass is held as long as its pod is there. */
  lemma GrantHeld(s: Sys, t: Sys, key: Key, J: Azure, f: FullPass, pool: Key, c: Key)
    requires FullOf(s, t, key, J, f) && t.led.releaseFaults == s.led.releaseFaults
    requires Regular(key, Pass.Full(f), pool) && HoldersStay(s.w, t.w, MovesOf(Pass.Full(f)), pool)
    requires c in f.growth.g && c in t.w.pvcs && InPool(c, t.w.pvcs[c].pool, pool)
    ensures Held(t.w, c)
  {
    GrantInPool(s, t, key, J, f, c);
    Releases(s, t, key, J, f);
    MountedPass(s, t, key, J, f);
    PassMoves(s, t, key, J, Pass.Full(f));
    MountedIsHeld(s.w, t.w, MovesOf(Pass.Full(f)), pool, c);
  }

  lemma MountedIsHeld(w: World, v: World, m: Moves, pool: Key, c: Key)
    requires StoreStep(w, v, m) && GrantsMounted(v, m) && HoldersStay(w, v, m, pool) && AllBorn(m.g, m.born)
    requires c in m.g && c in v.pvcs && InPool(c, v.pvcs[c].pool, pool)
    ensures Held(v, c)
  {
    assert Seen(m);
    var k := HolderOf(v, c);
    assert k in m.born && k in v.pods;
    assert Names(v.pods[k].claims, c.name);
  }

  /** A claim that was not stranded has become so for one of two reasons. */
  lemma NewlyStranded(w: World, v: World, m: Moves, pool: Key, c: Key)
    requires StoreStep(w, v, m) && FreshNames(w, m) && LabelsOk(w.pvcs) && Stranded(w, pool) == {}
    requires c in Stranded(v, pool)
    ensures LeftOver(v, m, c) || (Orphaned(w, v.now, m, c) && InPool(c, w.pvcs[c].pool, pool))
    ensures c in m.g ==> v.pvcs[c].assignedPod == Some(m.g[c])
  {
    ClaimFate(w, v, m, c);
    assert Seen(m);
    if c in w.pvcs && InPool(c, w.pvcs[c].pool, pool) {
      assert c !in Stranded(w, pool);
    }
  }

  lemma NotStrandedYet(s: Sys, t: Sys, key: Key, J: Azure, f: FullPass, pool: Key, c: Key)
    requires FullOf(s, t, key, J, f) && t.led.releaseFaults == s.led.releaseFaults
    requires key == pool ==> |f.spec.caches| > 0
    requires Held(s.w, c) && InPool(c, s.w.pvcs[c].pool, pool) ==> Live(s.w.(now := f.cleaned.w.now), HolderOf(s.w, c))
    requires LabelsOk(s.w.pvcs) && OwnPods(s.w) && Stranded(s.w, pool) == {}
    ensures c !in Stranded(f.cleaned.w, pool)
  {
    var m := Moves(f.swept, f.freed, {}, map[], {});
    CleanedMoves(s, t, key, J, f);
    if c in Stranded(f.cleaned.w, pool) {
      NewlyStranded(s.w, f.cleaned.w, m, pool, c);
      NotOrphanedBySweep(s, t, key, J, f, c);
    }
  }

  /** With no slot stranded at its start, a pass without failures during which nothing moves ends with
      exactly as many active pods as the target says, or as are busy. */
  lemma TargetReached(s: Sys, t: Sys, key: Key, J: Azure, f: FullPass)
    requires FullOf(s, t, key, J, f) && Frozen(s, t) && NoFault(s, t) && OwnLabel(key, f.spec)
    requires Inv(s.w) && OwnPods(s.w) && Stranded(s.w, key) == {}
    requires DistinctCuts(f.spec.caches) && NamesOwned(s.w.pvcs, key, f.spec) && f.spec.minAgents <= f.spec.maxAgents
    ensures |Active(t.w, key)| == Max(f.Target(), |BusyActive(s.w, key, f.jobs.busyAgentNames)|)
    ensures !f.growth.full
  {
    NeverShort(s, t, key, J, f);
    StageFaults(s, t, key, J, f);
    CreatedExactly(s, t, key, J, f);
    ClaimsPrepared(s, t, key, J, f);
    ActiveAfterPass(s, t, key, J, f);
    HowMany(s, t, key, J, f);
    ScalingTarget(s, t, key, J, f);
  }

  lemma NeverShort(s: Sys, t: Sys, key: Key, J: Azure, f: FullPass)
    requires FullOf(s, t, key, J, f) && Frozen(s, t) && NoFault(s, t)
    requires Inv(s.w) && OwnPods(s.w) && Stranded(s.w, key) == {}
    requires DistinctCuts(f.spec.caches) && NamesOwned(s.w.pvcs, key, f.spec) && f.spec.minAgents <= f.spec.maxAgents
    ensures Distinct(f.spec.caches) && !f.growth.full
  {
    assert Distinct(f.spec.caches);
    NoReleaseFault(s, t, key, J, f);
    if |f.spec.caches| > 0 {
      StageTimes(s, t, key, J, f);
      forall c
        ensures c !in Stranded(f.cleaned.w, key)
      {
        NotStrandedYet(s, t, key, J, f, key, c);
      }
      StageFaults(s, t, key, J, f);
      ProvisionedClaims(s, t, key, J, f);
      ProvisioningSuffices(s, t, key, J, f);
    } else {
      ClaimCounts(s, t, key, J, f);
    }
  }

  lemma NoReleaseFault(s: Sys, t: Sys, key: Key, J: Azure, f: FullPass)
    requires FullOf(s, t, key, J, f) && NoFault(s, t)
    ensures t.led.releaseFaults == s.led.releaseFaults
  {
    assert Open(f);
  }

  /** A single stranded slot in an otherwise lawful store is enough to keep a pool at zero agents. */
  lemma StrandedSlotBlocks(w: World, key: Key, spec: PoolSpec, pod: string)
    requires spec == PoolSpec("ado", 0, 1, ["cache"], map[]) && w.pods == map[]
    requires w.pvcs == map[SlotKey(key, "cache", 0) := Pvc(key.name, "cache", 0, Assigned, Some(pod))]
    ensures Inv(w) && OwnersMount(w) && OwnPods(w) && NamesOwned(w.pvcs, key, spec) && DistinctCuts(spec.caches)
    ensures Stranded(w, key) == {SlotKey(key, "cache", 0)}
    ensures !HasFree(Prepared(w, key, spec), key, spec.caches, 1)
  {
    var c := SlotKey(key, "cache", 0);
    OnlyOnePlanned(w, key, spec, pod);
    assert FreeSlots(Prepared(w, key, spec), key, "cache") == {};
    assert "cache" in spec.caches;
    assert Stranded(w, key) == {c};
  }

  lemma OnlyOnePlanned(w: World, key: Key, spec: PoolSpec, pod: string)
    requires spec == PoolSpec("ado", 0, 1, ["cache"], map[]) && w.pods == map[]
    requires w.pvcs == map[SlotKey(key, "cache", 0) := Pvc(key.name, "cache", 0, Assigned, Some(pod))]
    ensures PlanOf(SlotNamesOf(key), key, spec) + w.pvcs == w.pvcs && Prepared(w, key, spec) == w.pvcs
  {
    var names, c := SlotNamesOf(key), SlotKey(key, "cache", 0);
    var plan := PlanOf(names, key, spec);
    forall d | d in plan
      ensures d == c
    {
      PlanAt(names, key, spec.caches, 1, d);
      var i, s: nat :| 0 <= i < 1 && s < 1 && names(spec.caches[i], s) == d;
    }
    assert plan + w.pvcs == w.pvcs;
    assert CompletedNamesOf(w, key) == {};
    assert ReleaseAll(w.pvcs, {}) == w.pvcs;
  }
}
