/** Why slots get stranded: their pod was deleted by scale-down or from outside, cleanup failed to release them,
    or a rollback failed to give them back. The failures are counted by the calls that failed. */
module Losses {
  import opened Base
  import opened Store
  import opened Ledgers
  import opened Stages
  import opened Passes
  import opened Scaling
  import opened Invariants
  import opened Accounting

  // ----- the causes -----

  /** A held claim that cleanup did not release although it deleted its pod. */
  ghost predicate Unswept(w: World, m: Moves, c: Key) {
    Held(w, c) && c !in m.freed && HolderOf(w, c) in m.swept
  }

  /** A claim whose pod was there, or was created, and has been deleted by scale-down or from outside. */
  ghost predicate Bereft(w: World, v: World, m: Moves, c: Key) {
    || (Held(w, c) && c !in m.freed && HolderOf(w, c) !in m.swept
        && (HolderOf(w, c) in m.gone || !Live(w.(now := v.now), HolderOf(w, c))))
    || (c in m.g && Key(c.ns, m.g[c]) in m.born && !Live(v, Key(c.ns, m.g[c])))
  }

  ghost function ByCleanup(w: World, m: Moves, pool: Key): set<Key> {
    set c | c in w.pvcs && InPool(c, w.pvcs[c].pool, pool) && Unswept(w, m, c)
  }

  ghost function ByDeletion(w: World, v: World, m: Moves, pool: Key): set<Key> {
    set c | c in v.pvcs && InPool(c, v.pvcs[c].pool, pool) && Bereft(w, v, m, c)
  }

  /** Claims assigned to pods that were not created and not given back. */
  function ByRollback(v: World, m: Moves, pool: Key): set<Key> {
    set c | c in Abandoned(m.g, m.born) && c in v.pvcs && InPool(c, v.pvcs[c].pool, pool)
  }

  /** The pods whose claims cleanup did not release. */
  ghost function UnsweptPods(w: World, m: Moves, pool: Key): set<Key> {
    set c | c in ByCleanup(w, m, pool) :: HolderOf(w, c)
  }

  lemma OrphanCause(w: World, v: World, m: Moves, pool: Key, c: Key)
    requires StoreStep(w, v, m) && LabelsOk(w.pvcs)
    ensures c in Orphans(w, v.now, m, pool) ==> c in ByDeletion(w, v, m, pool) + ByCleanup(w, m, pool)
    ensures c in ByCleanup(w, m, pool) ==> c in Orphans(w, v.now, m, pool) && c !in m.g
    ensures c in ByDeletion(w, v, m, pool) && c !in m.g ==> c in Orphans(w, v.now, m, pool)
    ensures c in ByDeletion(w, v, m, pool) && c !in m.g ==> c !in ByCleanup(w, m, pool)
  {
    assert Seen(m);
  }

  lemma LeftOverCause(w: World, v: World, m: Moves, pool: Key, c: Key)
    requires StoreStep(w, v, m) && GrantsMounted(v, m) && LabelsOk(w.pvcs)
    ensures c in LeftOvers(v, m, pool) ==> c in ByDeletion(w, v, m, pool) + ByRollback(v, m, pool)
    ensures c in ByRollback(v, m, pool) ==> c in m.g && c in LeftOvers(v, m, pool)
    ensures c in ByDeletion(w, v, m, pool) && c in m.g ==> c in LeftOvers(v, m, pool) && c !in ByRollback(v, m, pool)
  {
    assert Seen(m);
    if c in m.g && Key(c.ns, m.g[c]) in m.born && Live(v, Key(c.ns, m.g[c])) {
      assert Names(v.pods[Key(c.ns, m.g[c])].claims, c.name);
    }
  }

  /** A slot that got stranded got so for exactly one of three reasons. */
  lemma LossesByCause(w: World, v: World, m: Moves, pool: Key)
    requires StoreStep(w, v, m) && GrantsMounted(v, m) && LabelsOk(w.pvcs)
    ensures var lost := Orphans(w, v.now, m, pool) + LeftOvers(v, m, pool);
      && lost == ByDeletion(w, v, m, pool) + ByCleanup(w, m, pool) + ByRollback(v, m, pool)
      && |lost| == |ByDeletion(w, v, m, pool)| + |ByCleanup(w, m, pool)| + |ByRollback(v, m, pool)|
  {
    var lost := Orphans(w, v.now, m, pool) + LeftOvers(v, m, pool);
    forall c
      ensures c in lost
        <==> c in ByDeletion(w, v, m, pool) || c in ByCleanup(w, m, pool) || c in ByRollback(v, m, pool)
      ensures !(c in ByDeletion(w, v, m, pool) && c in ByCleanup(w, m, pool))
      ensures !(c in ByDeletion(w, v, m, pool) && c in ByRollback(v, m, pool))
      ensures !(c in ByCleanup(w, m, pool) && c in ByRollback(v, m, pool))
    {
      OrphanCause(w, v, m, pool, c);
      LeftOverCause(w, v, m, pool, c);
    }
    ThreeParts(lost, ByDeletion(w, v, m, pool), ByCleanup(w, m, pool), ByRollback(v, m, pool));
  }

  /** The books by cause: with fresh pod names the slots stranded by a step are those that lost their pod to
      scale-down or to somebody outside, those that cleanup failed to release, and those that a rollback failed
      to give back. None that was stranded is released. */
  lemma BooksByCause(w: World, v: World, m: Moves, pool: Key)
    requires StoreStep(w, v, m) && FreshNames(w, m) && GrantsMounted(v, m) && OwnersMount(w)
    ensures Stranded(w, pool) <= Stranded(v, pool)
    ensures Stranded(v, pool) - Stranded(w, pool) ==
      ByDeletion(w, v, m, pool) + ByCleanup(w, m, pool) + ByRollback(v, m, pool)
    ensures |Stranded(v, pool)| == |Stranded(w, pool)|
      + |ByDeletion(w, v, m, pool)| + |ByCleanup(w, m, pool)| + |ByRollback(v, m, pool)|
  {
    Books(w, v, m, pool);
    FreedWereHeld(w, v, m, pool);
    LossesByCause(w, v, m, pool);
    SumsOfParts(Stranded(v, pool), Stranded(w, pool), m.freed, Orphans(w, v.now, m, pool), LeftOvers(v, m, pool),
                ByDeletion(w, v, m, pool), ByCleanup(w, m, pool), ByRollback(v, m, pool));
  }

  lemma DisjointParts(all: set<Key>, a: set<Key>, b: set<Key>, d: set<Key>)
    requires all == a + b + d && |all| == |a| + |b| + |d|
    ensures a <= all && all - a == b + d && |b + d| == |b| + |d|
  {
    assert |b + d| == |b| + |d| - |b * d|;
    assert |a + (b + d)| == |a| + |b + d| - |a * (b + d)|;
    assert a + b + d == a + (b + d);
    assert |a * (b + d)| == 0;
    assert forall c :: c in a && c in b + d ==> c in a * (b + d);
    assert all - a == b + d;
  }

  lemma SumsOfParts(all: set<Key>, a: set<Key>, freed: set<Key>, b: set<Key>, d: set<Key>, x: set<Key>, y: set<Key>,
                    z: set<Key>)
    requires all == a - freed + b + d && |all| == |a - freed| + |b| + |d| && a !! freed
    requires b + d == x + y + z && |b + d| == |x| + |y| + |z|
    ensures a <= all && all - a == x + y + z && |all| == |a| + |x| + |y| + |z|
  {
    assert a - freed == a;
    DisjointParts(all, a, b, d);
  }

  /** The calls to release a claim that failed while scale-up rolled assignments of the pool back. */
  ghost function FailedRollbacks(key: Key, p: Pass, pool: Key): int {
    if p.Full? && key == pool then FailedReleases(p.f.cleaned, p.f.grown) else 0
  }

  /** Those that failed while completed pods of the pool were cleaned up. */
  ghost function FailedCleanups(key: Key, p: Pass, pool: Key): int {
    if p.Full? && key == pool then FailedReleases(p.f.listed, p.f.cleaned) else 0
  }

  lemma FailedByStage(s: Sys, t: Sys, key: Key, J: Azure, p: Pass, pool: Key)
    requires PassOf(s, t, key, J, p)
    ensures 0 <= FailedRollbacks(key, p, pool) && 0 <= FailedCleanups(key, p, pool)
    ensures FailedRollbacks(key, p, pool) + FailedCleanups(key, p, pool) <= FailedReleases(s, t)
    ensures p.Full? && key == pool ==>
      FailedRollbacks(key, p, pool) + FailedCleanups(key, p, pool) == FailedReleases(s, t)
  {
    if p.Full? {
      assert Open(p.f);
    }
  }

  lemma RollbackFaults(s: Sys, t: Sys, key: Key, J: Azure, f: FullPass)
    requires FullOf(s, t, key, J, f) && t.led.reused == s.led.reused && Distinct(f.spec.caches)
    ensures |Abandoned(f.growth.g, f.growth.born)| == FailedReleases(f.cleaned, f.grown)
  {
    assert Open(f);
    Counted(Abandoned(f.growth.g, f.growth.born), FailedReleases(f.cleaned, f.grown));
  }

  /** The slots a pass strands in its rollbacks are as many as the releases that failed there: each failed
      call costs exactly one slot. */
  lemma EachFailedRollbackCostsOne(s: Sys, t: Sys, key: Key, J: Azure, p: Pass, pool: Key)
    requires PassOf(s, t, key, J, p) && t.led.reused == s.led.reused
    requires p.Full? ==> Distinct(p.f.spec.caches)
    ensures |ByRollback(t.w, MovesOf(p), pool)| == FailedRollbacks(key, p, pool)
  {
    if p.Full? {
      var f := p.f;
      RollbackFaults(s, t, key, J, f);
      forall c | c in f.growth.g
        ensures c in t.w.pvcs && InPool(c, t.w.pvcs[c].pool, key)
      {
        ClaimStages(s, t, key, J, f);
        GrantInPool(s, t, key, J, f, c);
      }
      assert key == pool ==> ByRollback(t.w, MovesOf(p), pool) == Abandoned(f.growth.g, f.growth.born);
      assert key != pool ==> ByRollback(t.w, MovesOf(p), pool) == {};
    } else {
      assert ByRollback(t.w, MovesOf(p), pool) == {};
    }
  }

  /** The pods whose slots a pass strands in its cleanup are no more than the releases that failed there, and
      none of them is another pool's. */
  lemma FailedCleanupsBound(s: Sys, t: Sys, key: Key, J: Azure, p: Pass, pool: Key)
    requires PassOf(s, t, key, J, p) && OwnPods(s.w)
    requires p.Full? && key == pool ==> |p.f.spec.caches| > 0
    ensures |UnsweptPods(s.w, MovesOf(p), pool)| <= FailedCleanups(key, p, pool)
  {
    var pods := UnsweptPods(s.w, MovesOf(p), pool);
    if p.Full? {
      forall c | c in ByCleanup(s.w, MovesOf(p), pool)
        ensures key == pool
        ensures HolderOf(s.w, c).ns == key.ns
        ensures HolderOf(s.w, c).name in Unreleased(p.f.cleaned.w.pvcs, key, CompletedNames(p.f.items))
      {
        UnsweptIsUnreleased(s, t, key, J, p.f, pool, c);
      }
      if key == pool {
        InjectionCard(pods, Unreleased(p.f.cleaned.w.pvcs, key, CompletedNames(p.f.items)), (k: Key) => k.name);
        CleanupFaults(s, t, key, J, p.f);
      } else {
        assert pods == {};
      }
    } else {
      assert pods == {};
    }
  }

  lemma UnsweptIsUnreleased(s: Sys, t: Sys, key: Key, J: Azure, f: FullPass, pool: Key, c: Key)
    requires FullOf(s, t, key, J, f) && OwnPods(s.w) && c in ByCleanup(s.w, MovesOf(Pass.Full(f)), pool)
    ensures key == pool && HolderOf(s.w, c).ns == key.ns
    ensures HolderOf(s.w, c).name in Unreleased(f.cleaned.w.pvcs, key, CompletedNames(f.items))
  {
    ClaimStages(s, t, key, J, f);
    ProvisionedClaims(s, t, key, J, f);
    OnlyFreeAdded(s.w.pvcs, f.provisioned.w.pvcs, key, f.spec);
    PodStages(s, t, key, J, f);
    ListedCompleted(f.items, f.listed.w, key);
    assert s.w.pods[HolderOf(s.w, c)].pool == s.w.pvcs[c].pool;
    assert c in SlotsOf(f.cleaned.w.pvcs, key, HolderOf(s.w, c).name);
  }

  /** No pod takes two slots of one template with it, so cleanup strands no more slots of a template than
      releases failed. */
  lemma UnsweptSlots(w: World, m: Moves, pool: Key, cache: string)
    requires ClaimsOk(w)
    ensures |ByCleanup(w, m, pool) * Slots(w.pvcs, pool, cache)| <= |UnsweptPods(w, m, pool)|
  {
    var lost := ByCleanup(w, m, pool) * Slots(w.pvcs, pool, cache);
    forall c, d | c in lost && d in lost && HolderOf(w, c) == HolderOf(w, d)
      ensures c == d
    {
      MountsByTemplate(w, HolderOf(w, c), c);
      MountsByTemplate(w, HolderOf(w, d), d);
    }
    InjectionCard(lost, UnsweptPods(w, m, pool), c => HolderOf(w, c));
  }

  /** The books of any pool over a pass of any pool, with fresh pod names: the slots stranded afterwards are
      those there were, none of which is released, those whose pods were deleted by scale-down or from outside,
      those that cleanup did not release, and one for each failed release of a rollback. Cleanup fails to
      release the slots of at most as many pods as releases failed in it. */
  lemma PassBooks(s: Sys, t: Sys, key: Key, J: Azure, p: Pass, pool: Key)
    requires PassOf(s, t, key, J, p) && t.led.reused == s.led.reused
    requires p.Full? ==> Distinct(p.f.spec.caches) && OwnLabel(key, p.f.spec)
    requires OwnersMount(s.w) && OwnPods(s.w)
    ensures Stranded(s.w, pool) <= Stranded(t.w, pool)
    ensures Stranded(t.w, pool) - Stranded(s.w, pool) ==
      ByDeletion(s.w, t.w, MovesOf(p), pool) + ByCleanup(s.w, MovesOf(p), pool) + ByRollback(t.w, MovesOf(p), pool)
    ensures |Stranded(t.w, pool)| == |Stranded(s.w, pool)|
      + |ByDeletion(s.w, t.w, MovesOf(p), pool)| + |ByCleanup(s.w, MovesOf(p), pool)| + FailedRollbacks(key, p, pool)
    ensures (p.Full? && key == pool ==> |p.f.spec.caches| > 0) ==>
      |UnsweptPods(s.w, MovesOf(p), pool)| <= FailedCleanups(key, p, pool)
    ensures FailedRollbacks(key, p, pool) + FailedCleanups(key, p, pool) <= FailedReleases(s, t)
  {
    PassMoves(s, t, key, J, p);
    FreshPass(s, t, key, J, p);
    BooksByCause(s.w, t.w, MovesOf(p), pool);
    EachFailedRollbackCostsOne(s, t, key, J, p, pool);
    FailedByStage(s, t, key, J, p, pool);
    if p.Full? && key == pool ==> |p.f.spec.caches| > 0 {
      FailedCleanupsBound(s, t, key, J, p, pool);
    }
  }

  /** If no release failed, cleanup orphans no claim. */
  lemma SweptAreReleased(s: Sys, t: Sys, key: Key, J: Azure, f: FullPass, c: Key)
    requires FullOf(s, t, key, J, f) && OwnPods(s.w) && |f.spec.caches| > 0
    requires f.cleaned.led.releaseFaults == f.listed.led.releaseFaults
    requires Held(s.w, c) && HolderOf(s.w, c) in Completed(f.listed.w, key)
    ensures c in f.freed
  {
    Releases(s, t, key, J, f);
    ClaimStages(s, t, key, J, f);
    ProvisionedClaims(s, t, key, J, f);
    OnlyFreeAdded(s.w.pvcs, f.provisioned.w.pvcs, key, f.spec);
    ListedCompleted(f.items, f.listed.w, key);
    assert s.w.pods[HolderOf(s.w, c)].pool == s.w.pvcs[c].pool;
  }

  lemma NotOrphanedBySweep(s: Sys, t: Sys, key: Key, J: Azure, f: FullPass, c: Key)
    requires FullOf(s, t, key, J, f) && OwnPods(s.w) && t.led.releaseFaults == s.led.releaseFaults
    requires Held(s.w, c) && c !in f.freed && (InPool(c, s.w.pvcs[c].pool, key) ==> |f.spec.caches| > 0)
    ensures HolderOf(s.w, c) !in f.swept
  {
    Releases(s, t, key, J, f);
    PodStages(s, t, key, J, f);
    ListedCompleted(f.items, f.listed.w, key);
    if HolderOf(s.w, c) in f.swept {
      assert s.w.pods[HolderOf(s.w, c)].pool == key.name;
      SweptAreReleased(s, t, key, J, f, c);
    }
  }

  /** Without a failed release, what is left over belongs to a new pod that somebody already deleted. */
  lemma NotLeftOver(s: Sys, t: Sys, key: Key, J: Azure, f: FullPass, c: Key)
    requires FullOf(s, t, key, J, f) && t.led.releaseFaults == s.led.releaseFaults && t.led.reused == s.led.reused
    requires Distinct(f.spec.caches) && OwnLabel(key, f.spec) && LeftOver(t.w, MovesOf(Pass.Full(f)), c)
    ensures HolderOf(t.w, c) in f.growth.born && HolderOf(t.w, c) in t.w.pods && !Live(t.w, HolderOf(t.w, c))
  {
    PassSteps(s, t, key, J, Pass.Full(f));
    FreshPass(s, t, key, J, Pass.Full(f));
    Releases(s, t, key, J, f);
    var k := HolderOf(t.w, c);
    assert k in f.growth.born && k in t.w.pods;
    assert Names(t.w.pods[k].claims, c.name);
  }

  /** Without a failed release, slots of a pool with cache volumes are stranded only when their pod is
      deleted by scale-down or from outside. */
  lemma OnlyDeletionsStrand(s: Sys, t: Sys, key: Key, J: Azure, p: Pass, c: Key)
    requires PassOf(s, t, key, J, p) && t.led.releaseFaults == s.led.releaseFaults && t.led.reused == s.led.reused
    requires p.Full? ==> Distinct(p.f.spec.caches) && OwnLabel(key, p.f.spec)
    requires OwnPods(s.w)
    ensures (Orphaned(s.w, t.w.now, MovesOf(p), c)
             && (p.Full? && InPool(c, s.w.pvcs[c].pool, key) ==> |p.f.spec.caches| > 0)) ==>
      HolderOf(s.w, c) in MovesOf(p).gone || !Live(s.w.(now := t.w.now), HolderOf(s.w, c))
    ensures LeftOver(t.w, MovesOf(p), c) ==>
      HolderOf(t.w, c) in MovesOf(p).born && HolderOf(t.w, c) in t.w.pods && !Live(t.w, HolderOf(t.w, c))
  {
    if p.Full? {
      if Orphaned(s.w, t.w.now, MovesOf(p), c) && (InPool(c, s.w.pvcs[c].pool, key) ==> |p.f.spec.caches| > 0) {
        NotOrphanedBySweep(s, t, key, J, p.f, c);
      }
      if LeftOver(t.w, MovesOf(p), c) {
        NotLeftOver(s, t, key, J, p.f, c);
      }
    }
  }

  // ----- deletions -----

  /** Scale-down strands the claims of the pods it deletes: nothing releases them. */
  lemma ScaleDownStrands(s: Sys, t: Sys, key: Key, J: Azure, f: FullPass, c: Key)
    requires FullOf(s, t, key, J, f) && LabelsOk(s.w.pvcs)
    requires Held(s.w, c) && HolderOf(s.w, c) in f.gone
    ensures StrandedAt(t.w, c)
  {
    NotReleased(s, t, key, J, f, c);
    NoNamesWhenShrinking(s, t, key, J, f);
    PassMoves(s, t, key, J, Pass.Full(f));
    FreshPass(s, t, key, J, Pass.Full(f));
    ClaimFate(s.w, t.w, MovesOf(Pass.Full(f)), c);
  }

  /** A pass that scales down chooses no pod names. */
  lemma NoNamesWhenShrinking(s: Sys, t: Sys, key: Key, J: Azure, f: FullPass)
    requires FullOf(s, t, key, J, f) && f.gone != {}
    ensures t.led.reused == s.led.reused
  {
    NeverBothWays(s, t, key, J, f);
    HowMany(s, t, key, J, f);
    PodCounts(s, t, key, J, f);
    NamesChosen(s, t, key, J, f);
  }

  lemma NamesChosen(s: Sys, t: Sys, key: Key, J: Azure, f: FullPass)
    requires FullOf(s, t, key, J, f)
    ensures t.led.reused - s.led.reused == f.grown.led.reused - f.cleaned.led.reused
  {
    assert Open(f);
  }

  /** So does cleanup once the last cache volume has been taken out of the spec: it releases nothing then. */
  lemma UncachedCleanupStrands(s: Sys, t: Sys, key: Key, J: Azure, f: FullPass, c: Key)
    requires FullOf(s, t, key, J, f) && t.led.reused == s.led.reused && LabelsOk(s.w.pvcs)
    requires f.spec.caches == [] && Held(s.w, c) && HolderOf(s.w, c) in f.swept
    ensures StrandedAt(t.w, c)
  {
    CleanStages(s, t, key, J, f);
    PassMoves(s, t, key, J, Pass.Full(f));
    FreshPass(s, t, key, J, Pass.Full(f));
    ClaimFate(s.w, t.w, MovesOf(Pass.Full(f)), c);
  }

  /** Nothing held by a pod that scale-down deletes was released by cleanup. */
  lemma NotReleased(s: Sys, t: Sys, key: Key, J: Azure, f: FullPass, c: Key)
    requires FullOf(s, t, key, J, f) && Held(s.w, c) && HolderOf(s.w, c) in f.gone
    ensures c !in f.freed
  {
    GoneWereActive(s, t, key, J, f);
    ReleasedWereCompleted(s, t, key, J, f);
  }

  lemma GoneWereActive(s: Sys, t: Sys, key: Key, J: Azure, f: FullPass)
    requires FullOf(s, t, key, J, f)
    ensures f.gone <= Active(f.listed.w, key)
  {
    PodStages(s, t, key, J, f);
    ListedIdle(f.items, f.listed.w, key, f.jobs.busyAgentNames);
  }

  lemma ReleasedWereCompleted(s: Sys, t: Sys, key: Key, J: Azure, f: FullPass)
    requires FullOf(s, t, key, J, f)
    ensures forall c :: c in f.freed ==> HolderOf(s.w, c) in Completed(f.listed.w, key)
  {
    ClaimStages(s, t, key, J, f);
    ProvisionedClaims(s, t, key, J, f);
    OnlyFreeAdded(s.w.pvcs, f.provisioned.w.pvcs, key, f.spec);
    ReleasesKnown(s.w, f.listed.w, key, f.items, f.freed);
  }

  lemma GrantInPool(s: Sys, t: Sys, key: Key, J: Azure, f: FullPass, c: Key)
    requires FullOf(s, t, key, J, f) && c in f.growth.g && c in t.w.pvcs
    ensures InPool(c, t.w.pvcs[c].pool, key)
  {
    ClaimStages(s, t, key, J, f);
  }
}
