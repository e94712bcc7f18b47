/** The control loop: one reconcile pass and its stages. */
module Controller {
  import opened Base
  import opened Naming
  import opened Store
  import opened Ledgers
  import opened Clusters
  import opened Jobs
  import opened Allocator
  import opened Stages
  import opened Passes

  // ----- cleanup -----

  /** One iteration: releases the claims of a completed pod and deletes it, even if the release failed. */
  method CleanupPod(c: Cluster, pool: AgentPool, name: string)
    returns (ok: bool, ghost freed: set<Key>, ghost gone: set<Key>)
    requires c.Ok() && !ActiveNow(c.View(), Key(pool.key.ns, name))
    modifies c
    ensures c.Ok() && IsCleaned(old(c.S()), c.S(), pool.key, |pool.spec.caches| > 0, {name}, freed, gone, ok)
    ensures c.pools == old(c.pools)
  {
    ghost var s := c.S();
    var released := true;
    freed := {};
    assert ReleaseAll(s.w.pvcs, {}) == s.w.pvcs;
    if |pool.spec.caches| > 0 {
      ghost var listed;
      released, freed, listed := ReleasePVCsForPod(c, pool.key, name);
    }
    ghost var m := c.S();
    assert ReleasedFor(s, m, pool.key, |pool.spec.caches| > 0, name, freed, released);
    var reply;
    reply, gone := TryDelete(c, Key(pool.key.ns, name));
    ok := released && reply != Unavailable;
    CleanedOne(s, m, c.S(), pool.key, |pool.spec.caches| > 0, name, freed, gone, released, ok);
  }

  /** One delete call; that the pod is gone already is no failure. */
  method TryDelete(c: Cluster, k: Key) returns (reply: Reply, ghost gone: set<Key>)
    requires c.Ok()
    modifies c
    ensures c.Ok() && DeletedOne(old(c.S()), c.S(), k, gone)
    ensures gone == if reply == Done then {k} else {}
    ensures reply == Unavailable <==> !NoFault(old(c.S()), c.S())
  {
    assert old(c.pods) - {} == old(c.pods);
    reply := c.DeletePod(k);
    gone := if reply == Done then {k} else {};
  }

  method CleanupCompletedPods(c: Cluster, pool: AgentPool, items: seq<PodItem>)
    returns (ok: bool, ghost freed: set<Key>, ghost gone: set<Key>)
    requires c.Ok() && ListsPods(items, c.View(), pool.key)
    modifies c
    ensures c.Ok()
    ensures IsCleaned(old(c.S()), c.S(), pool.key, |pool.spec.caches| > 0, CompletedNames(items), freed, gone, ok)
    ensures c.pools == old(c.pools)
  {
    ghost var s := c.S();
    ghost var names := {};
    ok, freed, gone := true, {}, {};
    CleanedNothing(s, pool.key, |pool.spec.caches| > 0);
    for i := 0 to |items|
      invariant c.Ok() && IsCleaned(s, c.S(), pool.key, |pool.spec.caches| > 0, names, freed, gone, ok)
      invariant c.pools == old(c.pools)
      invariant names == CompletedNames(items[..i])
    {
      CompletedNamesStep(items, i);
      if IsCompleted(items[i].phase) {
        ghost var r := c.S();
        StaysCompleted(s, r, pool.key, |pool.spec.caches| > 0, items, i, names, freed, gone, ok);
        var done;
        ghost var f, g;
        done, f, g := CleanupPod(c, pool, items[i].name);
        CleanedStep(s, r, c.S(), pool.key, |pool.spec.caches| > 0, names, freed, gone, ok, items[i].name, f, g, done);
        names, freed, gone, ok := names + {items[i].name}, freed + f, gone + g, ok && done;
      }
    }
    assert items[..|items|] == items;
  }

  /** A pod listed as completed does not run again. */
  lemma StaysCompleted(s: Sys, t: Sys, pool: Key, hasCaches: bool, items: seq<PodItem>, i: nat,
                       names: set<string>, freed: set<Key>, gone: set<Key>, ok: bool)
    requires ListsPods(items, s.w, pool) && i < |items| && IsCompleted(items[i].phase)
    requires IsCleaned(s, t, pool, hasCaches, names, freed, gone, ok)
    ensures !ActiveNow(t.w, Key(pool.ns, items[i].name)) && items[i].name !in CompletedNames(items[..i])
  {
    assert Detail(gone);
    assert ItemKey(pool, items[i]) in Members(s.w, pool);
  }

  lemma CompletedNamesStep(items: seq<PodItem>, i: nat)
    requires i < |items|
    ensures CompletedNames(items[..i + 1]) ==
      CompletedNames(items[..i]) + (if IsCompleted(items[i].phase) then {items[i].name} else {})
  {
  }

  // ----- scale-up -----

  /** An arbitrary string of lower-case letters and digits. */
  method RandomString(n: nat) returns (s: string)
    ensures |s| == n && forall i :: 0 <= i < |s| ==> 'a' <= s[i] <= 'z' || '0' <= s[i] <= '9'
  {
    s := "";
    while |s| < n
      invariant |s| <= n && forall i :: 0 <= i < |s| ==> 'a' <= s[i] <= 'z' || '0' <= s[i] <= '9'
    {
      var b: char := *;
      s := s + [if 'a' <= b <= 'z' || '0' <= b <= '9' then b else 'a'];
    }
  }

  /** The volumes of an agent pod: one per template an assignment names a claim for. */
  function PodClaims(caches: seq<string>, picked: map<string, string>): map<string, string> {
    map v | v in caches && v in picked :: picked[v]
  }

  method CreateAgentPod(c: Cluster, pool: AgentPool) returns (ok: bool, ghost b: Birth)
    requires c.Ok()
    requires var p := Key(pool.key.ns, AgentLabel(pool.key, pool.spec));
      p in c.bounds ==> |Active(c.View(), p)| < c.bounds[p]
    modifies c
    ensures c.Ok() && IsCreated(old(c.S()), c.S(), pool.key, pool.spec, b) && b.ok == ok
    ensures Grows(old(c.S()), c.S()) && c.pools == old(c.pools) && NamesTried(old(c.S()), c.S()) == 1
    ensures if ok then !b.full && NoFault(old(c.S()), c.S()) else b.full || !NoFault(old(c.S()), c.S())
    ensures b.full ==> WroteUnlessBare(old(c.S()), c.S(), pool.key, pool.spec.caches)
    ensures exists x :: IsSuffix(x) && b.k.name == PodName(pool.key.name, x)
  {
    var suffix := RandomString(6);
    var name := PodName(pool.key.name, suffix);
    NamedAsAgent(pool.key, Key(pool.key.ns, name), suffix);
    ok, b := CreateNamedPod(c, pool, Key(pool.key.ns, name));
  }

  method CreateNamedPod(c: Cluster, pool: AgentPool, k: Key) returns (ok: bool, ghost b: Birth)
    requires c.Ok() && k.ns == pool.key.ns && AgentNamed(pool.key, k)
    requires var p := Key(pool.key.ns, AgentLabel(pool.key, pool.spec));
      p in c.bounds ==> |Active(c.View(), p)| < c.bounds[p]
    modifies c
    ensures c.Ok() && Created(old(c.S()), c.S(), pool.key, pool.spec, b) && b.ok == ok && b.k == k
  {
    ghost var s := c.S();
    c.NameChosen(!Unborn(c.View(), k));
    ghost var r := c.S();
    var picked;
    ghost var g, full;
    ok, picked, g, full := FindAndAssignPVCs(c, pool, k.name);
    b := Birth(ok, k, g, full);
    if ok {
      ActiveShrinks(s.w, c.now, Key(k.ns, AgentLabel(pool.key, pool.spec)));
      ActiveIgnoresClaims(c.View(), s.w.(now := c.now), Key(k.ns, AgentLabel(pool.key, pool.spec)));
      ok, b := PlacePod(c, r, pool, k, picked, g);
    }
  }

  /** The pod is created with the claims picked for it since state `r`, or they are given back. */
  method PlacePod(c: Cluster, ghost r: Sys, pool: AgentPool, k: Key, picked: map<string, string>,
                  ghost g: map<Key, string>)
    returns (ok: bool, ghost b: Birth)
    requires c.Ok() && k.ns == pool.key.ns && AgentNamed(pool.key, k) && Valid(r, c.bounds) && NoFault(r, c.S())
    requires Assigns(r, c.S(), pool.key, pool.spec.caches, k.name, g)
    requires OnePerCache(r.w.pvcs, pool.key.ns, pool.spec.caches, picked, g)
    requires var p := Key(pool.key.ns, AgentLabel(pool.key, pool.spec));
      p in c.bounds ==> |Active(c.View(), p)| < c.bounds[p]
    modifies c
    ensures c.Ok() && CreatedOrNot(r, c.S(), pool.key, pool.spec, b) && b.ok == ok && b.k == k
    ensures c.led.reused == r.led.reused && c.led.named == r.led.named
  {
    var poolLabel := AgentLabel(pool.key, pool.spec);
    var claims := PodClaims(pool.spec.caches, picked);
    OwnsWhatItGot(r.w.pvcs, pool.spec.caches, k, picked, g, poolLabel);
    ghost var q := c.S();
    var pod;
    ok, pod := SubmitPod(c, k, poolLabel, claims);
    if ok {
      b := Birth(true, k, g, false);
      Placed(r, q, c.S(), pool.key, pool.spec, k, picked, g, pod);
    } else {
      PickedStays(r, q, c.S(), pool.key, pool.spec, k, g);
      b := GiveBack(c, r, pool, k, picked, g);
    }
  }

  lemma PickedStays(r: Sys, q: Sys, t: Sys, pool: Key, spec: PoolSpec, k: Key, g: map<Key, string>)
    requires Assigns(r, q, pool, spec.caches, k.name, g) && Passive(q, t)
    ensures Assigns(r, t, pool, spec.caches, k.name, g)
  {
  }

  method SubmitPod(c: Cluster, k: Key, poolLabel: string, claims: map<string, string>) returns (ok: bool, pod: Pod)
    requires c.Ok() && OwnsClaims(c.pvcs, k, Pod(poolLabel, claims, Fate(None, None, false, None)))
    requires var p := Key(k.ns, poolLabel); p in c.bounds ==> |Active(c.View(), p)| < c.bounds[p]
    modifies c
    ensures c.Ok() && Grows(old(c.S()), c.S())
    ensures !ok ==> Passive(old(c.S()), c.S()) && FailedCalls(old(c.S()), c.S()) == 1
    ensures ok ==>
      && c.View() == old(c.View()).(now := c.now, pods := old(c.pods)[k := pod])
      && c.led == old(c.led).(writes := old(c.led).writes + 1)
      && pod.pool == poolLabel && pod.claims == claims && PhaseAt(pod.fate, c.now) == Some(Pending)
      && !Live(old(c.View()).(now := c.now), k)
  {
    pod := *;
    ok := c.SetControllerReference();
    if ok {
      ok, pod := c.CreatePod(k, poolLabel, claims);
    }
  }

  /** The claims picked since state `r` for a pod that could not be created. */
  method GiveBack(c: Cluster, ghost r: Sys, pool: AgentPool, ghost k: Key, picked: map<string, string>,
                  ghost g: map<Key, string>)
    returns (ghost b: Birth)
    requires c.Ok() && k.ns == pool.key.ns && AgentNamed(pool.key, k) && Valid(r, c.bounds)
    requires FailedCalls(r, c.S()) == 1 && c.led.releaseFaults == r.led.releaseFaults
    requires Assigns(r, c.S(), pool.key, pool.spec.caches, k.name, g)
    requires OnePerCache(r.w.pvcs, pool.key.ns, pool.spec.caches, picked, g)
    modifies c
    ensures c.Ok() && CreatedOrNot(r, c.S(), pool.key, pool.spec, b) && !b.ok && b.k == k
    ensures c.led.reused == old(c.led.reused) && c.led.named == old(c.led.named)
  {
    ghost var m := c.S();
    ghost var left := Rollback(c, r, pool, pool.spec.caches, k.name, picked, g);
    b := Birth(false, k, left, false);
    NotPlaced(r, m, c.S(), pool.key, pool.spec, b);
  }

  lemma Placed(r: Sys, q: Sys, t: Sys, pool: Key, spec: PoolSpec, k: Key, picked: map<string, string>,
               g: map<Key, string>, pod: Pod)
    requires Assigns(r, q, pool, spec.caches, k.name, g) && OnePerCache(r.w.pvcs, pool.ns, spec.caches, picked, g)
    requires NoFault(r, q) && Grows(q, t) && k.ns == pool.ns && AgentNamed(pool, k)
    requires t.w == q.w.(now := t.w.now, pods := q.w.pods[k := pod]) && t.led == q.led.(writes := q.led.writes + 1)
    requires pod.pool == AgentLabel(pool, spec) && pod.claims == picked && PhaseAt(pod.fate, t.w.now) == Some(Pending)
    requires !Live(q.w.(now := t.w.now), k)
    ensures CreatedOrNot(r, t, pool, spec, Birth(true, k, g, false))
  {
  }

  lemma NotPlaced(r: Sys, m: Sys, t: Sys, pool: Key, spec: PoolSpec, b: Birth)
    requires Assigns(r, t, pool, spec.caches, b.k.name, b.g) && b.k.ns == pool.ns && AgentNamed(pool, b.k)
    requires !b.ok && !b.full
    requires FailedCalls(r, m) == 1 && m.led.releaseFaults == r.led.releaseFaults && OtherFaults(m, t) == 0
    requires Distinct(spec.caches) && t.led.releaseFaults == m.led.releaseFaults ==> b.g == map[]
    requires Distinct(spec.caches) ==> Counts(b.g.Keys, FailedReleases(m, t))
    ensures CreatedOrNot(r, t, pool, spec, b)
  {
  }

  lemma OwnsWhatItGot(p: Pvcs, caches: seq<string>, k: Key, picked: map<string, string>, g: map<Key, string>,
                      poolLabel: string)
    requires OnePerCache(p, k.ns, caches, picked, g) && forall c :: c in g ==> g[c] == k.name
    ensures PodClaims(caches, picked) == picked
    ensures OwnsClaims(Grant(p, g), k, Pod(poolLabel, picked, Fate(None, None, false, None)))
  {
  }

  lemma ActiveIgnoresClaims(w: World, v: World, pool: Key)
    requires w.pods == v.pods && w.now == v.now
    ensures Active(w, pool) == Active(v, pool)
  {
  }

  /** The scale-up loop of Reconcile: creates up to `toCreate` pods, stopping at the first failure. */
  method CreateAgents(c: Cluster, pool: AgentPool, toCreate: int) returns (created: nat, ghost u: Growth)
    requires c.Ok()
    requires var p := Key(pool.key.ns, AgentLabel(pool.key, pool.spec));
      p in c.bounds && toCreate > 0 ==> |Active(c.View(), p)| + toCreate <= c.bounds[p]
    modifies c
    ensures c.Ok() && IsGrown(old(c.S()), c.S(), pool.key, pool.spec, u) && u.created == created
    ensures c.pools == old(c.pools)
    ensures created <= (if toCreate > 0 then toCreate else 0)
    ensures created < toCreate ==> u.full || !NoFault(old(c.S()), c.S())
    ensures u.full ==> created < toCreate
    ensures u.full && created == 0 ==> WroteUnlessBare(old(c.S()), c.S(), pool.key, pool.spec.caches)
    ensures NamesTried(old(c.S()), c.S()) == created + (if created < toCreate then 1 else 0)
    ensures toCreate <= 0 ==> c.S() == old(c.S())
  {
    ghost var s := c.S();
    ghost var p := Key(pool.key.ns, AgentLabel(pool.key, pool.spec));
    created, u := 0, Growth(0, {}, map[], false);
    GrownNothing(s, pool.key, pool.spec);
    NowSafe(s, c.bounds);
    while created < toCreate
      invariant c.Ok() && IsGrown(s, c.S(), pool.key, pool.spec, u) && u.created == created && !u.full
      invariant Grows(s, c.S()) && c.pools == old(c.pools)
      invariant toCreate > 0 ==> created <= toCreate
      invariant created == 0 ==> c.S() == s
      invariant NamesTried(s, c.S()) == created
      invariant created > 0 ==> toCreate > 0
    {
      ghost var r := c.S();
      GrownActive(s, r, pool.key, pool.spec, u, p);
      var ok;
      ghost var b;
      ok, b := CreateAgentPod(c, pool);
      GrownStep(s, r, c.S(), pool.key, pool.spec, u, b);
      u := Grow(u, b);
      if !ok {
        return;
      }
      created := created + 1;
    }
  }

  // ----- scale-down -----

  method CountActivePods(items: seq<PodItem>) returns (n: nat, active: seq<PodItem>)
    ensures active == ActiveItems(items) && n == |active|
  {
    active := [];
    for i := 0 to |items|
      invariant active == ActiveItems(items[..i])
    {
      assert items[..i + 1][..i] == items[..i];
      if items[i].phase == Running || items[i].phase == Pending {
        active := active + [items[i]];
      }
    }
    assert items[..|items|] == items;
    n := |active|;
  }

  /** Deletes up to `count` of the listed pods, skipping those whose agents are busy. */
  method ScaleDown(c: Cluster, pool: AgentPool, items: seq<PodItem>, count: int, busy: set<string>)
    returns (deleted: nat, ghost gone: set<Key>)
    requires c.Ok() && DistinctNames(items)
    modifies c
    ensures c.Ok() && IsShrunk(old(c.S()), c.S(), pool.key, items, count, busy, gone) && deleted == |gone|
    ensures c.pools == old(c.pools)
  {
    ghost var s := c.S();
    deleted, gone := 0, {};
    ShrunkNothing(s, pool.key, count, busy);
    assert items[..0] == [];
    var i := 0;
    while i < |items| && deleted < count
      invariant 0 <= i <= |items| && deleted == |gone|
      invariant c.Ok() && IsShrunk(s, c.S(), pool.key, items[..i], count, busy, gone) && c.pools == old(c.pools)
      invariant forall j :: i <= j < |items| ==> ItemKey(pool.key, items[j]) !in gone
    {
      if items[i].name in busy {
        ShrunkSkip(s, c.S(), pool.key, items, i, count, busy, gone);
      } else {
        ghost var r := c.S();
        var reply;
        ghost var g;
        reply, g := TryDelete(c, ItemKey(pool.key, items[i]));
        ShrunkStep(s, r, c.S(), pool.key, items, i, count, busy, gone, g);
        gone := gone + g;
        if reply == Done {
          deleted := deleted + 1;
        }
      }
      i := i + 1;
    }
    ShrunkWhole(s, c.S(), pool.key, items, i, count, busy, gone);
  }

  // ----- the placeholder agent -----

  /** Registers the placeholder when no agents are wanted, and unregisters it when some are. */
  method ManageDummyAgent(c: Cluster, pool: AgentPool, desired: int) returns (ok: bool, ghost a: DummyAction)
    requires c.Ok()
    modifies c, pool
    ensures c.Ok()
    ensures Managed(old(c.S()), c.S(), old(pool.status).poolID, DummyName(pool.key.name), desired,
                    old(pool.status).dummyAgentID, a)
    ensures pool.status == old(pool.status).(dummyAgentID := DummyAfter(a, old(pool.status).dummyAgentID))
    ensures pool.finalizer == old(pool.finalizer)
    ensures ok <==> !a.RegisterFailed? && !a.UnregisterFailed?
  {
    var dummyName := DummyName(pool.key.name);
    a, ok := NoAction, true;
    if desired == 0 && pool.status.dummyAgentID == 0 {
      var found, id := c.GetAgentByName(pool.status.poolID, dummyName);
      if found && id > 0 {
        pool.status := pool.status.(dummyAgentID := ToInt32(id));
        a := Recovered(id);
        return;
      }
      ok, id := c.RegisterDummyAgent(pool.status.poolID, dummyName);
      if !ok {
        a := RegisterFailed;
        return;
      }
      pool.status := pool.status.(dummyAgentID := ToInt32(id));
      a := Registered(id);
      return;
    }
    if desired > 0 && pool.status.dummyAgentID != 0 {
      ok := c.UnregisterAgent(pool.status.poolID, pool.status.dummyAgentID);
      if !ok {
        a := UnregisterFailed;
        return;
      }
      pool.status := pool.status.(dummyAgentID := 0);
      a := Unregistered;
    }
  }

  // ----- the pass -----

  datatype Result = Finished | Requeue | Error

  /** What a pass tells the work queue: to retry when a call failed that it reports, else to come back after the
      interval, or nothing when there is nothing more to do. */
  ghost predicate Answers(r: Result, s: Sys, t: Sys, p: Pass) {
    r == if FailedApi(s, t) > 0 || (p.Full? && !p.f.saved) then Error
         else if p.Stopped? || p.Full? then Requeue
         else Finished
  }

  /** Reads the access token. On failure the condition is reported and errors of that are ignored. */
  method FetchPAT(c: Cluster, pool: AgentPool) returns (ok: bool)
    requires c.Ok() && pool.key in c.pools && c.pools[pool.key].status == pool.status
    modifies c
    ensures c.Ok() && c.View() == old(c.View()).(now := c.now) && Grows(old(c.S()), c.S())
    ensures if ok then c.led == old(c.led).(tokens := old(c.led).tokens + 1)
            else Unloaded(old(c.S()), c.S(), pool.status) && c.led.tokens == old(c.led).tokens
  {
    SameStatus(c.pools, pool.key);
    ok := c.ReadToken(pool);
    if !ok {
      var _ := c.UpdateStatus(pool);
    }
  }

  /** Asks for the id of the ADO pool and caches it in the status. */
  method ResolvePoolID(c: Cluster, pool: AgentPool) returns (ok: bool)
    requires c.Ok() && pool.key in c.pools && pool.Image() == c.pools[pool.key] && pool.status.poolID == 0
    modifies c, pool
    ensures c.Ok() && pool.finalizer == old(pool.finalizer)
    ensures c.led.tokens == old(c.led).tokens
    ensures if ok then Located(old(c.S()), c.S(), pool.key, c.azure, pool.status)
            else Unloaded(old(c.S()), c.S(), old(pool.status))
  {
    SameStatus(c.pools, pool.key);
    ghost var s := c.S();
    var found, id := c.GetPoolID(pool);
    if !found {
      var _ := c.UpdateStatus(pool);
      return false;
    }
    assert IsPoolID(c.azure, pool.spec.poolName, c.now, ToInt32(id));
    pool.status := pool.status.(poolID := ToInt32(id));
    ok := c.UpdateStatus(pool);
  }

  method HandleDeletion(c: Cluster, pool: AgentPool) returns (r: Result, ghost p: Pass)
    requires c.Ok() && pool.deleting && pool.key in c.pools && pool.Image() == c.pools[pool.key]
    modifies c, pool
    ensures c.Ok() && PassOf(old(c.S()), c.S(), pool.key, c.azure, p)
    ensures if old(pool.finalizer) then p.Teardown? else p.Nothing?
    ensures Answers(r, old(c.S()), c.S(), p)
  {
    if !pool.finalizer {
      return Finished, Nothing;
    }
    var unregistered := false;
    if pool.status.dummyAgentID != 0 {
      var ok := c.ReadToken(pool);
      if ok {
        unregistered := c.UnregisterAgent(pool.status.poolID, pool.status.dummyAgentID);
      }
    }
    pool.finalizer := false;
    var removed := c.Update(pool);
    r, p := if removed then Finished else Error, Teardown(unregistered, removed);
  }

  /** Cleanup, scale-up and scale-down; `activeCount` is what the status will report. */
  method ScalePods(c: Cluster, pool: AgentPool, items: seq<PodItem>, jobs: JobStatus, ghost f0: FullPass)
    returns (activeCount: int, ghost f: FullPass)
    requires c.Ok() && ListsPods(items, c.View(), pool.key) && BoundsFit(c.bounds, pool.key, pool.spec)
    requires f0.listed == c.S() && f0.items == items && f0.jobs == jobs && f0.spec == pool.spec
    modifies c
    ensures c.Ok() && IsScaled(pool.key, f) && f.shrunk == c.S() && activeCount == f.Reported()
    ensures f == f0.(cleaned := f.cleaned, freed := f.freed, swept := f.swept, tidy := f.tidy,
                     grown := f.grown, growth := f.growth, shrunk := f.shrunk, gone := f.gone)
    ensures c.pools == old(c.pools)
  {
    var tidy;
    ghost var freed, swept;
    tidy, freed, swept := CleanupCompletedPods(c, pool, items);
    ghost var cleaned := c.S();

    var activePods;
    activeCount, activePods := CountActivePods(items);
    var desired := Desired(pool.spec, jobs.pending);
    RoomToCreate(c.bounds, f0.listed, cleaned, pool.key, pool.spec, items, freed, swept, tidy, jobs.pending);

    ghost var grown, growth, gone;
    activeCount, grown, growth, gone := AdjustPods(c, pool, activePods, desired, jobs.busyAgentNames);
    f := f0.(cleaned := cleaned, freed := freed, swept := swept, tidy := tidy, grown := grown, growth := growth,
             shrunk := c.S(), gone := gone);
    ScalesFrom(pool.key, f);
  }

  /** The target leaves room for the pods to create. */
  lemma RoomToCreate(bounds: map<Key, nat>, s: Sys, t: Sys, key: Key, spec: PoolSpec, items: seq<PodItem>,
                     freed: set<Key>, swept: set<Key>, tidy: bool, pending: int)
    requires ListsPods(items, s.w, key) && BoundsFit(bounds, key, spec)
    requires IsCleaned(s, t, key, |spec.caches| > 0, CompletedNames(items), freed, swept, tidy)
    ensures DistinctNames(ActiveItems(items))
    ensures var p, count := Key(key.ns, AgentLabel(key, spec)), |ActiveItems(items)|;
      p in bounds && Desired(spec, pending) > count ==> |Active(t.w, p)| + Desired(spec, pending) - count <= bounds[p]
  {
    ListedActive(items, s.w, key);
    ActiveAfterCleanup(s, t, key, |spec.caches| > 0, CompletedNames(items), freed, swept, tidy);
  }

  lemma ScalesFrom(key: Key, f: FullPass)
    requires IsCleaned(f.listed, f.cleaned, key, |f.spec.caches| > 0, CompletedNames(f.items), f.freed, f.swept, f.tidy)
    requires IsGrown(f.cleaned, f.grown, key, f.spec, f.growth)
    requires f.growth.created <= (if f.ToCreate() > 0 then f.ToCreate() else 0)
    requires f.growth.created < f.ToCreate() ==> f.growth.full || !NoFault(f.cleaned, f.grown)
    requires f.growth.full ==> f.growth.created < f.ToCreate()
    requires f.growth.full && f.growth.created == 0 ==> WroteUnlessBare(f.cleaned, f.grown, key, f.spec.caches)
    requires NamesTried(f.cleaned, f.grown) == f.growth.created + (if f.growth.created < f.ToCreate() then 1 else 0)
    requires f.ToCreate() <= 0 ==> f.grown == f.cleaned
    requires IsShrunk(f.grown, f.shrunk, key, ActiveItems(f.items), f.ToDelete(), f.jobs.busyAgentNames, f.gone)
    ensures IsScaled(key, f)
  {
    assert Detail(f.swept) && Detail(f.growth) && Detail(f.gone);
    assert Scales(key, f);
  }

  /** Scale-up or scale-down from the pods listed as active; `count` is the number of agents afterwards. */
  method AdjustPods(c: Cluster, pool: AgentPool, activePods: seq<PodItem>, desired: int, busy: set<string>)
    returns (count: int, ghost grown: Sys, ghost growth: Growth, ghost gone: set<Key>)
    requires c.Ok() && DistinctNames(activePods)
    requires var p := Key(pool.key.ns, AgentLabel(pool.key, pool.spec));
      p in c.bounds && desired > |activePods| ==> |Active(c.View(), p)| + desired - |activePods| <= c.bounds[p]
    modifies c
    ensures c.Ok() && IsGrown(old(c.S()), grown, pool.key, pool.spec, growth) && c.pools == old(c.pools)
    ensures growth.created <= (if desired > |activePods| then desired - |activePods| else 0)
    ensures growth.created < desired - |activePods| ==> growth.full || !NoFault(old(c.S()), grown)
    ensures growth.full ==> growth.created < desired - |activePods|
    ensures growth.full && growth.created == 0 ==> WroteUnlessBare(old(c.S()), grown, pool.key, pool.spec.caches)
    ensures NamesTried(old(c.S()), grown) ==
      growth.created + (if growth.created < desired - |activePods| then 1 else 0)
    ensures desired <= |activePods| ==> grown == old(c.S())
    ensures IsShrunk(grown, c.S(), pool.key, activePods, |activePods| + growth.created - desired, busy, gone)
    ensures count == |activePods| + growth.created - |gone|
  {
    count := |activePods|;
    var created;
    created, growth := CreateAgents(c, pool, desired - count);
    grown := c.S();
    count := count + created;

    var toDelete := count - desired;
    gone := {};
    if toDelete > 0 {
      var deleted;
      deleted, gone := ScaleDown(c, pool, activePods, toDelete, busy);
      count := count - deleted;
    } else {
      ShrunkNotAtAll(c.S(), pool.key, activePods, toDelete, busy);
    }
  }

  /** The rest of a pass: the placeholder agent and the status. */
  method FinishPass(c: Cluster, pool: AgentPool, activeCount: int, jobs: JobStatus, ghost f0: FullPass)
    returns (r: Result, ghost f: FullPass)
    requires c.Ok() && pool.key in c.pools
    requires f0.shrunk == c.S() && f0.jobs == jobs && f0.mem == pool.status && f0.spec == pool.spec
    requires activeCount == f0.Reported()
    modifies c, pool
    ensures c.Ok() && Finishes(c.S(), pool.key, f) && r == (if f.saved then Requeue else Error)
    ensures f == f0.(managed := f.managed, action := f.action, saved := f.saved)
  {
    var desired := Desired(pool.spec, jobs.pending);
    var done;
    ghost var action;
    done, action := ManageDummyAgent(c, pool, desired);
    ghost var managed := c.S();
    var counted, freeSlots := CountFreePVCSlots(c, pool);
    pool.status := pool.status.(activeAgents := Some(ToInt32(activeCount)), pendingJobs := Some(ToInt32(jobs.pending)));
    var saved := c.UpdateStatus(pool);
    f := f0.(managed := managed, action := action, saved := saved);
    r := if saved then Requeue else Error;
  }

  /** The part of a pass before the pods are touched. */
  method Prepare(c: Cluster, pool: AgentPool)
    returns (r: Result, ok: bool, jobs: JobStatus, items: seq<PodItem>, ghost f: FullPass, ghost p: Pass)
    requires c.Ok() && pool.key in c.pools && pool.Image() == c.pools[pool.key] && pool.names == SlotNamesOf(pool.key)
    requires pool.finalizer && !pool.deleting
    modifies c, pool
    ensures c.Ok() && pool.key in c.pools
    ensures !ok ==>
      && p.Stopped? && PassOf(old(c.S()), c.S(), pool.key, c.azure, p)
      && r == if FailedApi(old(c.S()), c.S()) > 0 then Error else Requeue
    ensures ok ==>
      && Prepares(old(c.S()), pool.key, c.azure, f) && ListsPods(items, c.View(), pool.key)
      && f.listed == c.S() && f.items == items && f.jobs == jobs && f.mem == pool.status && f.spec == pool.spec
  {
    ghost var s := c.S();
    r, jobs, items, f, p := Requeue, JobStatus(0, {}), [], *, Nothing;
    ghost var before := pool.status;
    ok := LoadStatus(c, pool);
    if !ok {
      p := Stopped(before, pool.names, NotLoaded);
      UnloadedStops(s, c.S(), pool.key, c.azure, pool.names);
      return;
    }
    ghost var loaded := c.S();
    var ensured := EnsurePVCPool(c, pool);
    ghost var provisioned := c.S();
    ghost var asked;
    r, ok, jobs, items, asked := Survey(c, pool);
    ghost var here := c.S();
    if !ok {
      p := Stopped(pool.status, pool.names, NotSurveyed(loaded, provisioned, ensured));
    }
    f := FullPass(pool.spec, pool.status, pool.names, loaded, provisioned, ensured, asked, jobs, here, items,
                  here, {}, {}, true, here, Growth(0, {}, map[], false), here, {}, here, NoAction, true);
  }

  lemma UnloadedStops(s: Sys, t: Sys, key: Key, J: Azure, names: SlotNames)
    requires key in s.w.pools && s.w.pools[key].finalizer && !s.w.pools[key].deleting
    requires Unloaded(s, t, s.w.pools[key].status) && names == SlotNamesOf(key)
    ensures StoppedOf(s, t, key, J, s.w.pools[key].status, names, NotLoaded)
  {
    SameStatus(s.w.pools, key);
  }

  /** A pass over an object that is in use: finalizer present, not being deleted. */
  method ReconcileLive(c: Cluster, pool: AgentPool) returns (r: Result, ghost p: Pass)
    requires c.Ok() && pool.key in c.pools && pool.Image() == c.pools[pool.key] && pool.names == SlotNamesOf(pool.key)
    requires pool.finalizer && !pool.deleting && BoundsFit(c.bounds, pool.key, pool.spec)
    modifies c, pool
    ensures c.Ok() && PassOf(old(c.S()), c.S(), pool.key, c.azure, p)
    ensures (p.Stopped? || p.Full?) && Answers(r, old(c.S()), c.S(), p)
  {
    ghost var s := c.S();
    var ok, jobs, items;
    ghost var f;
    r, ok, jobs, items, f, p := Prepare(c, pool);
    if !ok {
      return;
    }
    ghost var f0 := f;
    var activeCount;
    activeCount, f := ScalePods(c, pool, items, jobs, f);
    ghost var f1 := f;
    r, f := FinishPass(c, pool, activeCount, jobs, f);
    FullPassIs(s, c.S(), pool.key, c.azure, f0, f1, f);
    FullHasRead(s, c.S(), pool.key, c.azure, f);
    p := Pass.Full(f);
  }

  lemma FullPassIs(s: Sys, t: Sys, key: Key, J: Azure, f0: FullPass, f1: FullPass, f: FullPass)
    requires Prepares(s, key, J, f0) && IsScaled(key, f1) && Finishes(t, key, f)
    requires f1 == f0.(cleaned := f1.cleaned, freed := f1.freed, swept := f1.swept, tidy := f1.tidy,
                       grown := f1.grown, growth := f1.growth, shrunk := f1.shrunk, gone := f1.gone)
    requires f == f1.(managed := f.managed, action := f.action, saved := f.saved)
    ensures FullOf(s, t, key, J, f)
  {
    assert Prepares(s, key, J, f);
    ScalesKept(key, f1, f);
  }

  lemma ScalesKept(key: Key, f1: FullPass, f: FullPass)
    requires IsScaled(key, f1) && f == f1.(managed := f.managed, action := f.action, saved := f.saved)
    ensures Scales(key, f)
  {
    assert Open(f1);
  }

  /** Reading the object first changes nothing. */
  lemma PassFrom(r: Sys, s: Sys, t: Sys, key: Key, J: Azure, p: Pass)
    requires ReadsApi(r, s, true) && PassOf(s, t, key, J, p)
    ensures PassOf(r, t, key, J, p)
  {
    if p.Full? {
      assert Open(p.f);
      LoadedFrom(r, s, p.f.loaded, key, J, p.f.mem);
      assert Prepares(r, key, J, p.f);
    } else if p.Stopped? && p.halt.NotSurveyed? {
      LoadedFrom(r, s, p.halt.loaded, key, J, p.mem);
    }
  }

  lemma LoadedFrom(r: Sys, s: Sys, t: Sys, key: Key, J: Azure, mem: PoolStatus)
    requires ReadsApi(r, s, true) && Loaded(s, t, key, J, mem)
    ensures Loaded(r, t, key, J, mem)
  {
  }

  /** Token and ADO pool id. */
  method LoadStatus(c: Cluster, pool: AgentPool) returns (ok: bool)
    requires c.Ok() && pool.key in c.pools && pool.Image() == c.pools[pool.key]
    modifies c, pool
    ensures c.Ok() && pool.finalizer == old(pool.finalizer)
    ensures if ok then Loaded(old(c.S()), c.S(), pool.key, c.azure, pool.status)
            else Unloaded(old(c.S()), c.S(), old(pool.status))
  {
    SameStatus(c.pools, pool.key);
    ok := FetchPAT(c, pool);
    if ok && pool.status.poolID == 0 {
      ghost var s := c.S();
      ok := ResolvePoolID(c, pool);
    }
  }

  /** The job queue and the pods of the pool. */
  method Survey(c: Cluster, pool: AgentPool)
    returns (r: Result, ok: bool, jobs: JobStatus, items: seq<PodItem>, ghost asked: nat)
    requires c.Ok() && pool.key in c.pools && c.pools[pool.key].status == pool.status
    modifies c
    ensures c.Ok()
    ensures !ok ==>
      && Unsurveyed(old(c.S()), c.S())
      && r == if FailedApi(old(c.S()), c.S()) > 0 then Error else Requeue
    ensures ok ==>
      && Passive(old(c.S()), c.S()) && NoFault(old(c.S()), c.S()) && ListsPods(items, c.View(), pool.key)
      && old(c.now) <= asked <= c.now && jobs == Summary(c.azure.jobs(pool.status.poolID, asked))
  {
    SameStatus(c.pools, pool.key);
    items := [];
    r := Requeue;
    ok, jobs := GetJobStatus(c, pool.status.poolID);
    asked := c.now;
    if !ok {
      var _ := c.UpdateStatus(pool);
      return;
    }
    ok, items := c.ListPods(pool.key);
    if !ok {
      r := Error;
    }
  }

  /** One pass of the control loop for the AgentPool `key`. */
  method Reconcile(c: Cluster, key: Key) returns (r: Result, ghost p: Pass)
    requires c.Ok() && (key in c.pools ==> BoundsFit(c.bounds, key, c.pools[key].spec))
    modifies c
    ensures c.Ok() && PassOf(old(c.S()), c.S(), key, c.azure, p) && Answers(r, old(c.S()), c.S(), p)
  {
    var reply, pool := c.GetPool(key);
    if reply != Done {
      return (if reply == NotFound then Finished else Error), Nothing;
    }
    ghost var s := c.S();
    if pool.deleting {
      r, p := HandleDeletion(c, pool);
      PassFrom(old(c.S()), s, c.S(), key, c.azure, p);
      return;
    }
    if !pool.finalizer {
      pool.finalizer := true;
      var saved := c.Update(pool);
      return (if saved then Finished else Error), Marking(saved);
    }
    r, p := ReconcileLive(c, pool);
    PassFrom(old(c.S()), s, c.S(), key, c.azure, p);
  }
}
