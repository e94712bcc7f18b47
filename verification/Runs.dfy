/** Whole runs: passes of any AgentPools in any order, with anything failing, the environment moving during
    and between them, users editing specs and deleting AgentPools between them. */
module Runs {
  import opened Base
  import opened Naming
  import opened Store
  import opened Ledgers
  import opened Clusters
  import opened Stages
  import opened Passes
  import opened Scaling
  import opened Course
  import opened Dummies
  import opened Invariants
  import opened Capacity
  import opened Accounting
  import opened Losses
  import opened Supply
  import opened Convergence
  import opened Controller

  datatype Step =
    | Reconciled(key: Key, p: Pass)
    | Waited
    | Applied(key: Key, spec: PoolSpec)
    | Edited(key: Key, spec: PoolSpec)
    | Deleted(key: Key)

  ghost predicate StepOf(s: Sys, t: Sys, J: Azure, step: Step) {
    match step
    case Reconciled(key, p) => PassOf(s, t, key, J, p)
    case Waited => Passive(s, t) && NoFault(s, t)
    case Applied(key, spec) =>
      key !in s.w.pools && t == s.(w := s.w.(pools := s.w.pools[key := NewPool(spec)]))
    case Edited(key, spec) =>
      key in s.w.pools && t == s.(w := s.w.(pools := s.w.pools[key := s.w.pools[key].(spec := spec)]))
    case Deleted(key) =>
      key in s.w.pools && t == s.(w := s.w.(pools := Doomed(s.w.pools, key)))
  }

  ghost predicate StepAt(ss: seq<Sys>, steps: seq<Step>, J: Azure, i: nat)
    requires |ss| == |steps| + 1 && i < |steps|
  {
    StepOf(ss[i], ss[i + 1], J, steps[i])
  }

  ghost predicate RunOf(ss: seq<Sys>, steps: seq<Step>, J: Azure) {
    |ss| == |steps| + 1 && forall i: nat :: i < |steps| ==> StepAt(ss, steps, J, i)
  }

  // ----- the operator at work -----

  datatype Order =
    | Reconcile(key: Key)
    | Wait
    | Apply(key: Key, spec: PoolSpec)
    | Edit(key: Key, spec: PoolSpec)
    | Delete(key: Key)

  ghost predicate SpecsFit(bounds: map<Key, nat>, pools: map<Key, Pool>) {
    forall k :: k in pools ==> BoundsFit(bounds, k, pools[k].spec)
  }

  /** Carries out a script. Every instant on the way is safe: claims are mounted exclusively and no pool
      exceeds the limit it is watched against. */
  method Operate(c: Cluster, script: seq<Order>) returns (ghost ss: seq<Sys>, ghost steps: seq<Step>)
    requires c.Ok() && SpecsFit(c.bounds, c.pools)
    requires forall o :: o in script && (o.Apply? || o.Edit?) ==> BoundsFit(c.bounds, o.key, o.spec)
    modifies c
    ensures RunOf(ss, steps, c.azure) && ss[0] == old(c.S()) && ss[|steps|] == c.S()
    ensures c.Ok() && forall i :: 0 <= i <= |steps| ==> Valid(ss[i], c.bounds)
  {
    ss, steps := [c.S()], [];
    for i := 0 to |script|
      invariant c.Ok() && SpecsFit(c.bounds, c.pools)
      invariant RunOf(ss, steps, c.azure) && ss[0] == old(c.S()) && ss[|steps|] == c.S()
      invariant forall j :: 0 <= j <= |steps| ==> Valid(ss[j], c.bounds)
    {
      ghost var s := c.S();
      ghost var done, step := TakeOrder(c, script[i]);
      if done {
        RunGoesOn(ss, steps, c.azure, c.S(), step);
        ss, steps := ss + [c.S()], steps + [step];
      }
    }
  }

  /** One order; creating what exists, and editing or deleting what does not, is no step. */
  method TakeOrder(c: Cluster, o: Order) returns (ghost done: bool, ghost step: Step)
    requires c.Ok() && SpecsFit(c.bounds, c.pools) && (o.Apply? || o.Edit? ==> BoundsFit(c.bounds, o.key, o.spec))
    modifies c
    ensures c.Ok() && SpecsFit(c.bounds, c.pools)
    ensures if done then StepOf(old(c.S()), c.S(), c.azure, step) else c.S() == old(c.S())
  {
    done, step := true, Waited;
    match o
    case Reconcile(key) =>
      var _, p := Controller.Reconcile(c, key);
      PassKeepsSpecs(old(c.S()), c.S(), key, c.azure, p);
      step := Reconciled(key, p);
    case Wait =>
      c.Interfere();
    case Apply(key, spec) =>
      if key !in c.pools {
        c.ApplyPool(key, spec);
        step := Applied(key, spec);
      } else {
        done := false;
      }
    case Edit(key, spec) =>
      if key in c.pools {
        c.EditSpec(key, spec);
        step := Edited(key, spec);
      } else {
        done := false;
      }
    case Delete(key) =>
      if key in c.pools {
        c.MarkDeleted(key);
        step := Deleted(key);
      } else {
        done := false;
      }
  }

  lemma PassKeepsSpecs(s: Sys, t: Sys, key: Key, J: Azure, p: Pass)
    requires PassOf(s, t, key, J, p)
    ensures forall k :: k in t.w.pools ==> k in s.w.pools && t.w.pools[k].spec == s.w.pools[k].spec
  {
    if p.Full? {
      StatusAfterPass(s, t, key, J, p.f);
    }
  }

  lemma RunGoesOn(ss: seq<Sys>, steps: seq<Step>, J: Azure, t: Sys, step: Step)
    requires RunOf(ss, steps, J) && StepOf(ss[|steps|], t, J, step)
    ensures RunOf(ss + [t], steps + [step], J)
  {
    var ss', steps' := ss + [t], steps + [step];
    forall i: nat | i < |steps'|
      ensures StepAt(ss', steps', J, i)
    {
      if i < |steps| {
        assert StepAt(ss, steps, J, i);
      }
    }
  }

  /** Every store without pods and without assigned claims is a place to start from. */
  lemma FreshStart(w: World, bounds: map<Key, nat>)
    requires w.pods == map[] && forall c :: c in w.pvcs ==> w.pvcs[c].state == Free && w.pvcs[c].assignedPod == None
    ensures Safe(w, bounds) && OwnersMount(w) && OwnPods(w)
    ensures forall pool :: Stranded(w, pool) == {}
  {
    forall pool | pool in bounds
      ensures |Active(w, pool)| <= bounds[pool]
    {
      assert Active(w, pool) == {};
    }
  }

  /** A registry without agents agrees with statuses that name none. */
  lemma FreshRegistry(w: World)
    requires forall p :: p in w.ado ==> w.ado[p] == map[]
    requires forall k :: k in w.pools ==> w.pools[k].status.dummyAgentID == 0
    ensures NamesUnique(w.ado) && DummiesKnown(w) && DummiesAtHome(w) && IdsNameDummies(w)
  {
  }

  lemma StepIn(ss: seq<Sys>, steps: seq<Step>, J: Azure, i: nat)
    requires RunOf(ss, steps, J) && i < |steps|
    ensures StepOf(ss[i], ss[i + 1], J, steps[i])
  {
    assert StepAt(ss, steps, J, i);
  }

  lemma StepGrows(s: Sys, t: Sys, J: Azure, step: Step)
    requires StepOf(s, t, J, step)
    ensures Grows(s, t)
  {
    if step.Reconciled? && step.p.Full? {
      assert Open(step.p.f);
    }
  }

  lemma {:induction false} RunGrows(ss: seq<Sys>, steps: seq<Step>, J: Azure, i: nat)
    requires RunOf(ss, steps, J) && i <= |steps|
    ensures Grows(ss[0], ss[i])
  {
    if i > 0 {
      RunGrows(ss, steps, J, i - 1);
      StepIn(ss, steps, J, i - 1);
      StepGrows(ss[i - 1], ss[i], J, steps[i - 1]);
    }
  }

  // ----- exclusivity -----

  lemma StepKeepsInv(s: Sys, t: Sys, J: Azure, step: Step)
    requires StepOf(s, t, J, step) && Inv(s.w)
    ensures Inv(t.w)
  {
    match step
    case Reconciled(key, p) =>
      PassKeepsInv(s, t, key, J, p);
    case _ =>
      InvFreeAdded(s.w, t.w);
  }

  /** In every run, whatever fails, the claims of active pods are labelled with exactly their pods. */
  lemma {:induction false} ExclusiveInRun(ss: seq<Sys>, steps: seq<Step>, J: Azure, i: nat)
    requires RunOf(ss, steps, J) && i <= |steps| && Inv(ss[0].w)
    ensures Inv(ss[i].w)
  {
    if i > 0 {
      ExclusiveInRun(ss, steps, J, i - 1);
      StepIn(ss, steps, J, i - 1);
      StepKeepsInv(ss[i - 1], ss[i], J, steps[i - 1]);
    }
  }

  /** No run ever lets two active pods mount one claim, or a free claim be in use. */
  lemma NeverShared(ss: seq<Sys>, steps: seq<Step>, J: Azure, i: nat, j: Key, k: Key, c: Key)
    requires RunOf(ss, steps, J) && i <= |steps| && Inv(ss[0].w)
    requires Mounts(ss[i].w, j, c) && ActiveNow(ss[i].w, j)
    ensures c in ss[i].w.pvcs && ss[i].w.pvcs[c].state == Assigned && ss[i].w.pvcs[c].assignedPod == Some(j.name)
    ensures Mounts(ss[i].w, k, c) && ActiveNow(ss[i].w, k) ==> k == j
  {
    ExclusiveInRun(ss, steps, J, i);
    ExclusiveMounts(ss[i].w, j, k, c);
  }

  // ----- the id of the ADO pool -----

  /** The id was once the id of the pool in ADO that the spec of the AgentPool named at the time. */
  ghost predicate OnceNamed(ss: seq<Sys>, J: Azure, k: Key, id: int, n: nat) {
    exists j: nat, at: nat ::
      j <= n < |ss| && k in ss[j].w.pools && IsPoolID(J, ss[j].w.pools[k].spec.poolName, at, id)
  }

  lemma StepKeepsPoolID(s: Sys, t: Sys, J: Azure, step: Step, k: Key)
    requires StepOf(s, t, J, step) && k in t.w.pools && t.w.pools[k].status.poolID != 0
    ensures k in s.w.pools
    ensures t.w.pools[k].status.poolID == s.w.pools[k].status.poolID
      || exists at: nat :: IsPoolID(J, s.w.pools[k].spec.poolName, at, t.w.pools[k].status.poolID)
  {
    if step.Reconciled? {
      PoolIDAfter(s, t, step.key, J, step.p, k);
    }
  }

  /** In every run a persisted ADO pool id is one that ADO gave for the name in the spec, now or before an edit. */
  lemma {:induction false} PoolIDInRun(ss: seq<Sys>, steps: seq<Step>, J: Azure, k: Key, n: nat)
    requires RunOf(ss, steps, J) && n <= |steps|
    requires forall j :: j in ss[0].w.pools ==> ss[0].w.pools[j].status.poolID == 0
    requires k in ss[n].w.pools && ss[n].w.pools[k].status.poolID != 0
    ensures OnceNamed(ss, J, k, ss[n].w.pools[k].status.poolID, n)
  {
    var id := ss[n].w.pools[k].status.poolID;
    StepIn(ss, steps, J, n - 1);
    StepKeepsPoolID(ss[n - 1], ss[n], J, steps[n - 1], k);
    if ss[n - 1].w.pools[k].status.poolID == id {
      PoolIDInRun(ss, steps, J, k, n - 1);
      var j: nat, at: nat :| j <= n - 1 < |ss| && k in ss[j].w.pools
        && IsPoolID(J, ss[j].w.pools[k].spec.poolName, at, id);
      assert j <= n < |ss|;
    } else {
      var at: nat :| IsPoolID(J, ss[n - 1].w.pools[k].spec.poolName, at, id);
      assert n - 1 <= n < |ss|;
    }
  }

  // ----- the limit on agents -----

  /** The specs in force: pods keep their pool's label, and one pool's limits are ordered and at most `max`. */
  ghost predicate Limits(w: World, pool: Key, max: int) {
    && (forall k :: k in w.pools ==> OwnLabel(k, w.pools[k].spec))
    && (pool in w.pools ==> w.pools[pool].spec.minAgents <= w.pools[pool].spec.maxAgents <= max)
  }

  lemma StepKeepsBound(s: Sys, t: Sys, J: Azure, step: Step, pool: Key, max: int)
    requires StepOf(s, t, J, step) && Limits(s.w, pool, max) && |Active(s.w, pool)| <= max
    ensures |Active(t.w, pool)| <= max
  {
    if step.Reconciled? && step.key == pool && pool in s.w.pools {
      PassKeepsBound(s, t, pool, J, step.p);
    } else {
      OthersBringNone(s, t, J, step, pool);
    }
  }

  lemma OthersBringNone(s: Sys, t: Sys, J: Azure, step: Step, pool: Key)
    requires StepOf(s, t, J, step) && !(step.Reconciled? && step.key == pool && pool in s.w.pools)
    requires forall k :: k in s.w.pools ==> OwnLabel(k, s.w.pools[k].spec)
    ensures |Active(t.w, pool)| <= |Active(s.w, pool)|
  {
    StepGrows(s, t, J, step);
    ActiveShrinks(s.w, t.w.now, pool);
    if step.Reconciled? {
      PassIsIsolated(s, t, step.key, J, step.p);
      if step.key in s.w.pools {
        OtherPoolUntouched(s.w, t.w, step.key, pool);
      } else {
        SameActive(s.w, t.w, pool);
      }
    } else {
      SameActive(s.w, t.w, pool);
    }
  }

  lemma SameActive(w: World, v: World, pool: Key)
    requires v.pods == w.pods
    ensures Active(v, pool) == Active(w.(now := v.now), pool)
  {
  }

  /** The number of active pods never exceeds the largest maxAgents in force, whatever fails. */
  lemma {:induction false} BoundInRun(ss: seq<Sys>, steps: seq<Step>, J: Azure, pool: Key, max: int, i: nat)
    requires RunOf(ss, steps, J) && i <= |steps|
    requires |Active(ss[0].w, pool)| <= max && forall j :: 0 <= j < i ==> Limits(ss[j].w, pool, max)
    ensures |Active(ss[i].w, pool)| <= max
  {
    if i > 0 {
      BoundInRun(ss, steps, J, pool, max, i - 1);
      StepIn(ss, steps, J, i - 1);
      StepKeepsBound(ss[i - 1], ss[i], J, steps[i - 1], pool, max);
    }
  }

  // ----- the placeholder agent -----

  lemma StepKeepsOneDummy(s: Sys, t: Sys, J: Azure, step: Step)
    requires StepOf(s, t, J, step) && t.led.lookupFaults == s.led.lookupFaults
    requires IdsOk(s.w.ado) && NamesUnique(s.w.ado)
    ensures IdsOk(t.w.ado) && NamesUnique(t.w.ado)
  {
    if step.Reconciled? {
      AtMostOneDummy(s, t, step.key, J, step.p);
    }
  }

  /** As long as look-ups by name have been answered, ADO has never held two agents of one placeholder name,
      even if status writes were lost. */
  lemma {:induction false} OneDummyInRun(ss: seq<Sys>, steps: seq<Step>, J: Azure, i: nat)
    requires RunOf(ss, steps, J) && i <= |steps| && ss[i].led.lookupFaults == ss[0].led.lookupFaults
    requires IdsOk(ss[0].w.ado) && NamesUnique(ss[0].w.ado)
    ensures IdsOk(ss[i].w.ado) && NamesUnique(ss[i].w.ado)
  {
    if i > 0 {
      RunGrows(ss, steps, J, i - 1);
      StepIn(ss, steps, J, i - 1);
      StepGrows(ss[i - 1], ss[i], J, steps[i - 1]);
      OneDummyInRun(ss, steps, J, i - 1);
      StepKeepsOneDummy(ss[i - 1], ss[i], J, steps[i - 1]);
    }
  }

  lemma IdsStayOk(s: Sys, t: Sys, J: Azure, step: Step)
    requires StepOf(s, t, J, step) && IdsOk(s.w.ado)
    ensures IdsOk(t.w.ado)
  {
    if step.Reconciled? && step.p.Full? {
      IdsInRange(s, t, step.key, J, step.p.f);
    }
  }

  /** An AgentPool is created only under a name no AgentPool has and no placeholder is left of. */
  ghost predicate NewName(w: World, step: Step) {
    step.Applied? ==>
      NoneNamed(w.ado, DummyName(step.key.name)) && forall k :: k in w.pools ==> k.name != step.key.name
  }

  ghost predicate NewNames(ss: seq<Sys>, steps: seq<Step>, n: nat) {
    |ss| == |steps| + 1 && n <= |steps| && forall j :: 0 <= j < n ==> NewName(ss[j].w, steps[j])
  }

  /** A placeholder with the name of the new AgentPool would be its own. */
  lemma NobodysDummy(w: World, key: Key, p: int, i: int)
    requires NoneNamed(w.ado, DummyName(key.name)) && p in w.ado && i in w.ado[p]
    ensures w.ado[p][i] != DummyName(key.name)
  {
    assert NoAgent(w.ado, p, DummyName(key.name));
  }

  lemma StepKeepsHome(s: Sys, t: Sys, J: Azure, step: Step)
    requires StepOf(s, t, J, step) && NewName(s.w, step)
    requires IdsOk(s.w.ado) && PoolNamesDiffer(s.w.pools) && DummiesAtHome(s.w)
    ensures PoolNamesDiffer(t.w.pools) && DummiesAtHome(t.w)
  {
    if step.Reconciled? {
      DummiesStayAtHome(s, t, step.key, J, step.p);
    } else {
      forall k, p, i | k in t.w.pools && p in t.w.ado && i in t.w.ado[p] && t.w.ado[p][i] == DummyName(k.name)
        ensures t.w.pools[k].status.poolID == p
      {
        if step.Applied? {
          NobodysDummy(s.w, step.key, p, i);
        }
      }
    }
  }

  /** All of ADO never holds two placeholders of one AgentPool, as long as look-ups have been answered, even
      if status writes were lost. */
  lemma {:induction false} OneDummyAnywhereInRun(ss: seq<Sys>, steps: seq<Step>, J: Azure, n: nat)
    requires RunOf(ss, steps, J) && n <= |steps| && ss[n].led.lookupFaults == ss[0].led.lookupFaults
    requires IdsOk(ss[0].w.ado) && NamesUnique(ss[0].w.ado) && PoolNamesDiffer(ss[0].w.pools) && DummiesAtHome(ss[0].w)
    requires NewNames(ss, steps, n)
    ensures PoolNamesDiffer(ss[n].w.pools) && DummiesAtHome(ss[n].w)
    ensures forall k, p, i, q, j ::
      && k in ss[n].w.pools
      && p in ss[n].w.ado && i in ss[n].w.ado[p] && ss[n].w.ado[p][i] == DummyName(k.name)
      && q in ss[n].w.ado && j in ss[n].w.ado[q] && ss[n].w.ado[q][j] == DummyName(k.name)
      ==> p == q && i == j
  {
    if n > 0 {
      RunGrows(ss, steps, J, n - 1);
      StepIn(ss, steps, J, n - 1);
      StepGrows(ss[n - 1], ss[n], J, steps[n - 1]);
      OneDummyAnywhereInRun(ss, steps, J, n - 1);
      OneDummyInRun(ss, steps, J, n - 1);
      StepKeepsHome(ss[n - 1], ss[n], J, steps[n - 1]);
    }
    OneDummyInRun(ss, steps, J, n);
    forall k, p, i, q, j |
      && k in ss[n].w.pools
      && p in ss[n].w.ado && i in ss[n].w.ado[p] && ss[n].w.ado[p][i] == DummyName(k.name)
      && q in ss[n].w.ado && j in ss[n].w.ado[q] && ss[n].w.ado[q][j] == DummyName(k.name)
      ensures p == q && i == j
    {
      OneDummyAnywhere(ss[n].w, k, p, i, q, j);
    }
  }

  lemma StepKeepsKnown(s: Sys, t: Sys, J: Azure, step: Step)
    requires StepOf(s, t, J, step) && t.led.statusFaults == s.led.statusFaults && NewName(s.w, step)
    requires IdsOk(s.w.ado) && PoolNamesDiffer(s.w.pools) && DummiesKnown(s.w)
    ensures PoolNamesDiffer(t.w.pools) && DummiesKnown(t.w)
  {
    if step.Reconciled? {
      DummiesStayKnown(s, t, step.key, J, step.p);
    } else {
      forall k, p, i | k in t.w.pools && p in t.w.ado && i in t.w.ado[p] && t.w.ado[p][i] == DummyName(k.name)
        ensures t.w.pools[k].status.poolID == p && t.w.pools[k].status.dummyAgentID == i
      {
        if step.Applied? {
          NobodysDummy(s.w, step.key, p, i);
        }
      }
    }
  }

  /** As long as no status write has been lost, every registered placeholder is the one named by the
      persisted status of its AgentPool. */
  lemma {:induction false} DummiesKnownInRun(ss: seq<Sys>, steps: seq<Step>, J: Azure, i: nat)
    requires RunOf(ss, steps, J) && i <= |steps| && ss[i].led.statusFaults == ss[0].led.statusFaults
    requires IdsOk(ss[0].w.ado) && PoolNamesDiffer(ss[0].w.pools) && DummiesKnown(ss[0].w) && NewNames(ss, steps, i)
    ensures IdsOk(ss[i].w.ado) && PoolNamesDiffer(ss[i].w.pools) && DummiesKnown(ss[i].w)
  {
    if i > 0 {
      RunGrows(ss, steps, J, i - 1);
      StepIn(ss, steps, J, i - 1);
      StepGrows(ss[i - 1], ss[i], J, steps[i - 1]);
      DummiesKnownInRun(ss, steps, J, i - 1);
      StepKeepsKnown(ss[i - 1], ss[i], J, steps[i - 1]);
      IdsStayOk(ss[i - 1], ss[i], J, steps[i - 1]);
    }
  }

  /** ADO handed out no id that another AgentPool's status still named. */
  ghost predicate NewIds(ss: seq<Sys>, steps: seq<Step>, n: nat) {
    |ss| == |steps| + 1 && n <= |steps|
    && forall j :: 0 <= j < n && steps[j].Reconciled? ==> IdIsNew(ss[j].w.pools, steps[j].key, steps[j].p)
  }

  lemma StepKeepsIdsNamed(s: Sys, t: Sys, J: Azure, step: Step)
    requires StepOf(s, t, J, step) && t.led.statusFaults == s.led.statusFaults
    requires step.Reconciled? ==> IdIsNew(s.w.pools, step.key, step.p)
    requires IdsOk(s.w.ado) && PoolNamesDiffer(s.w.pools) && IdsNameDummies(s.w)
    ensures IdsNameDummies(t.w)
  {
    if step.Reconciled? {
      IdsStayNamed(s, t, step.key, J, step.p);
    }
  }

  /** And conversely: the persisted id of an AgentPool that is not being deleted names a registered
      placeholder of its name. */
  lemma {:induction false} IdsNamedInRun(ss: seq<Sys>, steps: seq<Step>, J: Azure, i: nat)
    requires RunOf(ss, steps, J) && i <= |steps| && ss[i].led.statusFaults == ss[0].led.statusFaults
    requires IdsOk(ss[0].w.ado) && PoolNamesDiffer(ss[0].w.pools) && DummiesKnown(ss[0].w) && IdsNameDummies(ss[0].w)
    requires NewNames(ss, steps, i) && NewIds(ss, steps, i)
    ensures IdsNameDummies(ss[i].w)
  {
    if i > 0 {
      RunGrows(ss, steps, J, i - 1);
      StepIn(ss, steps, J, i - 1);
      StepGrows(ss[i - 1], ss[i], J, steps[i - 1]);
      IdsNamedInRun(ss, steps, J, i - 1);
      DummiesKnownInRun(ss, steps, J, i - 1);
      StepKeepsIdsNamed(ss[i - 1], ss[i], J, steps[i - 1]);
    }
  }

  /** So after every full pass without failures ADO has the placeholder exactly when the target is zero. */
  lemma RegisteredIffZeroTargetInRun(ss: seq<Sys>, steps: seq<Step>, J: Azure, i: nat)
    requires RunOf(ss, steps, J) && i < |steps| && ss[i].led.statusFaults == ss[0].led.statusFaults
    requires IdsOk(ss[0].w.ado) && PoolNamesDiffer(ss[0].w.pools) && DummiesKnown(ss[0].w) && IdsNameDummies(ss[0].w)
    requires NewNames(ss, steps, i) && NewIds(ss, steps, i + 1)
    requires steps[i].Reconciled? && steps[i].p.Full? && NoFault(ss[i], ss[i + 1]) && 0 <= steps[i].p.f.Target()
    ensures !NoneNamed(ss[i + 1].w.ado, DummyName(steps[i].key.name)) <==> steps[i].p.f.Target() == 0
  {
    StepIn(ss, steps, J, i);
    DummiesKnownInRun(ss, steps, J, i);
    IdsNamedInRun(ss, steps, J, i);
    RegisteredIffZeroTarget(ss[i], ss[i + 1], steps[i].key, J, steps[i].p.f);
  }

  /** So a deletion without failures leaves no placeholder behind. */
  lemma NoneLeftBehind(ss: seq<Sys>, steps: seq<Step>, J: Azure, i: nat)
    requires RunOf(ss, steps, J) && i < |steps| && ss[i].led.statusFaults == ss[0].led.statusFaults
    requires IdsOk(ss[0].w.ado) && PoolNamesDiffer(ss[0].w.pools) && DummiesKnown(ss[0].w) && NewNames(ss, steps, i)
    requires steps[i].Reconciled? && steps[i].p.Teardown?
    ensures var name := DummyName(steps[i].key.name);
      NoneNamed(ss[i + 1].w.ado, name) <==> steps[i].p.unregistered || NoneNamed(ss[i].w.ado, name)
    ensures NoFault(ss[i], ss[i + 1]) ==>
      steps[i].key !in ss[i + 1].w.pools && NoneNamed(ss[i + 1].w.ado, DummyName(steps[i].key.name))
  {
    DummiesKnownInRun(ss, steps, J, i);
    StepIn(ss, steps, J, i);
    TeardownLeavesNone(ss[i], ss[i + 1], steps[i].key, steps[i].p.unregistered, steps[i].p.removed);
  }

  // ----- the books -----

  function MovesIn(step: Step): Moves {
    if step.Reconciled? then MovesOf(step.p) else Moves({}, {}, {}, map[], {})
  }

  /** Template names are distinct and labels are the operator's in every pass that created pods. */
  ghost predicate Plain(step: Step) {
    step.Reconciled? && step.p.Full? ==> Distinct(step.p.f.spec.caches) && OwnLabel(step.key, step.p.f.spec)
  }

  lemma StepMoves(s: Sys, t: Sys, J: Azure, step: Step)
    requires StepOf(s, t, J, step)
    ensures StoreStep(s.w, t.w, MovesIn(step))
    ensures t.led.reused == s.led.reused ==> FreshNames(s.w, MovesIn(step))
    ensures t.led.reused == s.led.reused && Plain(step) ==> GrantsMounted(t.w, MovesIn(step))
  {
    if step.Reconciled? {
      PassMoves(s, t, step.key, J, step.p);
      if t.led.reused == s.led.reused {
        FreshPass(s, t, step.key, J, step.p);
      }
    } else {
      assert Steps(s.w, t.w, MovesIn(step));
    }
  }

  ghost function RollbacksIn(step: Step, pool: Key): int {
    if step.Reconciled? then FailedRollbacks(step.key, step.p, pool) else 0
  }

  ghost function CleanupsIn(step: Step, pool: Key): int {
    if step.Reconciled? then FailedCleanups(step.key, step.p, pool) else 0
  }

  /** What the first `n` steps cost a pool: slots whose pod was deleted by scale-down or from outside, slots
      that cleanup did not release and the pods they belonged to, failed releases in rollbacks and in cleanups. */
  datatype Toll = Toll(bereft: nat, unswept: nat, pods: nat, rollbacks: int, cleanups: int)

  ghost function TollOf(ss: seq<Sys>, steps: seq<Step>, pool: Key, n: nat): Toll
    requires |ss| == |steps| + 1 && n <= |steps|
  {
    if n == 0 then Toll(0, 0, 0, 0, 0)
    else
      var toll, w, v, m := TollOf(ss, steps, pool, n - 1), ss[n - 1].w, ss[n].w, MovesIn(steps[n - 1]);
      Toll(toll.bereft + |ByDeletion(w, v, m, pool)|,
           toll.unswept + |ByCleanup(w, m, pool)|, toll.pods + |UnsweptPods(w, m, pool)|,
           toll.rollbacks + RollbacksIn(steps[n - 1], pool), toll.cleanups + CleanupsIn(steps[n - 1], pool))
  }

  lemma StepBooks(s: Sys, t: Sys, J: Azure, step: Step, pool: Key)
    requires StepOf(s, t, J, step) && t.led.reused == s.led.reused && Plain(step) && OwnersMount(s.w) && OwnPods(s.w)
    ensures OwnersMount(t.w) && OwnPods(t.w) && Stranded(s.w, pool) <= Stranded(t.w, pool)
    ensures |Stranded(t.w, pool)| == |Stranded(s.w, pool)|
      + |ByDeletion(s.w, t.w, MovesIn(step), pool)| + |ByCleanup(s.w, MovesIn(step), pool)| + RollbacksIn(step, pool)
  {
    StepMoves(s, t, J, step);
    OwnersStay(s.w, t.w, MovesIn(step));
    if step.Reconciled? {
      PassBooks(s, t, step.key, J, step.p, pool);
    } else {
      BooksByCause(s.w, t.w, MovesIn(step), pool);
      assert ByRollback(t.w, MovesIn(step), pool) == {};
    }
  }

  /** With fresh pod names, no slot is ever recovered: the stranded slots of a pool are those there were, those
      whose pod was deleted by scale-down or from outside, those that cleanup did not release, and one for
      each release that failed in a rollback. */
  lemma {:induction false} BooksOfRun(ss: seq<Sys>, steps: seq<Step>, J: Azure, pool: Key, n: nat)
    requires RunOf(ss, steps, J) && n <= |steps| && ss[n].led.reused == ss[0].led.reused
    requires forall j :: 0 <= j < n ==> Plain(steps[j])
    requires OwnersMount(ss[0].w) && OwnPods(ss[0].w)
    ensures OwnersMount(ss[n].w) && OwnPods(ss[n].w)
    ensures Stranded(ss[0].w, pool) <= Stranded(ss[n].w, pool)
    ensures var toll := TollOf(ss, steps, pool, n);
      |Stranded(ss[n].w, pool)| == |Stranded(ss[0].w, pool)| + toll.bereft + toll.unswept + toll.rollbacks
  {
    if n > 0 {
      RunGrows(ss, steps, J, n - 1);
      StepIn(ss, steps, J, n - 1);
      StepGrows(ss[n - 1], ss[n], J, steps[n - 1]);
      BooksOfRun(ss, steps, J, pool, n - 1);
      StepBooks(ss[n - 1], ss[n], J, steps[n - 1], pool);
    }
  }

  /** A pool keeps its cache volumes: every pass over it cleans up with them. */
  ghost predicate Cached(step: Step, pool: Key) {
    step.Reconciled? && step.p.Full? && step.key == pool ==> |step.p.f.spec.caches| > 0
  }

  lemma StepFailures(s: Sys, t: Sys, J: Azure, step: Step, pool: Key)
    requires StepOf(s, t, J, step) && OwnPods(s.w) && Cached(step, pool)
    ensures 0 <= RollbacksIn(step, pool) && |UnsweptPods(s.w, MovesIn(step), pool)| <= CleanupsIn(step, pool)
    ensures RollbacksIn(step, pool) + CleanupsIn(step, pool) <= FailedReleases(s, t)
    ensures UnsweptPods(s.w, MovesIn(step), pool) == {} ==> ByCleanup(s.w, MovesIn(step), pool) == {}
  {
    StepGrows(s, t, J, step);
    if step.Reconciled? {
      FailedByStage(s, t, step.key, J, step.p, pool);
      FailedCleanupsBound(s, t, step.key, J, step.p, pool);
    } else {
      assert UnsweptPods(s.w, MovesIn(step), pool) == {};
    }
    assert forall c :: c in ByCleanup(s.w, MovesIn(step), pool) ==>
        HolderOf(s.w, c) in UnsweptPods(s.w, MovesIn(step), pool);
  }

  /** The part of the losses that failed releases account for: every one in a rollback costs a slot, no more
      pods go unreleased in cleanup than releases failed there, and where none failed only deletions cost
      slots. */
  lemma {:induction false} FailuresOfRun(ss: seq<Sys>, steps: seq<Step>, J: Azure, pool: Key, n: nat)
    requires RunOf(ss, steps, J) && n <= |steps| && ss[n].led.reused == ss[0].led.reused
    requires forall j :: 0 <= j < n ==> Plain(steps[j]) && Cached(steps[j], pool)
    requires OwnersMount(ss[0].w) && OwnPods(ss[0].w)
    ensures var toll := TollOf(ss, steps, pool, n);
      && 0 <= toll.rollbacks && toll.pods <= toll.cleanups
      && toll.rollbacks + toll.cleanups <= FailedReleases(ss[0], ss[n])
      && (toll.pods == 0 ==> toll.unswept == 0)
      && (FailedReleases(ss[0], ss[n]) == 0 ==>
           |Stranded(ss[n].w, pool)| == |Stranded(ss[0].w, pool)| + toll.bereft)
  {
    if n > 0 {
      RunGrows(ss, steps, J, n - 1);
      StepIn(ss, steps, J, n - 1);
      StepGrows(ss[n - 1], ss[n], J, steps[n - 1]);
      BooksOfRun(ss, steps, J, pool, n - 1);
      FailuresOfRun(ss, steps, J, pool, n - 1);
      StepFailures(ss[n - 1], ss[n], J, steps[n - 1], pool);
    }
    BooksOfRun(ss, steps, J, pool, n);
  }

  // ----- a blocked pool -----

  /** Labels are the operator's, and the pool has the spec `spec` or does not exist. */
  ghost predicate SpecsHold(w: World, pool: Key, spec: PoolSpec) {
    && (forall k :: k in w.pools ==> OwnLabel(k, w.pools[k].spec))
    && (pool in w.pools ==> w.pools[pool].spec == spec)
  }

  ghost predicate SameSpec(ss: seq<Sys>, pool: Key, spec: PoolSpec, n: nat) {
    n < |ss| && forall j :: 0 <= j < n ==> SpecsHold(ss[j].w, pool, spec)
  }

  lemma StepKeepsSlots(s: Sys, t: Sys, J: Azure, step: Step, pool: Key, spec: PoolSpec, cache: string)
    requires StepOf(s, t, J, step) && OwnersMount(s.w) && Blocked(s.w, pool, spec, cache)
    requires SpecsHold(s.w, pool, spec)
    ensures s.w.pvcs.Keys <= t.w.pvcs.Keys && Slots(t.w.pvcs, pool, cache) == Slots(s.w.pvcs, pool, cache)
  {
    if step.Reconciled? {
      if step.key == pool {
        BlockedPass(s, t, pool, J, step.p, spec, cache);
      } else {
        PassIsIsolated(s, t, step.key, J, step.p);
        if step.key in s.w.pools {
          OtherPoolUntouched(s.w, t.w, step.key, pool);
        }
      }
    }
  }

  lemma StepAddsNone(s: Sys, t: Sys, J: Azure, step: Step, pool: Key, spec: PoolSpec, cache: string)
    requires StepOf(s, t, J, step) && OwnersMount(s.w) && Blocked(s.w, pool, spec, cache)
    requires SpecsHold(s.w, pool, spec)
    ensures |Active(t.w, pool)| <= |Active(s.w, pool)|
  {
    if step.Reconciled? && step.key == pool && step.p.Full? {
      BlockedPass(s, t, pool, J, step.p, spec, cache);
      SubsetCard(Active(t.w, pool), Active(s.w, pool));
    } else if step.Reconciled? && step.key == pool {
      StepGrows(s, t, J, step);
      ActiveShrinks(s.w, t.w.now, pool);
      SameActive(s.w, t.w, pool);
    } else {
      OthersBringNone(s, t, J, step, pool);
    }
  }

  /** Blocked, with at most `max` agents left. The trigger keeps this out of proofs that do not ask for it. */
  ghost predicate Stuck(w: World, pool: Key, spec: PoolSpec, cache: string, max: int) {
    forall u {:trigger Inspect(u)} :: u == w ==>
      Blocked(u, pool, spec, cache) && |Active(u, pool)| <= max && OwnersMount(u) && OwnPods(u)
  }

  lemma {:induction false} StuckInRun(ss: seq<Sys>, steps: seq<Step>, J: Azure, pool: Key, spec: PoolSpec,
                                      cache: string, max: int, n: nat)
    requires RunOf(ss, steps, J) && n <= |steps| && ss[n].led.reused == ss[0].led.reused
    requires (forall j :: 0 <= j < n ==> Plain(steps[j])) && SameSpec(ss, pool, spec, n)
    requires Stuck(ss[0].w, pool, spec, cache, max)
    ensures Stuck(ss[n].w, pool, spec, cache, max)
  {
    if n > 0 {
      FreshSoFar(ss, steps, J, n);
      StuckInRun(ss, steps, J, pool, spec, cache, max, n - 1);
      StepStaysStuck(ss[n - 1], ss[n], J, steps[n - 1], pool, spec, cache, max);
    }
  }

  /** A pool all of whose slots of some template are stranded never creates an agent again, whatever succeeds
      and however often it is reconciled or re-created, until its spec is edited. */
  lemma BlockedForGood(ss: seq<Sys>, steps: seq<Step>, J: Azure, pool: Key, spec: PoolSpec, cache: string, n: nat)
    requires RunOf(ss, steps, J) && n <= |steps| && ss[n].led.reused == ss[0].led.reused
    requires (forall j :: 0 <= j < n ==> Plain(steps[j])) && SameSpec(ss, pool, spec, n)
    requires OwnersMount(ss[0].w) && OwnPods(ss[0].w) && Blocked(ss[0].w, pool, spec, cache)
    ensures Blocked(ss[n].w, pool, spec, cache) && |Active(ss[n].w, pool)| <= |Active(ss[0].w, pool)|
  {
    StuckInRun(ss, steps, J, pool, spec, cache, |Active(ss[0].w, pool)|, n);
    assert Inspect(ss[n].w);
  }

  /** The last of the first `n` steps, and that neither it nor those before it chose a name that was taken. */
  lemma FreshSoFar(ss: seq<Sys>, steps: seq<Step>, J: Azure, n: nat)
    requires RunOf(ss, steps, J) && 0 < n <= |steps| && ss[n].led.reused == ss[0].led.reused
    ensures StepOf(ss[n - 1], ss[n], J, steps[n - 1])
    ensures ss[n - 1].led.reused == ss[0].led.reused == ss[n].led.reused
  {
    RunGrows(ss, steps, J, n - 1);
    StepIn(ss, steps, J, n - 1);
    StepGrows(ss[n - 1], ss[n], J, steps[n - 1]);
  }

  lemma StepStaysBlocked(s: Sys, t: Sys, J: Azure, step: Step, pool: Key, spec: PoolSpec, cache: string)
    requires StepOf(s, t, J, step) && t.led.reused == s.led.reused && Plain(step)
    requires OwnersMount(s.w) && OwnPods(s.w) && Blocked(s.w, pool, spec, cache) && SpecsHold(s.w, pool, spec)
    ensures Blocked(t.w, pool, spec, cache) && |Active(t.w, pool)| <= |Active(s.w, pool)|
    ensures OwnersMount(t.w) && OwnPods(t.w)
  {
    StepBooks(s, t, J, step, pool);
    StepKeepsSlots(s, t, J, step, pool, spec, cache);
    StepAddsNone(s, t, J, step, pool, spec, cache);
  }

  lemma StepStaysStuck(s: Sys, t: Sys, J: Azure, step: Step, pool: Key, spec: PoolSpec, cache: string, max: int)
    requires StepOf(s, t, J, step) && t.led.reused == s.led.reused && Plain(step)
    requires SpecsHold(s.w, pool, spec) && Stuck(s.w, pool, spec, cache, max)
    ensures Stuck(t.w, pool, spec, cache, max)
  {
    assert Inspect(s.w);
    StepStaysBlocked(s, t, J, step, pool, spec, cache);
  }

  // ----- scale-up never runs out -----

  /** A step that removes no pod holding claims of the pool except by cleanup, and fails no release. */
  ghost predicate Careful(s: Sys, t: Sys, step: Step, pool: Key) {
    && t.led.releaseFaults == s.led.releaseFaults
    && HoldersStay(s.w, t.w, MovesIn(step), pool)
    && (step.Reconciled? ==> Regular(step.key, step.p, pool))
  }

  ghost predicate CarefulAt(ss: seq<Sys>, steps: seq<Step>, pool: Key, j: nat)
    requires |ss| == |steps| + 1 && j < |steps|
  {
    Careful(ss[j], ss[j + 1], steps[j], pool)
  }

  lemma StepStrandsNothing(s: Sys, t: Sys, J: Azure, step: Step, pool: Key)
    requires StepOf(s, t, J, step) && Careful(s, t, step, pool)
    requires Inv(s.w) && OwnPods(s.w) && Stranded(s.w, pool) == {}
    ensures Inv(t.w) && OwnPods(t.w) && Stranded(t.w, pool) == {}
    ensures step.Reconciled? && step.p.Full? ==> Stranded(step.p.f.cleaned.w, pool) == {}
  {
    StepKeepsInv(s, t, J, step);
    if step.Reconciled? {
      NothingStranded(s, t, step.key, J, step.p, pool);
    } else {
      TimeStrandsNothing(s.w, t.w, MovesIn(step), pool);
    }
  }

  lemma TimeStrandsNothing(w: World, v: World, m: Moves, pool: Key)
    requires v.pods == w.pods && v.pvcs == w.pvcs && w.now <= v.now && HoldersStay(w, v, m, pool)
    ensures Stranded(v, pool) <= Stranded(w, pool)
    ensures OwnPods(w) ==> OwnPods(v)
  {
  }

  /** As long as no release failed and no holder was removed except by cleanup, nothing is stranded. */
  lemma {:induction false} NothingStrandedInRun(ss: seq<Sys>, steps: seq<Step>, J: Azure, pool: Key, n: nat)
    requires RunOf(ss, steps, J) && n <= |steps|
    requires forall j: nat :: j < n ==> CarefulAt(ss, steps, pool, j)
    requires Inv(ss[0].w) && OwnPods(ss[0].w) && Stranded(ss[0].w, pool) == {}
    ensures Inv(ss[n].w) && OwnPods(ss[n].w) && Stranded(ss[n].w, pool) == {}
  {
    if n > 0 {
      NothingStrandedInRun(ss, steps, J, pool, n - 1);
      StepIn(ss, steps, J, n - 1);
      assert CarefulAt(ss, steps, pool, n - 1);
      StepStrandsNothing(ss[n - 1], ss[n], J, steps[n - 1], pool);
    }
  }

  /** Up to step `n` no AgentPool of the namespace has templates whose slots would bear the names of these,
      and no earlier template of the AgentPool itself agrees with one of these in its first 20 bytes. */
  ghost predicate NamesApartInRun(ss: seq<Sys>, key: Key, caches: seq<string>, n: nat) {
    n < |ss| && forall j, k :: 0 <= j <= n && k in ss[j].w.pools ==>
      StemsApart(key, caches, k, ss[j].w.pools[k].spec.caches)
  }

  /** The claims that bear planned names are then the AgentPool's own all along. */
  lemma {:induction false} NamesOwnedInRun(ss: seq<Sys>, steps: seq<Step>, J: Azure, key: Key, spec: PoolSpec,
                                           n: nat)
    requires RunOf(ss, steps, J) && n <= |steps| && NamesApartInRun(ss, key, spec.caches, n)
    requires NamesOwned(ss[0].w.pvcs, key, spec)
    ensures NamesOwned(ss[n].w.pvcs, key, spec)
  {
    if n > 0 {
      NamesOwnedInRun(ss, steps, J, key, spec, n - 1);
      StepIn(ss, steps, J, n - 1);
      if steps[n - 1].Reconciled? {
        PassKeepsNames(ss[n - 1], ss[n], steps[n - 1].key, J, steps[n - 1].p, key, spec);
      }
    }
  }

  /** In such a run a pass whose provisioning succeeded never finds the pool at capacity, and creates all
      the pods it wants unless a call fails. */
  lemma NeverAtCapacity(ss: seq<Sys>, steps: seq<Step>, J: Azure, n: nat)
    requires RunOf(ss, steps, J) && n < |steps| && steps[n].Reconciled? && steps[n].p.Full?
    requires forall j: nat :: j <= n ==> CarefulAt(ss, steps, steps[n].key, j)
    requires Inv(ss[0].w) && OwnPods(ss[0].w) && Stranded(ss[0].w, steps[n].key) == {}
    requires var f := steps[n].p.f;
      && f.ensured && f.spec.minAgents <= f.spec.maxAgents && DistinctCuts(f.spec.caches)
      && NamesOwned(ss[0].w.pvcs, steps[n].key, f.spec) && NamesApartInRun(ss, steps[n].key, f.spec.caches, n)
    ensures var f := steps[n].p.f;
      !f.growth.full && (f.growth.created < f.ToCreate() ==> !NoFault(f.cleaned, f.grown))
  {
    var key, p := steps[n].key, steps[n].p;
    StepIn(ss, steps, J, n);
    NothingStrandedInRun(ss, steps, J, key, n);
    NamesOwnedInRun(ss, steps, J, key, p.f.spec, n);
    assert CarefulAt(ss, steps, key, n);
    StepStrandsNothing(ss[n], ss[n + 1], J, steps[n], key);
    ProvisioningSuffices(ss[n], ss[n + 1], key, J, p.f);
  }

  // ----- convergence -----

  /** Passes of any pools while the environment stands still. */
  ghost predicate Still(ss: seq<Sys>, steps: seq<Step>, n: nat) {
    && n <= |steps| && |ss| == |steps| + 1 && ss[n].w.now == ss[0].w.now
    && (forall j :: 0 <= j < n ==> steps[j].Reconciled?)
    && (forall j, k :: 0 <= j < n && k in ss[j].w.pools ==> OwnLabel(k, ss[j].w.pools[k].spec))
  }

  lemma OtherPassKeepsDistance(s: Sys, t: Sys, key: Key, J: Azure, p: Pass, pool: Key)
    requires PassOf(s, t, key, J, p) && Frozen(s, t) && Settled(s.w, pool) && key != pool
    requires key in s.w.pools ==> OwnLabel(key, s.w.pools[key].spec)
    ensures Settled(t.w, pool) && t.w.pools[pool] == s.w.pools[pool] && Distance(t.w, pool, J) <= Distance(s.w, pool, J)
  {
    PassIsIsolated(s, t, key, J, p);
    if key in s.w.pools {
      OtherPoolUntouched(s.w, t.w, key, pool);
      SameSets(s.w, t.w, pool, J);
    }
  }

  lemma SameSets(w: World, v: World, pool: Key, J: Azure)
    requires v.now == w.now && w.pvcs.Keys <= v.pvcs.Keys
    requires Active(v, pool) == Active(w, pool) && Completed(v, pool) == Completed(w, pool)
    requires pool in w.pools && pool in v.pools && v.pools[pool] == w.pools[pool]
    ensures Distance(v, pool, J) <= Distance(w, pool, J)
  {
    SubsetCard(Missing(v, pool, w.pools[pool].spec), Missing(w, pool, w.pools[pool].spec));
  }

  /** While nothing moves, a pool never gets further from its goal, whatever calls of whatever passes fail;
      once there, it stays there. */
  lemma {:induction false} DistanceInRun(ss: seq<Sys>, steps: seq<Step>, J: Azure, pool: Key, n: nat)
    requires RunOf(ss, steps, J) && Still(ss, steps, n) && Settled(ss[0].w, pool)
    ensures Settled(ss[n].w, pool) && Distance(ss[n].w, pool, J) <= Distance(ss[0].w, pool, J)
  {
    if n > 0 {
      RunGrows(ss, steps, J, n - 1);
      StepIn(ss, steps, J, n - 1);
      StepGrows(ss[n - 1], ss[n], J, steps[n - 1]);
      DistanceInRun(ss, steps, J, pool, n - 1);
      var key, p := steps[n - 1].key, steps[n - 1].p;
      if key == pool {
        NeverFurther(ss[n - 1], ss[n], pool, J, p);
      } else {
        OtherPassKeepsDistance(ss[n - 1], ss[n], key, J, p, pool);
      }
    }
  }

  /** A run that begins with a failure-free full pass over the pool that has the claims it needs. The pass may
      be the first of the AgentPool's life. */
  ghost predicate WellBegun(ss: seq<Sys>, steps: seq<Step>, J: Azure, pool: Key, n: nat) {
    && RunOf(ss, steps, J) && 0 < n && Still(ss, steps, n)
    && steps[0].Reconciled? && steps[0].key == pool && steps[0].p.Full? && NoFault(ss[0], ss[1])
    && var f := steps[0].p.f;
      && Resolved(pool, f) && Distinct(f.spec.caches) && IdsOk(ss[0].w.ado)
      && HasFree(Prepared(ss[0].w, pool, f.spec), pool, f.spec.caches, f.Target() - |Active(ss[0].w, pool)|)
  }

  lemma StaysThere(ss: seq<Sys>, steps: seq<Step>, J: Azure, pool: Key, n: nat)
    requires WellBegun(ss, steps, J, pool, n)
    ensures Settled(ss[n].w, pool) && Distance(ss[n].w, pool, J) == 0
  {
    StepIn(ss, steps, J, 0);
    FrozenFirst(ss, steps, J, n);
    Arrives(ss[0], ss[1], pool, J, steps[0].p.f);
    RestOfRun(ss, steps, J, n);
    DistanceInRun(ss[1..], steps[1..], J, pool, n - 1);
  }

  /** After one failure-free full pass that had the claims it needed, the pool stays at its goal for as long
      as nothing moves: further passes write nothing for it but its status. */
  lemma ArrivesForGood(ss: seq<Sys>, steps: seq<Step>, J: Azure, pool: Key, n: nat)
    requires WellBegun(ss, steps, J, pool, n)
    ensures Settled(ss[n].w, pool) && Distance(ss[n].w, pool, J) == 0
    ensures (n < |steps| && Frozen(ss[n], ss[n + 1])
             && steps[n].Reconciled? && steps[n].key == pool && steps[n].p.Full?) ==>
      ss[n + 1].led.writes == ss[n].led.writes && ss[n + 1].w == ss[n].w.(pools := ss[n + 1].w.pools)
  {
    StaysThere(ss, steps, J, pool, n);
    if n < |steps| && Frozen(ss[n], ss[n + 1]) && steps[n].Reconciled? && steps[n].key == pool && steps[n].p.Full? {
      StepIn(ss, steps, J, n);
      Quiet(ss[n], ss[n + 1], pool, J, steps[n].p.f);
    }
  }

  lemma FrozenFirst(ss: seq<Sys>, steps: seq<Step>, J: Azure, n: nat)
    requires RunOf(ss, steps, J) && 0 < n <= |steps| && ss[n].w.now == ss[0].w.now
    ensures Frozen(ss[0], ss[1])
  {
    RestOfRun(ss, steps, J, n);
    RunGrows(ss[1..], steps[1..], J, n - 1);
    RunGrows(ss, steps, J, 1);
  }

  lemma RestOfRun(ss: seq<Sys>, steps: seq<Step>, J: Azure, n: nat)
    requires RunOf(ss, steps, J) && 0 < n <= |steps|
    ensures RunOf(ss[1..], steps[1..], J) && ss[1..][0] == ss[1] && ss[1..][n - 1] == ss[n]
    ensures Still(ss, steps, n) && Frozen(ss[0], ss[1]) ==> Still(ss[1..], steps[1..], n - 1)
  {
    forall i: nat | i < |steps[1..]|
      ensures StepAt(ss[1..], steps[1..], J, i)
    {
      assert StepAt(ss, steps, J, i + 1);
    }
  }
}
