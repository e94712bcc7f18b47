/** The state the operator works on: the objects of the Kubernetes API server and the Azure DevOps
    (ADO) registry, and what the environment may do to them behind the operator's back. */
module Store {
  import opened Base

  /** Namespace and name of an API object. The key of an AgentPool also selects its pods and claims:
      they live in its namespace and carry its name in the label `agentpool`. */
  datatype Key = Key(ns: string, name: string)

  datatype Phase = Pending | Running | Succeeded | Failed

  predicate IsActive(p: Phase) { p == Pending || p == Running }

  predicate IsCompleted(p: Phase): (r: bool)
    ensures r <==> !IsActive(p)
  {
    p == Succeeded || p == Failed
  }

  /** Phases only move forward. */
  predicate PhaseLe(p: Phase, q: Phase) {
    p == q || p == Pending || (p == Running && IsCompleted(q))
  }

  /** What the environment does to a pod, in numbers of environment moves: when it starts running, when
      it ends, when somebody outside deletes it. Every forward timeline is one of these. */
  datatype Fate = Fate(runs: Option<nat>, ends: Option<nat>, success: bool, vanishes: Option<nat>)

  predicate Due(t: Option<nat>, now: nat) { t.Some? && t.value <= now }

  /** The phase after `now` environment moves, or None once the pod is gone. */
  function PhaseAt(f: Fate, now: nat): Option<Phase> {
    if Due(f.vanishes, now) then None
    else if Due(f.ends, now) then Some(if f.success then Succeeded else Failed)
    else if Due(f.runs, now) then Some(Running)
    else Some(Pending)
  }

  lemma PhaseMovesForward(f: Fate, t: nat, u: nat)
    requires t <= u && PhaseAt(f, u).Some?
    ensures PhaseAt(f, t).Some? && PhaseLe(PhaseAt(f, t).value, PhaseAt(f, u).value)
  {
  }

  /** A pod: the value of its `agentpool` label, its volumes (volume name -> claim name), its fate. */
  datatype Pod = Pod(pool: string, claims: map<string, string>, fate: Fate)

  datatype SlotState = Free | Assigned

  /** A persistent volume claim, reduced to the five labels the operator puts on it. */
  datatype Pvc = Pvc(pool: string, cache: string, slot: int, state: SlotState, assignedPod: Option<string>)

  /** `poolName` is the name of the pool in ADO. */
  datatype PoolSpec = PoolSpec(poolName: string, minAgents: int, maxAgents: int, caches: seq<string>,
                               podLabels: map<string, string>)

  datatype PoolStatus = PoolStatus(poolID: int, dummyAgentID: int, activeAgents: Option<int>, pendingJobs: Option<int>)

  /** An AgentPool object as persisted. */
  datatype Pool = Pool(spec: PoolSpec, status: PoolStatus, finalizer: bool, deleting: bool)

  /** A job request of ADO: whether it has a finish time, and the agent reserved for it. */
  datatype Job = Job(finished: bool, reservedAgent: Option<string>)

  /** What ADO answers at a time: the job list of a pool, and the ids of the pools of a name. */
  datatype Azure = Azure(jobs: (int, nat) -> seq<Job>, pools: (string, nat) -> seq<int>)

  type Pods = map<Key, Pod>
  type Pvcs = map<Key, Pvc>

  /** The agents registered in each ADO pool under the name of a placeholder: pool id -> agent id -> name.
      Agents of pods never bear such a name (Naming.PodNameIsNotDummy) and are not recorded. */
  type Registry = map<int, map<int, string>>

  /** `now` is the number of environment moves so far. */
  datatype World = World(pods: Pods, pvcs: Pvcs, pools: map<Key, Pool>, ado: Registry, now: nat)

  // ----- selections -----

  predicate InPool(k: Key, poolLabel: string, pool: Key) { k.ns == pool.ns && poolLabel == pool.name }

  predicate Live(w: World, k: Key) { k in w.pods && PhaseAt(w.pods[k].fate, w.now).Some? }

  predicate ActiveNow(w: World, k: Key) { Live(w, k) && IsActive(PhaseAt(w.pods[k].fate, w.now).value) }

  predicate CompletedNow(w: World, k: Key) { Live(w, k) && IsCompleted(PhaseAt(w.pods[k].fate, w.now).value) }

  function Members(w: World, pool: Key): set<Key> {
    set k | k in w.pods && InPool(k, w.pods[k].pool, pool) && Live(w, k)
  }

  function Active(w: World, pool: Key): set<Key> {
    set k | k in w.pods && InPool(k, w.pods[k].pool, pool) && ActiveNow(w, k)
  }

  function Completed(w: World, pool: Key): set<Key> {
    set k | k in w.pods && InPool(k, w.pods[k].pool, pool) && CompletedNow(w, k)
  }

  function Slots(pvcs: Pvcs, pool: Key, cache: string): set<Key> {
    set c | c in pvcs && InPool(c, pvcs[c].pool, pool) && pvcs[c].cache == cache
  }

  function FreeSlots(pvcs: Pvcs, pool: Key, cache: string): set<Key> {
    set c | c in pvcs && InPool(c, pvcs[c].pool, pool) && pvcs[c].cache == cache && pvcs[c].state == Free
  }

  /** The claims of one pool that are labelled with the name of the given pod. */
  function SlotsOf(pvcs: Pvcs, pool: Key, pod: string): set<Key> {
    set c | c in pvcs && InPool(c, pvcs[c].pool, pool) && pvcs[c].assignedPod == Some(pod)
  }

  predicate Distinct(s: seq<string>) {
    forall i, j :: 0 <= i < j < |s| ==> s[i] != s[j]
  }

  // ----- who uses a claim -----

  function ClaimKey(k: Key, pod: Pod, volume: string): Key
    requires volume in pod.claims
  {
    Key(k.ns, pod.claims[volume])
  }

  ghost predicate Names(claims: map<string, string>, name: string) {
    exists v :: v in claims && claims[v] == name
  }

  /** The pod exists and mounts the claim. */
  ghost predicate Mounts(w: World, k: Key, c: Key) {
    Live(w, k) && c.ns == k.ns && Names(w.pods[k].claims, c.name)
  }

  /** The claim is labelled with a pod that exists and mounts it. */
  ghost predicate Held(w: World, c: Key) {
    c in w.pvcs && w.pvcs[c].assignedPod.Some? && Mounts(w, Key(c.ns, w.pvcs[c].assignedPod.value), c)
  }

  /** The claims of a pool that are taken although no existing pod holds them. */
  ghost function Stranded(w: World, pool: Key): set<Key> {
    set c | c in w.pvcs && InPool(c, w.pvcs[c].pool, pool) && w.pvcs[c].state == Assigned && !Held(w, c)
  }

  // ----- invariants of every instant -----

  /** The two state labels agree. */
  ghost predicate LabelsOk(pvcs: Pvcs) {
    forall c :: c in pvcs ==> (pvcs[c].state == Free <==> pvcs[c].assignedPod == None)
  }

  /** Claims mounted by pods exist, and a volume mounts a claim of the template it is named after. */
  ghost predicate ClaimsOk(w: World) {
    forall k, v :: k in w.pods && v in w.pods[k].claims ==>
      var c := ClaimKey(k, w.pods[k], v); c in w.pvcs && w.pvcs[c].cache == v
  }

  /** Each claim mounted by a running or pending pod is labelled with exactly that pod. */
  ghost predicate Exclusive(w: World) {
    forall k, v :: k in w.pods && v in w.pods[k].claims && ActiveNow(w, k) ==>
      var c := ClaimKey(k, w.pods[k], v); c in w.pvcs && w.pvcs[c].assignedPod == Some(k.name)
  }

  ghost predicate Inv(w: World) {
    LabelsOk(w.pvcs) && ClaimsOk(w) && Exclusive(w)
  }

  ghost predicate WithinBounds(w: World, bounds: map<Key, nat>) {
    forall p :: p in bounds ==> |Active(w, p)| <= bounds[p]
  }

  ghost predicate Safe(w: World, bounds: map<Key, nat>) {
    Inv(w) && WithinBounds(w, bounds)
  }

  /** The ids of ADO pools and agents are positive and fit an int32. */
  ghost predicate IdsOk(a: Registry) {
    && (forall p :: p in a ==> 0 < p <= INT32_MAX)
    && (forall p, id :: p in a && id in a[p] ==> 0 < id <= INT32_MAX)
  }

  // ----- changes to claims -----

  /** The claims of `g` become assigned, each to the pod `g` names. */
  function Grant(pvcs: Pvcs, g: map<Key, string>): (r: Pvcs)
    ensures r.Keys == pvcs.Keys
  {
    map c | c in pvcs :: if c in g then pvcs[c].(state := Assigned, assignedPod := Some(g[c])) else pvcs[c]
  }

  /** The claims of `R` become free. */
  function ReleaseAll(pvcs: Pvcs, R: set<Key>): (r: Pvcs)
    ensures r.Keys == pvcs.Keys
  {
    map c | c in pvcs :: if c in R then pvcs[c].(state := Free, assignedPod := None) else pvcs[c]
  }

  ghost predicate AllFree(pvcs: Pvcs, cs: set<Key>) {
    forall c :: c in cs ==> c in pvcs && pvcs[c].state == Free
  }

  lemma GrantMore(pvcs: Pvcs, g: map<Key, string>, h: map<Key, string>)
    ensures Grant(Grant(pvcs, g), h) == Grant(pvcs, g + h)
  {
  }

  lemma GrantOne(pvcs: Pvcs, c: Key, pod: string)
    requires c in pvcs
    ensures Grant(pvcs, map[c := pod]) == pvcs[c := pvcs[c].(state := Assigned, assignedPod := Some(pod))]
  {
  }

  lemma ReleaseOne(pvcs: Pvcs, c: Key)
    requires c in pvcs
    ensures ReleaseAll(pvcs, {c}) == pvcs[c := pvcs[c].(state := Free, assignedPod := None)]
  {
  }

  lemma ReleaseMore(pvcs: Pvcs, R: set<Key>, Q: set<Key>)
    ensures ReleaseAll(ReleaseAll(pvcs, R), Q) == ReleaseAll(pvcs, R + Q)
  {
  }

  /** Releasing what was granted from the free claims restores them exactly. */
  lemma ReleaseUndoesGrant(pvcs: Pvcs, g: map<Key, string>, R: set<Key>)
    requires LabelsOk(pvcs) && AllFree(pvcs, g.Keys) && R <= g.Keys
    ensures ReleaseAll(Grant(pvcs, g), R) == Grant(pvcs, g - R)
  {
  }

  lemma FreeAfterGrant(pvcs: Pvcs, g: map<Key, string>, pool: Key, cache: string)
    ensures FreeSlots(Grant(pvcs, g), pool, cache) == FreeSlots(pvcs, pool, cache) - g.Keys
  {
  }

  // ----- every change keeps the invariant -----

  lemma ActiveShrinks(w: World, now: nat, pool: Key)
    requires w.now <= now
    ensures Active(w.(now := now), pool) <= Active(w, pool)
    ensures |Active(w.(now := now), pool)| <= |Active(w, pool)|
  {
    SubsetCard(Active(w.(now := now), pool), Active(w, pool));
  }

  /** The environment may move at any time. */
  lemma SafeUnderMove(w: World, now: nat, bounds: map<Key, nat>)
    requires Safe(w, bounds) && w.now <= now
    ensures Safe(w.(now := now), bounds)
  {
    forall pool | pool in bounds
      ensures |Active(w.(now := now), pool)| <= bounds[pool]
    {
      ActiveShrinks(w, now, pool);
    }
  }

  /** Deleting a pod is always safe. */
  lemma SafeUnderDelete(w: World, k: Key, bounds: map<Key, nat>)
    requires Safe(w, bounds)
    ensures Safe(w.(pods := w.pods - {k}), bounds)
  {
    var v := w.(pods := w.pods - {k});
    forall pool | pool in bounds
      ensures |Active(v, pool)| <= bounds[pool]
    {
      SubsetCard(Active(v, pool), Active(w, pool));
    }
  }

  lemma ActiveIgnoresPvcs(w: World, pvcs: Pvcs, bounds: map<Key, nat>)
    requires WithinBounds(w, bounds)
    ensures WithinBounds(w.(pvcs := pvcs), bounds)
  {
    forall pool | pool in bounds
      ensures |Active(w.(pvcs := pvcs), pool)| <= bounds[pool]
    {
      assert Active(w.(pvcs := pvcs), pool) == Active(w, pool);
    }
  }

  /** Creating a free claim is always safe. */
  lemma SafeUnderCreatePvc(w: World, c: Key, pvc: Pvc, bounds: map<Key, nat>)
    requires Safe(w, bounds) && c !in w.pvcs && pvc.state == Free && pvc.assignedPod == None
    ensures Safe(w.(pvcs := w.pvcs[c := pvc]), bounds)
  {
    ActiveIgnoresPvcs(w, w.pvcs[c := pvc], bounds);
  }

  /** Assigning a free claim disturbs no active pod: none mounts it. */
  lemma SafeUnderAssign(w: World, c: Key, pod: string, bounds: map<Key, nat>)
    requires Safe(w, bounds) && c in w.pvcs && w.pvcs[c].state == Free
    ensures Safe(w.(pvcs := Grant(w.pvcs, map[c := pod])), bounds)
  {
    ActiveIgnoresPvcs(w, Grant(w.pvcs, map[c := pod]), bounds);
  }

  /** No active pod mounts any of the claims `cs`. */
  ghost predicate Unused(w: World, cs: set<Key>) {
    forall k, v :: k in w.pods && v in w.pods[k].claims && ActiveNow(w, k) ==> ClaimKey(k, w.pods[k], v) !in cs
  }

  lemma UnusedKept(w: World, v: World, cs: set<Key>)
    requires Unused(w, cs) && v.pods == w.pods && w.now <= v.now
    ensures Unused(v, cs)
  {
  }

  /** Free claims are unused. */
  lemma FreeIsUnused(w: World, cs: set<Key>)
    requires Inv(w) && AllFree(w.pvcs, cs)
    ensures Unused(w, cs)
  {
  }

  /** The claims labelled with a pod that is gone or completed are unused. */
  lemma RetiredIsUnused(w: World, pool: Key, pod: string)
    requires Inv(w) && !ActiveNow(w, Key(pool.ns, pod))
    ensures Unused(w, SlotsOf(w.pvcs, pool, pod))
  {
  }

  /** Releasing an unused claim is safe. */
  lemma SafeUnderRelease(w: World, c: Key, bounds: map<Key, nat>)
    requires Safe(w, bounds) && c in w.pvcs && Unused(w, {c})
    ensures Safe(w.(pvcs := ReleaseAll(w.pvcs, {c})), bounds)
  {
    var v := w.(pvcs := ReleaseAll(w.pvcs, {c}));
    forall k, x | k in v.pods && x in v.pods[k].claims && ActiveNow(v, k)
      ensures v.pvcs[ClaimKey(k, v.pods[k], x)].assignedPod == Some(k.name)
    {
      assert ActiveNow(w, k);
      assert ClaimKey(k, w.pods[k], x) !in {c};
    }
    ActiveIgnoresPvcs(w, v.pvcs, bounds);
  }

  /** The claims a pod mounts exist, fit its volumes, and are labelled with its name. */
  ghost predicate OwnsClaims(pvcs: Pvcs, k: Key, pod: Pod) {
    forall v :: v in pod.claims ==>
      var c := ClaimKey(k, pod, v); c in pvcs && pvcs[c].cache == v && pvcs[c].assignedPod == Some(k.name)
  }

  lemma ActiveAfterCreate(w: World, k: Key, pod: Pod, pool: Key)
    requires !Live(w, k) && ActiveNow(w.(pods := w.pods[k := pod]), k)
    ensures var v := w.(pods := w.pods[k := pod]);
      && Active(v, pool) == Active(w, pool) + (if InPool(k, pod.pool, pool) then {k} else {})
      && |Active(v, pool)| == |Active(w, pool)| + (if InPool(k, pod.pool, pool) then 1 else 0)
  {
  }

  /** Creating a pod that owns its claims is safe while its pool is below its bound. */
  lemma SafeUnderCreatePod(w: World, k: Key, pod: Pod, bounds: map<Key, nat>)
    requires Safe(w, bounds) && OwnsClaims(w.pvcs, k, pod)
    requires !Live(w, k) && ActiveNow(w.(pods := w.pods[k := pod]), k)
    requires var p := Key(k.ns, pod.pool); p in bounds ==> |Active(w, p)| < bounds[p]
    ensures Safe(w.(pods := w.pods[k := pod]), bounds)
  {
    var v := w.(pods := w.pods[k := pod]);
    forall pool | pool in bounds
      ensures |Active(v, pool)| <= bounds[pool]
    {
      ActiveAfterCreate(w, k, pod, pool);
    }
  }

  // ----- what exclusivity means -----

  /** Two different active pods never mount the same claim, and no free claim is in use. */
  lemma ExclusiveMounts(w: World, j: Key, k: Key, c: Key)
    requires Inv(w) && Mounts(w, j, c) && ActiveNow(w, j)
    ensures c in w.pvcs && w.pvcs[c].state == Assigned && w.pvcs[c].assignedPod == Some(j.name)
    ensures Mounts(w, k, c) && ActiveNow(w, k) ==> k == j
  {
    var v :| v in w.pods[j].claims && w.pods[j].claims[v] == c.name;
    assert ClaimKey(j, w.pods[j], v) == c;
    if Mounts(w, k, c) && ActiveNow(w, k) {
      var u :| u in w.pods[k].claims && w.pods[k].claims[u] == c.name;
      assert ClaimKey(k, w.pods[k], u) == c;
    }
  }
}
