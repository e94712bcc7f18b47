/** The cache-volume allocator: provisioning, assignment with rollback, release and counting of claims. */
module Allocator {
  import opened Base
  import opened Store
  import opened Ledgers
  import opened Clusters

  function BuildPvc(pool: Key, cache: string, slot: nat): Pvc {
    Pvc(pool.name, cache, slot, Free, None)
  }

  // ----- provisioning -----

  /** The claims of the first `n` slots of one template. */
  function CachePlan(names: SlotNames, pool: Key, cache: string, n: nat): Pvcs {
    if n == 0 then map[]
    else map[names(cache, n - 1) := BuildPvc(pool, cache, n - 1)] + CachePlan(names, pool, cache, n - 1)
  }

  /** The claims of all templates; where two slots want the same name the earlier one has it. */
  function Plan(names: SlotNames, pool: Key, caches: seq<string>, n: nat): Pvcs {
    if caches == [] then map[]
    else
      var last := |caches| - 1;
      CachePlan(names, pool, caches[last], n) + Plan(names, pool, caches[..last], n)
  }

  function MaxSlots(spec: PoolSpec): (r: nat)
    ensures r == spec.maxAgents || (r == 0 && spec.maxAgents < 0)
  {
    if spec.maxAgents < 0 then 0 else spec.maxAgents
  }

  /** Everything provisioning wants to exist. */
  function PlanOf(names: SlotNames, pool: Key, spec: PoolSpec): Pvcs {
    Plan(names, pool, spec.caches, MaxSlots(spec))
  }

  /** The claims once the first `i` templates have theirs and the next one its first `n`. */
  function Reached(names: SlotNames, pool: Key, spec: PoolSpec, i: nat, n: nat, p: Pvcs): Pvcs
    requires i < |spec.caches|
  {
    CachePlan(names, pool, spec.caches[i], n) + (Plan(names, pool, spec.caches[..i], MaxSlots(spec)) + p)
  }

  /** Existing claims keep their labels, and the new ones are as planned. */
  ghost predicate Extended(p: Pvcs, q: Pvcs, plan: Pvcs) {
    && (forall c :: c in p ==> c in q && q[c] == p[c])
    && (forall c :: c in q && c !in p ==> c in plan && q[c] == plan[c])
  }

  /** The operator did nothing but create claims. */
  ghost predicate CreatesOnly(s: Sys, t: Sys) {
    && Grows(s, t)
    && t.w == s.w.(pvcs := t.w.pvcs, now := t.w.now)
    && t.led == s.led.(faults := t.led.faults, writes := t.led.writes)
    && (t.w.pvcs.Keys == s.w.pvcs.Keys ==> t.led.writes == s.led.writes)
    && s.w.pvcs.Keys <= t.w.pvcs.Keys
  }

  /** One iteration: the slot exists afterwards, or a call failed. */
  method EnsureSlot(c: Cluster, pool: AgentPool, cache: string, slot: nat) returns (ok: bool)
    requires c.Ok()
    modifies c
    ensures c.Ok() && CreatesOnly(old(c.S()), c.S())
    ensures FailedCalls(old(c.S()), c.S()) == if ok then 0 else 1
    ensures c.pvcs ==
      if ok then map[pool.names(cache, slot) := BuildPvc(pool.key, cache, slot)] + old(c.pvcs) else old(c.pvcs)
  {
    var name := pool.names(cache, slot);
    var reply, _ := c.GetPvc(name);
    if reply == Done {
      return true;
    }
    if reply != NotFound {
      return false;
    }
    ok := c.SetControllerReference();
    if !ok {
      return;
    }
    reply := c.CreatePvc(name, BuildPvc(pool.key, cache, slot));
    ok := reply == Done || reply == AlreadyExists;
  }

  /** The inner loop: every slot of one template, up to the first failure. */
  method EnsureCache(c: Cluster, pool: AgentPool, cache: string) returns (ok: bool, ghost n: nat)
    requires c.Ok()
    modifies c
    ensures c.Ok() && CreatesOnly(old(c.S()), c.S())
    ensures FailedCalls(old(c.S()), c.S()) == if ok then 0 else 1
    ensures n <= MaxSlots(pool.spec) && (ok <==> n == MaxSlots(pool.spec))
    ensures c.pvcs == CachePlan(pool.names, pool.key, cache, n) + old(c.pvcs)
  {
    ghost var s := c.S();
    n := 0;
    var slot := 0;
    while slot < pool.spec.maxAgents
      invariant c.Ok() && CreatesOnly(s, c.S()) && NoFault(s, c.S())
      invariant n == slot <= MaxSlots(pool.spec)
      invariant c.pvcs == CachePlan(pool.names, pool.key, cache, n) + s.w.pvcs
    {
      ok := EnsureSlot(c, pool, cache, slot);
      if !ok {
        return;
      }
      UnionAssoc(map[pool.names(cache, slot) := BuildPvc(pool.key, cache, slot)],
                 CachePlan(pool.names, pool.key, cache, n), s.w.pvcs);
      slot, n := slot + 1, n + 1;
    }
    ok := true;
  }

  /** Creates the claims that are missing, in the order of the plan, up to the first failure. */
  method EnsurePVCPool(c: Cluster, pool: AgentPool) returns (ok: bool)
    requires c.Ok()
    modifies c
    ensures c.Ok() && CreatesOnly(old(c.S()), c.S())
    ensures FailedCalls(old(c.S()), c.S()) == if ok then 0 else 1
    ensures Extended(old(c.pvcs), c.pvcs, PlanOf(pool.names, pool.key, pool.spec))
    ensures ok ==> c.pvcs == PlanOf(pool.names, pool.key, pool.spec) + old(c.pvcs)
    ensures !ok ==>
      exists i: nat, n: nat ::
        && i < |pool.spec.caches| && n < MaxSlots(pool.spec)
        && c.pvcs == Reached(pool.names, pool.key, pool.spec, i, n, old(c.pvcs))
  {
    ghost var s := c.S();
    if |pool.spec.caches| == 0 {
      return true;
    }
    for i := 0 to |pool.spec.caches|
      invariant c.Ok() && CreatesOnly(s, c.S()) && NoFault(s, c.S())
      invariant c.pvcs == Plan(pool.names, pool.key, pool.spec.caches[..i], MaxSlots(pool.spec)) + s.w.pvcs
    {
      ghost var n: nat;
      ok, n := EnsureCache(c, pool, pool.spec.caches[i]);
      PlanAdvance(pool.names, pool.key, pool.spec, i, n, s.w.pvcs, c.pvcs);
      if !ok {
        assert c.pvcs == Reached(pool.names, pool.key, pool.spec, i, n, s.w.pvcs);
        return;
      }
    }
    PlanComplete(pool.names, pool.key, pool.spec, s.w.pvcs);
    ok := true;
  }

  lemma UnionAssoc(a: Pvcs, b: Pvcs, d: Pvcs)
    ensures a + (b + d) == (a + b) + d
  {
  }

  lemma {:induction false} CachePlanGrows(names: SlotNames, pool: Key, cache: string, m: nat, n: nat)
    requires m <= n
    ensures CachePlan(names, pool, cache, n) + CachePlan(names, pool, cache, m) == CachePlan(names, pool, cache, n)
  {
    if m < n {
      CachePlanGrows(names, pool, cache, m, n - 1);
    }
  }

  lemma {:induction false} PlanGrows(names: SlotNames, pool: Key, caches: seq<string>, i: nat, n: nat)
    requires i <= |caches|
    ensures Plan(names, pool, caches, n) + Plan(names, pool, caches[..i], n) == Plan(names, pool, caches, n)
  {
    if i == |caches| {
      assert caches[..i] == caches;
    } else {
      var last := |caches| - 1;
      PlanGrows(names, pool, caches[..last], i, n);
      assert caches[..last][..i] == caches[..i];
    }
  }

  lemma PlanComplete(names: SlotNames, pool: Key, spec: PoolSpec, p: Pvcs)
    ensures spec.caches[..|spec.caches|] == spec.caches
    ensures Extended(p, PlanOf(names, pool, spec) + p, PlanOf(names, pool, spec))
  {
    assert spec.caches[..|spec.caches|] == spec.caches;
  }

  /** One more template, or the part of it reached before a failure, keeps to the whole plan. */
  lemma PlanAdvance(names: SlotNames, pool: Key, spec: PoolSpec, i: nat, n: nat, p: Pvcs, q: Pvcs)
    requires i < |spec.caches| && n <= MaxSlots(spec)
    requires q == CachePlan(names, pool, spec.caches[i], n) + (Plan(names, pool, spec.caches[..i], MaxSlots(spec)) + p)
    ensures Extended(p, q, PlanOf(names, pool, spec))
    ensures n == MaxSlots(spec) ==> q == Plan(names, pool, spec.caches[..i + 1], MaxSlots(spec)) + p
  {
    var top := MaxSlots(spec);
    assert spec.caches[..i + 1][..i] == spec.caches[..i];
    CachePlanGrows(names, pool, spec.caches[i], n, top);
    PlanGrows(names, pool, spec.caches, i + 1, top);
    var a, b := CachePlan(names, pool, spec.caches[i], n), CachePlan(names, pool, spec.caches[i], top);
    var d := Plan(names, pool, spec.caches[..i], top);
    UnionAssoc(a, d, p);
    forall c | c in a + d
      ensures c in PlanOf(names, pool, spec) && (a + d)[c] == PlanOf(names, pool, spec)[c]
    {
      assert (b + a) == b;
      assert c in b + d && (b + d)[c] == (a + d)[c];
    }
  }

  // ----- release -----

  method ReleasePVC(c: Cluster, item: PvcItem, ghost cs: set<Key>) returns (ok: bool)
    requires c.Ok() && item.key in c.pvcs && item.pvc == c.pvcs[item.key]
    requires item.key in cs && Idle(c.View(), cs)
    modifies c
    ensures c.Ok() && ClaimsOnly(old(c.S()), c.S()) && Idle(c.View(), cs)
    ensures c.pvcs == if ok then ReleaseAll(old(c.pvcs), {item.key}) else old(c.pvcs)
    ensures c.led.faults == old(c.led).faults + (if ok then 0 else 1)
    ensures c.led.releaseFaults == old(c.led).releaseFaults + (if ok then 0 else 1)
    ensures c.led.writes == old(c.led).writes + (if ok then 1 else 0)
  {
    var modified := item.pvc.(state := Free, assignedPod := None);
    ok := c.PatchPvc(item.key, item.pvc, modified);
    ghost var w := old(c.View()).(now := c.now);
    IdleKept(old(c.View()), w, cs);
    IdleKept(w, c.View(), cs);
    if ok {
      ReleaseOne(w.pvcs, item.key);
      IdleUse(w, cs, item.key);
      SafeUnderRelease(w, item.key, c.bounds);
    } else {
      c.ReleaseFault();
    }
  }

  /** Part of the way through releasing `cs`: `freed` are free again. */
  ghost predicate Releasing(s: Sys, t: Sys, cs: set<Key>, freed: set<Key>) {
    && ClaimsOnly(s, t) && Idle(t.w, cs) && freed <= cs
    && t.w.pvcs == ReleaseAll(s.w.pvcs, freed)
    && FailedCalls(s, t) == FailedReleases(s, t)
    && (freed == {} ==> t.led.writes == s.led.writes)
  }

  /** Frees the claims labelled with the pod. `freed` are those whose patch succeeded; once they could be
      listed, each of the others accounts for a failed patch. */
  method ReleasePVCsForPod(c: Cluster, pool: Key, pod: string)
    returns (ok: bool, ghost freed: set<Key>, ghost listed: bool)
    requires c.Ok() && !ActiveNow(c.View(), Key(pool.ns, pod))
    modifies c
    ensures c.Ok() && Releasing(old(c.S()), c.S(), SlotsOf(old(c.pvcs), pool, pod), freed)
    ensures listed ==> Counts(SlotsOf(old(c.pvcs), pool, pod) - freed, FailedReleases(old(c.S()), c.S()))
    ensures !listed ==> freed == {} && FailedReleases(old(c.S()), c.S()) == 1
    ensures ok ==> freed == SlotsOf(old(c.pvcs), pool, pod)
    ensures ok <==> NoFault(old(c.S()), c.S())
  {
    ghost var s := c.S();
    ghost var cs := SlotsOf(s.w.pvcs, pool, pod);
    var items;
    freed := {};
    assert ReleaseAll(s.w.pvcs, {}) == s.w.pvcs;
    ok, items := c.ListPvcsForPod(pool, pod);
    listed := ok;
    RetiredIsIdle(s, c.bounds, pool, pod, c.View());
    if !ok {
      c.ReleaseFault();
      return;
    }
    ok, freed := ReleaseItems(c, items, cs);
  }

  /** Of the claims tried so far, `freed` are free again and `left` are not, one for each of `n` failures. */
  ghost predicate SortedNow(tried: set<Key>, freed: set<Key>, left: set<Key>, n: int) {
    freed + left == tried && freed !! left && Counts(left, n)
  }

  ghost predicate Sorted(tried: set<Key>, freed: set<Key>, left: set<Key>, n: int) {
    forall x {:trigger Detail(x)} :: x == tried ==> SortedNow(x, freed, left, n)
  }

  lemma SortedMore(tried: set<Key>, freed: set<Key>, left: set<Key>, n: int, k: Key, released: bool)
    requires Sorted(tried, freed, left, n) && k !in tried
    ensures released ==> Sorted(tried + {k}, freed + {k}, left, n)
    ensures !released ==> Sorted(tried + {k}, freed, left + {k}, n + 1)
  {
    assert Detail(tried);
    if released {
      assert SortedNow(tried + {k}, freed + {k}, left, n);
    } else {
      LeftMore(tried, freed, left, n, k);
    }
  }

  lemma LeftMore(tried: set<Key>, freed: set<Key>, left: set<Key>, n: int, k: Key)
    requires SortedNow(tried, freed, left, n) && k !in tried
    ensures SortedNow(tried + {k}, freed, left + {k}, n + 1)
  {
    CountsOne(k);
    CountsMore(left, n, {k}, 1);
  }

  function ItemKeys(items: seq<PvcItem>): set<Key> {
    set i | 0 <= i < |items| :: items[i].key
  }

  lemma OneMoreItem(items: seq<PvcItem>, i: nat)
    requires i < |items|
    ensures ItemKeys(items[..i + 1]) == ItemKeys(items[..i]) + {items[i].key}
  {
    var a, b := items[..i], items[..i + 1];
    assert b[i] == items[i] && forall j :: 0 <= j < i ==> a[j] == b[j];
    assert forall k :: k in ItemKeys(a) ==> k in ItemKeys(b);
  }

  lemma NotTriedYet(items: seq<PvcItem>, i: nat, pvcs: Pvcs, cs: set<Key>)
    requires ListsPvcs(items, pvcs, cs) && i < |items|
    ensures items[i].key !in ItemKeys(items[..i])
  {
  }

  lemma AllItems(items: seq<PvcItem>, pvcs: Pvcs, cs: set<Key>)
    requires ListsPvcs(items, pvcs, cs)
    ensures ItemKeys(items[..|items|]) == cs
  {
    assert items[..|items|] == items;
  }

  method ReleaseItems(c: Cluster, items: seq<PvcItem>, ghost cs: set<Key>) returns (ok: bool, ghost freed: set<Key>)
    requires c.Ok() && ListsPvcs(items, c.pvcs, cs) && Idle(c.View(), cs)
    modifies c
    ensures c.Ok() && Releasing(old(c.S()), c.S(), cs, freed)
    ensures Counts(cs - freed, FailedReleases(old(c.S()), c.S()))
    ensures ok ==> freed == cs
    ensures ok <==> NoFault(old(c.S()), c.S())
  {
    ghost var s := c.S();
    ghost var left: set<Key> := {};
    freed := {};
    ok := true;
    assert ReleaseAll(s.w.pvcs, {}) == s.w.pvcs;
    NothingTried(items);
    for i := 0 to |items|
      invariant c.Ok() && Releasing(s, c.S(), cs, freed)
      invariant Sorted(ItemKeys(items[..i]), freed, left, FailedReleases(s, c.S()))
      invariant ok <==> NoFault(s, c.S())
    {
      ghost var r := c.S();
      ReleasableItem(items, i, s.w.pvcs, cs, freed, left, FailedReleases(s, r));
      var released := ReleasePVC(c, items[i], cs);
      SortedMore(ItemKeys(items[..i]), freed, left, FailedReleases(s, r), items[i].key, released);
      if released {
        ReleaseMore(s.w.pvcs, freed, {items[i].key});
        freed := freed + {items[i].key};
      } else {
        left := left + {items[i].key};
        ok := false;
      }
    }
    AllTried(items, s.w.pvcs, cs, freed, left, FailedReleases(s, c.S()));
  }

  lemma NothingTried(items: seq<PvcItem>)
    ensures Sorted(ItemKeys(items[..0]), {}, {}, 0)
  {
    CountsNone<Key>();
    assert ItemKeys(items[..0]) == {};
    assert SortedNow(ItemKeys(items[..0]), {}, {}, 0);
  }

  /** The next item is as it was listed. */
  lemma ReleasableItem(items: seq<PvcItem>, i: nat, pvcs: Pvcs, cs: set<Key>, freed: set<Key>, left: set<Key>, n: int)
    requires ListsPvcs(items, pvcs, cs) && i < |items| && Sorted(ItemKeys(items[..i]), freed, left, n)
    ensures items[i].key in cs && items[i].key in pvcs && items[i].key !in freed
    ensures items[i].pvc == ReleaseAll(pvcs, freed)[items[i].key]
    ensures items[i].key !in ItemKeys(items[..i])
    ensures ItemKeys(items[..i + 1]) == ItemKeys(items[..i]) + {items[i].key}
  {
    assert Detail(ItemKeys(items[..i]));
    NotTriedYet(items, i, pvcs, cs);
    OneMoreItem(items, i);
  }

  lemma AllTried(items: seq<PvcItem>, pvcs: Pvcs, cs: set<Key>, freed: set<Key>, left: set<Key>, n: int)
    requires ListsPvcs(items, pvcs, cs) && Sorted(ItemKeys(items[..|items|]), freed, left, n)
    ensures Counts(cs - freed, n) && (n == 0 ==> freed == cs)
  {
    AllItems(items, pvcs, cs);
    assert Detail(cs);
    assert cs - freed == left;
    Counted(left, n);
  }

  ghost function ClaimKeys(ns: string, picked: map<string, string>): set<Key> {
    set v | v in picked :: Key(ns, picked[v])
  }

  /** No claim is picked for two templates. */
  ghost predicate Injective(picked: map<string, string>) {
    forall p {:trigger Detail(p)} :: p == picked ==> forall u, v :: u in p && v in p && p[u] == p[v] ==> u == v
  }

  ghost function Tried(ns: string, picked: map<string, string>, rest: set<string>): set<Key> {
    set v | v in picked && v !in rest :: Key(ns, picked[v])
  }

  lemma TriedMore(ns: string, picked: map<string, string>, rest: set<string>, v: string)
    requires v in picked && v in rest
    ensures Tried(ns, picked, rest - {v}) == Tried(ns, picked, rest) + {Key(ns, picked[v])}
    ensures Injective(picked) ==> Key(ns, picked[v]) !in Tried(ns, picked, rest)
  {
    assert Detail(picked);
  }

  /** Part of the way through a rollback: `left` are the claims a call failed for. */
  ghost predicate RollingBack(ns: string, picked: map<string, string>, rest: set<string>, freed: set<Key>,
                              left: set<Key>, failed: int) {
    forall r {:trigger Detail(r)} :: r == rest ==>
      && freed + left == Tried(ns, picked, r)
      && (failed == 0 ==> left == {})
      && (Injective(picked) ==> Sorted(Tried(ns, picked, r), freed, left, failed))
  }

  lemma RollbackMore(ns: string, picked: map<string, string>, rest: set<string>, v: string, freed: set<Key>,
                     left: set<Key>, failed: int, released: bool)
    requires RollingBack(ns, picked, rest, freed, left, failed) && v in picked && v in rest && failed >= 0
    ensures var k := Key(ns, picked[v]);
      if released then RollingBack(ns, picked, rest - {v}, freed + {k}, left, failed)
      else RollingBack(ns, picked, rest - {v}, freed, left + {k}, failed + 1)
  {
    var k := Key(ns, picked[v]);
    assert Detail(rest);
    TriedMore(ns, picked, rest, v);
    if Injective(picked) {
      SortedMore(Tried(ns, picked, rest), freed, left, failed, k, released);
    }
  }

  lemma RollbackBegins(ns: string, picked: map<string, string>)
    ensures RollingBack(ns, picked, picked.Keys, {}, {}, 0)
  {
    CountsNone<Key>();
    assert Tried(ns, picked, picked.Keys) == {};
    assert SortedNow({}, {}, {}, 0);
    assert Sorted(Tried(ns, picked, picked.Keys), {}, {}, 0);
  }

  lemma RollbackEnds(ns: string, picked: map<string, string>, freed: set<Key>, left: set<Key>, failed: int)
    requires RollingBack(ns, picked, {}, freed, left, failed)
    ensures failed == 0 ==> freed == ClaimKeys(ns, picked)
    ensures Injective(picked) ==> Counts(ClaimKeys(ns, picked) - freed, failed)
  {
    var none: set<string> := {};
    assert Detail(none) && Detail(Tried(ns, picked, none));
    assert Tried(ns, picked, none) == ClaimKeys(ns, picked);
    if Injective(picked) {
      assert ClaimKeys(ns, picked) - freed == left;
    }
  }

  /** Frees the claims of an assignment, in any order; errors are swallowed. Every claim is tried: each of
      those that stay accounts for a failed call. */
  method RollbackAssignedPVCs(c: Cluster, ns: string, picked: map<string, string>) returns (ghost freed: set<Key>)
    requires c.Ok() && ClaimKeys(ns, picked) <= c.pvcs.Keys && Idle(c.View(), ClaimKeys(ns, picked))
    modifies c
    ensures c.Ok() && Releasing(old(c.S()), c.S(), ClaimKeys(ns, picked), freed)
    ensures c.led.releaseFaults == old(c.led).releaseFaults ==> freed == ClaimKeys(ns, picked)
    ensures Injective(picked) ==> Counts(ClaimKeys(ns, picked) - freed, FailedReleases(old(c.S()), c.S()))
  {
    ghost var s := c.S();
    ghost var cs := ClaimKeys(ns, picked);
    ghost var left: set<Key> := {};
    freed := {};
    assert ReleaseAll(s.w.pvcs, {}) == s.w.pvcs;
    var rest := picked.Keys;
    RollbackBegins(ns, picked);
    while rest != {}
      invariant rest <= picked.Keys
      invariant c.Ok() && Releasing(s, c.S(), cs, freed)
      invariant RollingBack(ns, picked, rest, freed, left, FailedReleases(s, c.S()))
    {
      var v :| v in rest;
      ghost var r := c.S();
      ghost var released := RollbackOne(c, Key(ns, picked[v]), cs);
      RollbackMore(ns, picked, rest, v, freed, left, FailedReleases(s, r), released);
      rest := rest - {v};
      if released {
        ReleaseMore(s.w.pvcs, freed, {Key(ns, picked[v])});
        freed := freed + {Key(ns, picked[v])};
      } else {
        left := left + {Key(ns, picked[v])};
      }
    }
    RollbackEnds(ns, picked, freed, left, FailedReleases(s, c.S()));
  }

  method RollbackOne(c: Cluster, name: Key, ghost cs: set<Key>) returns (ghost released: bool)
    requires c.Ok() && name in cs && name in c.pvcs && Idle(c.View(), cs)
    modifies c
    ensures c.Ok() && Releasing(old(c.S()), c.S(), cs, if released then {name} else {})
    ensures FailedReleases(old(c.S()), c.S()) == if released then 0 else 1
  {
    ghost var s := c.S();
    released := false;
    assert ReleaseAll(s.w.pvcs, {}) == s.w.pvcs;
    var reply, pvc := c.GetPvc(name);
    IdleKept(s.w, c.View(), cs);
    if reply != Done {
      c.ReleaseFault();
      return;
    }
    var done := ReleasePVC(c, PvcItem(name, pvc), cs);
    released := done;
  }

  // ----- assignment -----

  datatype Assignment = Got(key: Key) | Full | CallFailed

  /** One iteration: assigns the first free claim of one template. */
  method AssignOne(c: Cluster, pool: AgentPool, cache: string, pod: string) returns (r: Assignment)
    requires c.Ok()
    modifies c
    ensures c.Ok() && ClaimsOnly(old(c.S()), c.S()) && c.led.releaseFaults == old(c.led).releaseFaults
    ensures c.pvcs == if r.Got? then Grant(old(c.pvcs), map[r.key := pod]) else old(c.pvcs)
    ensures r.Got? ==> r.key in FreeSlots(old(c.pvcs), pool.key, cache)
    ensures r.Full? ==> FreeSlots(old(c.pvcs), pool.key, cache) == {}
    ensures FailedCalls(old(c.S()), c.S()) == if r.CallFailed? then 1 else 0
    ensures c.led.writes == old(c.led).writes + (if r.Got? then 1 else 0)
  {
    var ok, items := c.ListFreePvcs(pool.key, cache);
    if !ok {
      return CallFailed;
    }
    if |items| == 0 {
      return Full;
    }
    var item := items[0];
    var modified := item.pvc.(state := Assigned, assignedPod := Some(pod));
    ok := c.PatchPvc(item.key, item.pvc, modified);
    if !ok {
      return CallFailed;
    }
    ghost var w := old(c.View()).(now := c.now);
    GrantOne(w.pvcs, item.key, pod);
    SafeUnderAssign(w, item.key, pod, c.bounds);
    r := Got(item.key);
  }

  /** The claims `g` were free claims of the pool's templates, and all go to one pod. */
  ghost predicate Taken(p: Pvcs, pool: Key, caches: seq<string>, pod: string, g: map<Key, string>) {
    forall c :: c in g ==>
      g[c] == pod && c in p && p[c].state == Free && InPool(c, p[c].pool, pool) && p[c].cache in caches
  }

  /** `picked` names one claim of `g` per template; with distinct template names it names all of them. */
  ghost predicate OnePerCache(p: Pvcs, ns: string, caches: seq<string>, picked: map<string, string>,
                              g: map<Key, string>) {
    && (forall v :: v in picked <==> v in caches)
    && (forall v :: v in picked ==> var c := Key(ns, picked[v]); c in g && c in p && p[c].cache == v)
    && (Distinct(caches) ==> forall c :: c in g ==> c in p && p[c].cache in picked && Key(ns, picked[p[c].cache]) == c)
  }

  /** Some template has no free claim left. */
  ghost predicate Exhausted(p: Pvcs, pool: Key, caches: seq<string>) {
    exists v :: v in caches && FreeSlots(p, pool, v) == {}
  }

  /** Between `s` and `t` something was written unless the first template had no free claim to begin with. */
  ghost predicate WroteUnlessBare(s: Sys, t: Sys, pool: Key, caches: seq<string>) {
    |caches| > 0 && (t.led.writes == s.led.writes <==> FreeSlots(s.w.pvcs, pool, caches[0]) == {})
  }

  /** What FindAndAssignPVCs leaves behind, `g` being the claims that stay assigned. */
  ghost predicate Assigns(s: Sys, t: Sys, pool: Key, caches: seq<string>, pod: string, g: map<Key, string>) {
    && ClaimsOnly(s, t)
    && t.w.pvcs == Grant(s.w.pvcs, g) && Taken(s.w.pvcs, pool, caches, pod, g)
  }

  /** The first `i` templates have been assigned a claim each, without a failure. */
  ghost predicate Partly(s: Sys, t: Sys, pool: Key, caches: seq<string>, i: nat, pod: string,
                         picked: map<string, string>, g: map<Key, string>)
    requires i <= |caches|
  {
    && Assigns(s, t, pool, caches, pod, g) && NoFault(s, t)
    && OnePerCache(s.w.pvcs, pool.ns, caches[..i], picked, g)
    && (i == 0 ==> g == map[] && t.led.writes == s.led.writes)
    && (i > 0 ==> FreeSlots(s.w.pvcs, pool, caches[0]) != {} && t.led.writes > s.led.writes)
    && Counts(g.Keys, i)
  }

  ghost predicate IsPartly(s: Sys, t: Sys, pool: Key, caches: seq<string>, i: nat, pod: string,
                           picked: map<string, string>, g: map<Key, string>)
    requires i <= |caches|
  {
    forall h {:trigger Detail(h)} :: h == g ==> Partly(s, t, pool, caches, i, pod, picked, h)
  }

  lemma PartlyNothing(s: Sys, pool: Key, caches: seq<string>, pod: string)
    ensures IsPartly(s, s, pool, caches, 0, pod, map[], map[])
  {
    assert Grant(s.w.pvcs, map[]) == s.w.pvcs;
    assert caches[..0] == [];
    CountsNone<Key>();
    assert Partly(s, s, pool, caches, 0, pod, map[], map[]);
  }

  lemma PartlyMore(s: Sys, t: Sys, u: Sys, pool: Key, caches: seq<string>, i: nat, pod: string,
                   picked: map<string, string>, g: map<Key, string>, c: Key)
    requires i < |caches| && IsPartly(s, t, pool, caches, i, pod, picked, g)
    requires ClaimsOnly(t, u) && NoFault(t, u) && u.led.releaseFaults == t.led.releaseFaults
    requires u.w.pvcs == Grant(t.w.pvcs, map[c := pod]) && c in FreeSlots(t.w.pvcs, pool, caches[i])
    requires u.led.writes == t.led.writes + 1
    ensures IsPartly(s, u, pool, caches, i + 1, pod, picked[caches[i] := c.name], g + map[c := pod])
  {
    assert Detail(g);
    FreeAfterGrant(s.w.pvcs, g, pool, caches[i]);
    GrantMore(s.w.pvcs, g, map[c := pod]);
    OneMore(s.w.pvcs, pool, caches, i, picked, g, c, pod);
    OneMoreCounted(g, i, c, pod);
    assert Partly(s, u, pool, caches, i + 1, pod, picked[caches[i] := c.name], g + map[c := pod]);
  }

  lemma OneMoreCounted(g: map<Key, string>, i: int, c: Key, pod: string)
    requires Counts(g.Keys, i) && c !in g
    ensures Counts((g + map[c := pod]).Keys, i + 1)
  {
    CountsOne(c);
    CountsMore(g.Keys, i, {c}, 1);
    assert (g + map[c := pod]).Keys == g.Keys + {c};
  }

  lemma PartlyAll(s: Sys, t: Sys, pool: Key, caches: seq<string>, pod: string, picked: map<string, string>,
                  g: map<Key, string>)
    requires IsPartly(s, t, pool, caches, |caches|, pod, picked, g)
    ensures Grabbed(s, t, pool, caches, pod, Grab(true, picked, g, false))
  {
    assert Detail(g);
    assert caches[..|caches|] == caches;
  }

  /** Claims one free claim per template. On failure `g` are the claims whose rollback failed too;
      `full` tells that a template had no free claim. */
  method FindAndAssignPVCs(c: Cluster, pool: AgentPool, pod: string)
    returns (ok: bool, picked: map<string, string>, ghost g: map<Key, string>, ghost full: bool)
    requires c.Ok()
    modifies c
    ensures c.Ok() && Grabbed(old(c.S()), c.S(), pool.key, pool.spec.caches, pod, Grab(ok, picked, g, full))
  {
    ghost var s := c.S();
    ok, picked, g, full := true, map[], map[], false;
    PartlyNothing(s, pool.key, pool.spec.caches, pod);
    for i := 0 to |pool.spec.caches|
      invariant c.Ok() && IsPartly(s, c.S(), pool.key, pool.spec.caches, i, pod, picked, g)
      invariant ok && !full
    {
      ghost var t := c.S();
      var r := AssignOne(c, pool, pool.spec.caches[i], pod);
      if !r.Got? {
        ok, full := false, r.Full?;
        PartlyEnds(s, t, c.S(), pool.key, pool.spec.caches, i, pod, picked, g);
        g := GiveUp(c, s, pool, i, full, pod, picked, g);
        return;
      }
      PartlyMore(s, t, c.S(), pool.key, pool.spec.caches, i, pod, picked, g, r.key);
      picked, g := picked[pool.spec.caches[i] := r.key.name], g + map[r.key := pod];
    }
    PartlyAll(s, c.S(), pool.key, pool.spec.caches, pod, picked, g);
  }

  lemma PartlyEnds(s: Sys, t: Sys, u: Sys, pool: Key, caches: seq<string>, i: nat, pod: string,
                   picked: map<string, string>, g: map<Key, string>)
    requires i < |caches| && IsPartly(s, t, pool, caches, i, pod, picked, g)
    requires ClaimsOnly(t, u) && u.w.pvcs == t.w.pvcs && u.led.writes == t.led.writes
    requires u.led.releaseFaults == t.led.releaseFaults
    ensures Assigns(s, u, pool, caches, pod, g) && OnePerCache(s.w.pvcs, pool.ns, caches[..i], picked, g)
    ensures u.led.releaseFaults == s.led.releaseFaults && FailedCalls(s, u) == FailedCalls(t, u)
    ensures i == 0 ==> g == map[] && u.led.writes == s.led.writes
    ensures i > 0 ==> FreeSlots(s.w.pvcs, pool, caches[0]) != {} && u.led.writes > s.led.writes
  {
    assert Detail(g);
  }

  /** An assignment ends with the template number `i`, for which nothing is free or a call failed. */
  method GiveUp(c: Cluster, ghost s: Sys, pool: AgentPool, ghost i: nat, ghost full: bool, ghost pod: string,
                picked: map<string, string>, ghost g: map<Key, string>)
    returns (ghost left: map<Key, string>)
    requires c.Ok() && Valid(s, c.bounds) && Assigns(s, c.S(), pool.key, pool.spec.caches, pod, g)
    requires i < |pool.spec.caches| && OnePerCache(s.w.pvcs, pool.key.ns, pool.spec.caches[..i], picked, g)
    requires c.led.releaseFaults == s.led.releaseFaults && OtherFaults(s, c.S()) == if full then 0 else 1
    requires full ==> FreeSlots(c.pvcs, pool.key, pool.spec.caches[i]) == {}
    requires full && i == 0 ==> g == map[] && c.led.writes == s.led.writes
    requires full && i > 0 ==> FreeSlots(s.w.pvcs, pool.key, pool.spec.caches[0]) != {} && c.led.writes > s.led.writes
    modifies c
    ensures c.Ok() && Grabbed(s, c.S(), pool.key, pool.spec.caches, pod, Grab(false, picked, left, full))
  {
    NothingFree(s.w.pvcs, pool.key, pool.spec.caches, i, picked, g, full);
    if full && i == 0 {
      assert Grant(s.w.pvcs, g) == s.w.pvcs;
    }
    left := Rollback(c, s, pool, pool.spec.caches[..i], pod, picked, g);
  }

  /** The rollback of an assignment made since state `s`; `left` is what could not be released. */
  method Rollback(c: Cluster, ghost s: Sys, pool: AgentPool, ghost done: seq<string>, ghost pod: string,
                  picked: map<string, string>, ghost g: map<Key, string>)
    returns (ghost left: map<Key, string>)
    requires c.Ok() && Valid(s, c.bounds) && Assigns(s, c.S(), pool.key, pool.spec.caches, pod, g)
    requires OnePerCache(s.w.pvcs, pool.key.ns, done, picked, g)
    modifies c
    ensures c.Ok() && Assigns(s, c.S(), pool.key, pool.spec.caches, pod, left)
    ensures c.led.faults >= old(c.led).faults && c.led.releaseFaults >= old(c.led).releaseFaults
    ensures Distinct(done) && c.led.releaseFaults == old(c.led).releaseFaults ==> left == map[]
    ensures Distinct(done) ==> Counts(left.Keys, FailedReleases(old(c.S()), c.S()))
    ensures OtherFaults(old(c.S()), c.S()) == 0
    ensures c.led.writes >= old(c.led).writes && (g == map[] ==> c.led.writes == old(c.led).writes)
  {
    PickedAreFree(s.w.pvcs, pool.key, pool.spec.caches, done, pod, picked, g);
    FreeIsIdle(s, c.bounds, ClaimKeys(pool.key.ns, picked), c.View());
    ghost var freed := RollbackAssignedPVCs(c, pool.key.ns, picked);
    NowSafe(s, c.bounds);
    ReleaseUndoesGrant(s.w.pvcs, g, freed);
    left := g - freed;
    assert left.Keys == g.Keys - freed;
  }

  lemma PickedAreFree(p: Pvcs, pool: Key, caches: seq<string>, done: seq<string>, pod: string,
                      picked: map<string, string>, g: map<Key, string>)
    requires Taken(p, pool, caches, pod, g) && OnePerCache(p, pool.ns, done, picked, g)
    ensures ClaimKeys(pool.ns, picked) <= g.Keys && AllFree(p, g.Keys)
    ensures Distinct(done) ==> g.Keys == ClaimKeys(pool.ns, picked)
    ensures Injective(picked)
  {
    assert ClaimKeys(pool.ns, picked) <= g.Keys;
  }

  /** With distinct template names, a template found without free claims had none to begin with. */
  lemma NothingFree(p: Pvcs, pool: Key, caches: seq<string>, i: nat, picked: map<string, string>, g: map<Key, string>,
                    full: bool)
    requires i < |caches| && OnePerCache(p, pool.ns, caches[..i], picked, g)
    requires full ==> FreeSlots(Grant(p, g), pool, caches[i]) == {}
    ensures Distinct(caches) ==> Distinct(caches[..i])
    ensures full && Distinct(caches) ==> Exhausted(p, pool, caches)
  {
    var v := caches[i];
    FreeAfterGrant(p, g, pool, v);
    if Distinct(caches) {
      PrefixDistinct(caches, i);
      UntouchedTemplate(p, pool, caches, i, picked, g);
      if full {
        assert v in caches && FreeSlots(p, pool, v) == {};
      }
    }
  }

  lemma PrefixDistinct(caches: seq<string>, i: nat)
    requires Distinct(caches) && i < |caches|
    ensures Distinct(caches[..i]) && caches[i] !in caches[..i]
  {
    assert forall j :: 0 <= j < i ==> caches[..i][j] == caches[j];
  }

  /** An assignment of the first `i` distinct templates took no claim of the next one. */
  lemma UntouchedTemplate(p: Pvcs, pool: Key, caches: seq<string>, i: nat, picked: map<string, string>,
                          g: map<Key, string>)
    requires i < |caches| && Distinct(caches[..i]) && caches[i] !in caches[..i]
    requires OnePerCache(p, pool.ns, caches[..i], picked, g)
    ensures FreeSlots(p, pool, caches[i]) - g.Keys == FreeSlots(p, pool, caches[i])
  {
  }

  /** Adding the claim `c` of template number `i` to an assignment of the first `i` templates. */
  lemma OneMore(p: Pvcs, pool: Key, caches: seq<string>, i: nat, picked: map<string, string>, g: map<Key, string>,
                c: Key, pod: string)
    requires i < |caches| && c in FreeSlots(p, pool, caches[i])
    requires Taken(p, pool, caches, pod, g) && OnePerCache(p, pool.ns, caches[..i], picked, g)
    ensures Taken(p, pool, caches, pod, g + map[c := pod])
    ensures OnePerCache(p, pool.ns, caches[..i + 1], picked[caches[i] := c.name], g + map[c := pod])
  {
    var v := caches[i];
    assert caches[..i + 1] == caches[..i] + [v];
    assert Key(pool.ns, c.name) == c;
    if Distinct(caches[..i + 1]) {
      forall j | 0 <= j < i
        ensures caches[j] != v
      {
        assert caches[..i + 1][j] != caches[..i + 1][i];
      }
      assert Distinct(caches[..i]) by {
        forall a, b | 0 <= a < b < i
          ensures caches[..i][a] != caches[..i][b]
        {
          assert caches[..i + 1][a] != caches[..i + 1][b];
        }
      }
    }
  }

  // ----- counting -----

  /** `n` is the smallest number of free claims of a template, and at most maxAgents. */
  ghost predicate IsFreeCount(p: Pvcs, pool: Key, caches: seq<string>, maxAgents: int, n: int) {
    && n <= maxAgents
    && (forall v :: v in caches ==> n <= |FreeSlots(p, pool, v)|)
    && (n == maxAgents || exists v :: v in caches && n == |FreeSlots(p, pool, v)|)
  }

  method CountFreePVCSlots(c: Cluster, pool: AgentPool) returns (ok: bool, minFree: int)
    requires c.Ok()
    modifies c
    ensures c.Ok() && Passive(old(c.S()), c.S())
    ensures if ok then IsFreeCount(c.pvcs, pool.key, pool.spec.caches, pool.spec.maxAgents, minFree) else minFree == 0
    ensures FailedCalls(old(c.S()), c.S()) == if ok then 0 else 1
  {
    ghost var s := c.S();
    ghost var caches := pool.spec.caches;
    minFree := pool.spec.maxAgents;
    for i := 0 to |pool.spec.caches|
      invariant c.Ok() && Passive(s, c.S()) && NoFault(s, c.S())
      invariant IsFreeCount(s.w.pvcs, pool.key, caches[..i], pool.spec.maxAgents, minFree)
    {
      var items;
      ok, items := c.ListFreePvcs(pool.key, pool.spec.caches[i]);
      if !ok {
        minFree := 0;
        return;
      }
      FreeCountStep(s.w.pvcs, pool.key, caches, i, pool.spec.maxAgents, minFree);
      if |items| < minFree {
        minFree := |items|;
      }
    }
    assert caches[..|caches|] == caches;
    ok := true;
  }

  lemma FreeCountStep(p: Pvcs, pool: Key, caches: seq<string>, i: nat, maxAgents: int, n: int)
    requires i < |caches| && IsFreeCount(p, pool, caches[..i], maxAgents, n)
    ensures var m := |FreeSlots(p, pool, caches[i])|;
      IsFreeCount(p, pool, caches[..i + 1], maxAgents, if m < n then m else n)
  {
  }

  // ----- the count is exact -----

  /** The outcome of one assignment. */
  datatype Grab = Grab(ok: bool, picked: map<string, string>, g: map<Key, string>, full: bool)

  /** The postcondition of FindAndAssignPVCs. */
  ghost predicate Grabbed(s: Sys, t: Sys, pool: Key, caches: seq<string>, pod: string, r: Grab) {
    && Assigns(s, t, pool, caches, pod, r.g)
    && (r.ok ==> OnePerCache(s.w.pvcs, pool.ns, caches, r.picked, r.g) && NoFault(s, t) && !r.full)
    && (r.ok ==> Counts(r.g.Keys, |caches|))
    && (!r.ok && Distinct(caches) && t.led.releaseFaults == s.led.releaseFaults ==> r.g == map[])
    && (!r.ok && Distinct(caches) ==> Counts(r.g.Keys, FailedReleases(s, t)))
    && (r.full && Distinct(caches) ==> Exhausted(s.w.pvcs, pool, caches))
    && (!r.ok ==> OtherFaults(s, t) == if r.full then 0 else 1)
    && (r.full ==> WroteUnlessBare(s, t, pool, caches))
  }

  /** An assignment without failing calls succeeds exactly when every template has a free claim, and then
      uses up exactly one of each. */
  lemma AssignmentOutcome(s: Sys, t: Sys, pool: Key, caches: seq<string>, pod: string, r: Grab)
    requires Grabbed(s, t, pool, caches, pod, r) && NoFault(s, t) && Distinct(caches)
    ensures r.ok <==> !Exhausted(s.w.pvcs, pool, caches)
    ensures !r.ok ==> t.w.pvcs == s.w.pvcs
    ensures r.ok ==> forall v :: v in caches ==> |FreeSlots(t.w.pvcs, pool, v)| == |FreeSlots(s.w.pvcs, pool, v)| - 1
  {
    var p := s.w.pvcs;
    if r.ok {
      forall v | v in caches
        ensures FreeSlots(p, pool, v) != {}
        ensures |FreeSlots(t.w.pvcs, pool, v)| == |FreeSlots(p, pool, v)| - 1
      {
        var c := Key(pool.ns, r.picked[v]);
        FreeAfterGrant(p, r.g, pool, v);
        assert c in FreeSlots(p, pool, v);
        assert FreeSlots(p, pool, v) - r.g.Keys == FreeSlots(p, pool, v) - {c};
      }
    } else {
      assert Grant(p, map[]) == p;
    }
  }

  lemma CountAfterAssignment(s: Sys, t: Sys, pool: Key, caches: seq<string>, pod: string, r: Grab, maxAgents: int,
                             n: int)
    requires Grabbed(s, t, pool, caches, pod, r) && NoFault(s, t) && Distinct(caches)
    requires IsFreeCount(s.w.pvcs, pool, caches, maxAgents, n)
    ensures n > 0 ==> r.ok && IsFreeCount(t.w.pvcs, pool, caches, maxAgents - 1, n - 1)
    ensures 0 == n < maxAgents ==> !r.ok && r.full && t.w.pvcs == s.w.pvcs
  {
    AssignmentOutcome(s, t, pool, caches, pod, r);
  }

  /** A sequence of assignments no call of which fails. */
  ghost predicate Assignments(ss: seq<Sys>, rs: seq<Grab>, pods: seq<string>, pool: Key, caches: seq<string>) {
    && |ss| == |rs| + 1 && |pods| == |rs|
    && forall i :: 0 <= i < |rs| ==>
      Grabbed(ss[i], ss[i + 1], pool, caches, pods[i], rs[i]) && NoFault(ss[i], ss[i + 1])
  }

  lemma {:induction false} CountDown(ss: seq<Sys>, rs: seq<Grab>, pods: seq<string>, pool: Key, caches: seq<string>,
                                     maxAgents: int, n: nat, i: nat)
    requires Assignments(ss, rs, pods, pool, caches) && Distinct(caches)
    requires IsFreeCount(ss[0].w.pvcs, pool, caches, maxAgents, n)
    requires i <= n && i <= |rs|
    ensures IsFreeCount(ss[i].w.pvcs, pool, caches, maxAgents - i, n - i)
  {
    if i > 0 {
      CountDown(ss, rs, pods, pool, caches, maxAgents, n, i - 1);
      CountAfterAssignment(ss[i - 1], ss[i], pool, caches, pods[i - 1], rs[i - 1], maxAgents - (i - 1), n - (i - 1));
    }
  }

  /** If `n` slots are counted free, the next `n` assignments without failing calls succeed, and when
      `n` is below maxAgents the one after them fails and leaves the claims as they were. */
  lemma FreeCountExact(ss: seq<Sys>, rs: seq<Grab>, pods: seq<string>, pool: Key, caches: seq<string>, maxAgents: int,
                       n: nat)
    requires Assignments(ss, rs, pods, pool, caches) && Distinct(caches)
    requires IsFreeCount(ss[0].w.pvcs, pool, caches, maxAgents, n)
    ensures forall i :: 0 <= i < |rs| && i < n ==> rs[i].ok
    ensures n < maxAgents && n < |rs| ==> !rs[n].ok && rs[n].full && ss[n + 1].w.pvcs == ss[n].w.pvcs
  {
    forall i | 0 <= i < |rs| && i < n
      ensures rs[i].ok
    {
      CountDown(ss, rs, pods, pool, caches, maxAgents, n, i);
      CountAfterAssignment(ss[i], ss[i + 1], pool, caches, pods[i], rs[i], maxAgents - i, n - i);
    }
    if n < |rs| {
      CountDown(ss, rs, pods, pool, caches, maxAgents, n, n);
      CountAfterAssignment(ss[n], ss[n + 1], pool, caches, pods[n], rs[n], maxAgents - n, 0);
    }
  }
}
