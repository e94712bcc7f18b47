/** Provisioning gives every template its slots exactly when slot names do not collide, and no pool takes
    another one's. */
module Capacity {
  import opened Base
  import opened Naming
  import opened Store
  import opened Ledgers
  import opened Clusters
  import opened Allocator
  import opened Passes
  import opened Invariants

  // ----- provisioning suffices -----

  predicate DistinctCuts(caches: seq<string>) {
    forall i, j :: 0 <= i < j < |caches| ==> Cut(caches[i], 20) != Cut(caches[j], 20)
  }

  /** Different slots have different names. */
  ghost predicate NamesApart(names: SlotNames, caches: seq<string>) {
    forall i, r: nat, j, s: nat ::
      0 <= i < |caches| && 0 <= j < |caches| && names(caches[i], r) == names(caches[j], s) ==> i == j && r == s
  }

  lemma SlotNamesApart(key: Key, caches: seq<string>)
    requires DistinctCuts(caches)
    ensures NamesApart(SlotNamesOf(key), caches)
  {
    var names := SlotNamesOf(key);
    forall i, r: nat, j, s: nat | 0 <= i < |caches| && 0 <= j < |caches| && names(caches[i], r) == names(caches[j], s)
      ensures i == j && r == s
    {
      SlotNameInjective(key.name, caches[i], r, caches[j], s);
    }
  }

  /** The claims that already bear planned names are the pool's own. */
  ghost predicate NamesOwned(p: Pvcs, key: Key, spec: PoolSpec) {
    forall i, s: nat :: 0 <= i < |spec.caches| && s < MaxSlots(spec) ==>
      var c := SlotNamesOf(key)(spec.caches[i], s); c in p ==> InPool(c, p[c].pool, key) && p[c].cache == spec.caches[i]
  }

  /** Slots of the templates `caches` share no name with slots of the templates `others` of another pool, or
      with slots of another template of the same one. */
  ghost predicate StemsApart(key: Key, caches: seq<string>, other: Key, others: seq<string>) {
    key.ns == other.ns ==>
      forall c, d :: c in caches && d in others && SlotStem(key.name, c) == SlotStem(other.name, d) ==>
        key == other && c == d
  }

  lemma SameSlotName(key: Key, c: string, s: nat, other: Key, d: string, r: nat)
    requires SlotKey(key, c, s) == SlotKey(other, d, r)
    ensures key.ns == other.ns && SlotStem(key.name, c) == SlotStem(other.name, d)
  {
    SlotNamesCollideIff(key.name, c, s, other.name, d, r);
  }

  /** Provisioning for `other` leaves the planned names of `key` to `key`. */
  lemma PlannedApart(p: Pvcs, q: Pvcs, key: Key, spec: PoolSpec, other: Key, plan: PoolSpec)
    requires NamesOwned(p, key, spec) && StemsApart(key, spec.caches, other, plan.caches)
    requires Extended(p, q, PlanOf(SlotNamesOf(other), other, plan))
    ensures NamesOwned(q, key, spec)
  {
    forall i, s: nat | 0 <= i < |spec.caches| && s < MaxSlots(spec)
      ensures var c := SlotNamesOf(key)(spec.caches[i], s);
        c in q ==> InPool(c, q[c].pool, key) && q[c].cache == spec.caches[i]
    {
      PlannedNameApart(p, q, key, spec, other, plan, i, s);
    }
  }

  lemma PlannedNameApart(p: Pvcs, q: Pvcs, key: Key, spec: PoolSpec, other: Key, plan: PoolSpec, i: nat, s: nat)
    requires NamesOwned(p, key, spec) && StemsApart(key, spec.caches, other, plan.caches)
    requires Extended(p, q, PlanOf(SlotNamesOf(other), other, plan)) && i < |spec.caches| && s < MaxSlots(spec)
    ensures var c := SlotNamesOf(key)(spec.caches[i], s);
      c in q ==> InPool(c, q[c].pool, key) && q[c].cache == spec.caches[i]
  {
    var names, c := SlotNamesOf(other), SlotNamesOf(key)(spec.caches[i], s);
    if c in q && c !in p {
      PlanAt(names, other, plan.caches, MaxSlots(plan), c);
      var j, r: nat :| 0 <= j < |plan.caches| && r < MaxSlots(plan) && names(plan.caches[j], r) == c
        && q[c] == BuildPvc(other, plan.caches[j], r);
      SameSlotName(key, spec.caches[i], s, other, plan.caches[j], r);
    }
  }

  /** So does a whole pass over `other`. */
  lemma PassKeepsNames(s: Sys, t: Sys, other: Key, J: Azure, p: Pass, key: Key, spec: PoolSpec)
    requires PassOf(s, t, other, J, p) && NamesOwned(s.w.pvcs, key, spec)
    requires other in s.w.pools ==> StemsApart(key, spec.caches, other, s.w.pools[other].spec.caches)
    ensures NamesOwned(t.w.pvcs, key, spec)
  {
    match p
    case Full(f) =>
      PodCounts(s, t, other, J, f);
      ClaimStages(s, t, other, J, f);
      ProvisionedClaims(s, t, other, J, f);
      PlannedApart(s.w.pvcs, f.provisioned.w.pvcs, key, spec, other, f.spec);
      SameNames(f.provisioned.w.pvcs, t.w.pvcs, f.freed, f.growth.g, key, spec);
    case Stopped(_, _, _) =>
      PlannedApart(s.w.pvcs, t.w.pvcs, key, spec, other, s.w.pools[other].spec);
    case _ =>
  }

  lemma SameNames(p: Pvcs, q: Pvcs, freed: set<Key>, g: map<Key, string>, key: Key, spec: PoolSpec)
    requires NamesOwned(p, key, spec) && q == Grant(ReleaseAll(p, freed), g)
    ensures NamesOwned(q, key, spec)
  {
  }

  function Below(n: nat): (r: set<nat>)
    ensures |r| == n && forall i :: i in r <==> 0 <= i < n
  {
    if n == 0 then {} else Below(n - 1) + {n - 1}
  }

  /** Successful provisioning gives every template as many claims as the pool may have agents. */
  lemma EnoughSlots(p: Pvcs, key: Key, spec: PoolSpec, i: nat)
    requires DistinctCuts(spec.caches) && NamesOwned(p, key, spec) && i < |spec.caches|
    ensures |Slots(PlanOf(SlotNamesOf(key), key, spec) + p, key, spec.caches[i])| >= MaxSlots(spec)
  {
    var names, n, cache := SlotNamesOf(key), MaxSlots(spec), spec.caches[i];
    var q := PlanOf(names, key, spec) + p;
    SlotNamesApart(key, spec.caches);
    forall s | s in Below(n)
      ensures names(cache, s) in Slots(q, key, cache)
    {
      SlotThere(p, key, spec, i, s);
    }
    InjectionCard(Below(n), Slots(q, key, cache), (s: nat) => names(cache, s));
  }

  lemma SlotThere(p: Pvcs, key: Key, spec: PoolSpec, i: nat, s: nat)
    requires NamesApart(SlotNamesOf(key), spec.caches) && NamesOwned(p, key, spec) && i < |spec.caches|
    requires s < MaxSlots(spec)
    ensures SlotNamesOf(key)(spec.caches[i], s) in Slots(PlanOf(SlotNamesOf(key), key, spec) + p, key, spec.caches[i])
  {
    var c := SlotNamesOf(key)(spec.caches[i], s);
    PlanAt(SlotNamesOf(key), key, spec.caches, MaxSlots(spec), c);
  }

  /** Every planned claim bears the name that its labels say, of a template of the pool and a slot below maxAgents. */
  lemma PlannedAsLabelled(key: Key, spec: PoolSpec, c: Key)
    requires c in PlanOf(SlotNamesOf(key), key, spec)
    ensures var pvc := PlanOf(SlotNamesOf(key), key, spec)[c];
      && pvc.pool == key.name && pvc.cache in spec.caches && 0 <= pvc.slot < spec.maxAgents
      && c == SlotKey(key, pvc.cache, pvc.slot) && pvc.state == Free && pvc.assignedPod == None
  {
    PlanAt(SlotNamesOf(key), key, spec.caches, MaxSlots(spec), c);
  }

  /** So no template is planned more slots than maxAgents. */
  lemma NoMoreSlots(key: Key, spec: PoolSpec, cache: string)
    ensures |Slots(PlanOf(SlotNamesOf(key), key, spec), key, cache)| <= MaxSlots(spec)
  {
    var plan := PlanOf(SlotNamesOf(key), key, spec);
    var slots := Slots(plan, key, cache);
    forall c | c in slots
      ensures plan[c].slot in Below(MaxSlots(spec)) && c == SlotKey(key, cache, plan[c].slot)
    {
      PlannedAsLabelled(key, spec, c);
    }
    InjectionCard(slots, Below(MaxSlots(spec)), c => if c in plan && plan[c].slot >= 0 then plan[c].slot as nat else 0);
  }

  /** From an empty store, provisioning gives every template maxAgents slots, no more and no fewer, exactly when no
      two template names agree in their first 20 bytes (or no slots are wanted). */
  lemma EnoughSlotsIff(key: Key, spec: PoolSpec)
    requires Distinct(spec.caches)
    ensures (forall i :: 0 <= i < |spec.caches| ==>
      |Slots(PlanOf(SlotNamesOf(key), key, spec), key, spec.caches[i])| == MaxSlots(spec))
       <==> MaxSlots(spec) == 0 || DistinctCuts(spec.caches)
  {
    var plan := PlanOf(SlotNamesOf(key), key, spec);
    if DistinctCuts(spec.caches) {
      assert plan + map[] == plan;
      forall i | 0 <= i < |spec.caches|
        ensures |Slots(plan, key, spec.caches[i])| == MaxSlots(spec)
      {
        EnoughSlots(map[], key, spec, i);
        NoMoreSlots(key, spec, spec.caches[i]);
      }
    } else if MaxSlots(spec) == 0 {
      forall i | 0 <= i < |spec.caches|
        ensures |Slots(plan, key, spec.caches[i])| == 0
      {
        NoMoreSlots(key, spec, spec.caches[i]);
      }
    } else {
      var i, j :| 0 <= i < j < |spec.caches| && Cut(spec.caches[i], 20) == Cut(spec.caches[j], 20);
      SharedNamesStarve(key, spec, i, j);
    }
  }

  /** Whatever claims are there already: after successful provisioning every planned name is a slot of its
      template exactly when template names differ in their first 20 bytes and nobody else owns a claim of
      a planned name (or no slots are wanted). */
  lemma EverySlotIff(p: Pvcs, key: Key, spec: PoolSpec)
    requires Distinct(spec.caches)
    ensures var names, q := SlotNamesOf(key), PlanOf(SlotNamesOf(key), key, spec) + p;
      (forall i, s: nat :: 0 <= i < |spec.caches| && s < MaxSlots(spec) ==>
        names(spec.caches[i], s) in Slots(q, key, spec.caches[i]))
      <==> MaxSlots(spec) == 0 || (DistinctCuts(spec.caches) && NamesOwned(p, key, spec))
  {
    var names, q := SlotNamesOf(key), PlanOf(SlotNamesOf(key), key, spec) + p;
    if DistinctCuts(spec.caches) && NamesOwned(p, key, spec) {
      SlotNamesApart(key, spec.caches);
      forall i, s: nat | 0 <= i < |spec.caches| && s < MaxSlots(spec)
        ensures names(spec.caches[i], s) in Slots(q, key, spec.caches[i])
      {
        SlotThere(p, key, spec, i, s);
      }
    } else if MaxSlots(spec) > 0 && NamesOwned(p, key, spec) {
      var i, j :| 0 <= i < j < |spec.caches| && Cut(spec.caches[i], 20) == Cut(spec.caches[j], 20);
      assert names(spec.caches[i], 0) == names(spec.caches[j], 0);
      var c := names(spec.caches[i], 0);
      assert !(c in Slots(q, key, spec.caches[i]) && c in Slots(q, key, spec.caches[j]));
    }
  }

  /** Of two templates with the same cut name the later one gets no claims. */
  lemma SharedNamesStarve(key: Key, spec: PoolSpec, i: nat, j: nat)
    requires Distinct(spec.caches) && i < j < |spec.caches| && Cut(spec.caches[i], 20) == Cut(spec.caches[j], 20)
    ensures Slots(PlanOf(SlotNamesOf(key), key, spec), key, spec.caches[j]) == {}
  {
    var names, plan := SlotNamesOf(key), PlanOf(SlotNamesOf(key), key, spec);
    forall c | c in plan
      ensures plan[c].cache != spec.caches[j]
    {
      PlanAt(names, key, spec.caches, MaxSlots(spec), c);
      var k, s: nat :| 0 <= k < |spec.caches| && s < MaxSlots(spec) && names(spec.caches[k], s) == c
        && plan[c] == BuildPvc(key, spec.caches[k], s)
        && forall h, r: nat :: 0 <= h < k && r < MaxSlots(spec) ==> names(spec.caches[h], r) != c;
      assert names(spec.caches[i], s) == names(spec.caches[j], s);
    }
  }
}
