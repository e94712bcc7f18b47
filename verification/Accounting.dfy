/** The books of the slot allocator: every slot is free, held or stranded, and what a pass strands it never
    recovers. */
module Accounting {
  import opened Base
  import opened Store
  import opened Ledgers
  import opened Clusters
  import opened Stages
  import opened Passes
  import opened Scaling
  import opened Invariants

  // ----- the books of one state -----

  ghost function HeldSlots(w: World, pool: Key, cache: string): set<Key> {
    set c | c in Slots(w.pvcs, pool, cache) && Held(w, c)
  }

  ghost function StrandedSlots(w: World, pool: Key, cache: string): set<Key> {
    set c | c in Slots(w.pvcs, pool, cache) && c in Stranded(w, pool)
  }

  /** Every slot of a template is either free, or held by an existing pod that mounts it, or stranded. */
  lemma Balance(w: World, pool: Key, cache: string)
    requires LabelsOk(w.pvcs)
    ensures |Slots(w.pvcs, pool, cache)| ==
      |FreeSlots(w.pvcs, pool, cache)| + |HeldSlots(w, pool, cache)| + |StrandedSlots(w, pool, cache)|
  {
    var all, free, held := Slots(w.pvcs, pool, cache), FreeSlots(w.pvcs, pool, cache), HeldSlots(w, pool, cache);
    ThreeParts(all, free, held, StrandedSlots(w, pool, cache));
  }

  lemma ThreeParts(all: set<Key>, a: set<Key>, b: set<Key>, d: set<Key>)
    requires forall c :: c in all <==> c in a || c in b || c in d
    requires forall c :: !(c in a && c in b) && !(c in a && c in d) && !(c in b && c in d)
    ensures all == a + b + d && |all| == |a| + |b| + |d|
  {
    assert all == a + b + d;
    assert a !! b && (a + b) !! d;
  }

  function HolderOf(w: World, c: Key): Key {
    if c in w.pvcs && w.pvcs[c].assignedPod.Some? then Key(c.ns, w.pvcs[c].assignedPod.value) else c
  }

  /** No pod holds two slots of one template. */
  lemma HoldersDiffer(w: World, pool: Key, cache: string, holders: set<Key>)
    requires ClaimsOk(w) && forall c :: c in HeldSlots(w, pool, cache) ==> HolderOf(w, c) in holders
    ensures |HeldSlots(w, pool, cache)| <= |holders|
  {
    var held := HeldSlots(w, pool, cache);
    forall c, d | c in held && d in held && HolderOf(w, c) == HolderOf(w, d)
      ensures c == d
    {
      MountsByTemplate(w, HolderOf(w, c), c);
      MountsByTemplate(w, HolderOf(w, d), d);
    }
    InjectionCard(held, holders, c => HolderOf(w, c));
  }

  lemma MountsByTemplate(w: World, k: Key, c: Key)
    requires ClaimsOk(w) && Mounts(w, k, c) && c in w.pvcs
    ensures w.pvcs[c].cache in w.pods[k].claims && w.pods[k].claims[w.pvcs[c].cache] == c.name
  {
  }

  // ----- what a pass does to pods and claims -----

  /** Pods deleted by cleanup, claims released by it, pods created, claims assigned for good, pods deleted by
      scale-down. */
  datatype Moves = Moves(swept: set<Key>, freed: set<Key>, born: set<Key>, g: map<Key, string>, gone: set<Key>)

  function MovesOf(p: Pass): Moves {
    if p.Full? then Moves(p.f.swept, p.f.freed, p.f.growth.born, p.f.growth.g, p.f.gone)
    else Moves({}, {}, {}, map[], {})
  }

  ghost predicate ClaimStep(p: Pvcs, q: Pvcs, m: Moves) {
    && (forall c :: c in p ==> c in q && q[c].pool == p[c].pool && q[c].cache == p[c].cache)
    && (forall c :: c in p && c !in m.g && c !in m.freed ==> q[c] == p[c])
    && (forall c :: c in q && c !in m.g && (c !in p || c in m.freed) ==> q[c].state == Free && q[c].assignedPod == None)
    && (forall c :: c in m.g ==> c in q && q[c].state == Assigned && q[c].assignedPod == Some(m.g[c]))
    && (forall c :: c in m.g && c in p ==> p[c].state == Free || c in m.freed)
  }

  ghost predicate PodStep(p: Pods, q: Pods, m: Moves) {
    && (forall k :: k in q && k !in m.born ==> k in p && q[k] == p[k] && k !in m.swept && k !in m.gone)
    && (forall k :: k in p && k !in m.born && k !in m.swept && k !in m.gone ==> k in q)
    && m.born - m.gone <= q.Keys && (m.born == {} || m.gone == {})
  }

  /** Only claims of existing pods are released. */
  ghost predicate ReleaseStep(w: World, m: Moves) {
    forall c :: c in m.freed ==> c in w.pvcs && w.pvcs[c].assignedPod.Some? && Live(w, HolderOf(w, c))
  }

  /** Mentioned where a proof wants to know what the moves did. */
  ghost predicate Seen(m: Moves) { true }

  /** The step from `w` to `v`; the trigger keeps the details out of proofs that do not ask for them. */
  ghost predicate StoreStep(w: World, v: World, m: Moves) {
    forall n {:trigger Seen(n)} :: n == m ==> Steps(w, v, n)
  }

  ghost predicate Steps(w: World, v: World, m: Moves) {
    w.now <= v.now && ClaimStep(w.pvcs, v.pvcs, m) && PodStep(w.pods, v.pods, m) && ReleaseStep(w, m)
  }

  /** The new pods' names were new to the pods and claim labels of the namespace. */
  ghost predicate FreshNames(w: World, m: Moves) {
    forall k :: k in m.born ==>
      && (k !in w.pods || k in m.swept)
      && forall c :: c in w.pvcs && c.ns == k.ns && c !in m.freed ==> w.pvcs[c].assignedPod != Some(k.name)
  }

  /** Claims assigned to pods that exist are assigned to new ones, which mount them and bear their pool's label. */
  ghost predicate GrantsMounted(v: World, m: Moves) {
    forall c :: c in m.g && Key(c.ns, m.g[c]) in v.pods ==>
      var k := Key(c.ns, m.g[c]);
      && k in m.born && c in v.pvcs
      && v.pvcs[c].cache in v.pods[k].claims && v.pods[k].claims[v.pvcs[c].cache] == c.name
      && v.pods[k].pool == v.pvcs[c].pool
  }

  /** No new pod took the place of one that was still there. */
  ghost predicate BornOntoDead(w: World, v: World, m: Moves) {
    forall k :: k in m.born && k in w.pods && k !in m.swept ==> !Live(w.(now := v.now), k)
  }

  /** Claims assigned for good belong to new pods, which bear their pool's label and mount nothing else. */
  ghost predicate GrantsOwned(v: World, m: Moves) {
    && (forall c :: c in m.g ==> Key(c.ns, m.g[c]) in m.born)
    && (forall c :: c in m.g && c in v.pvcs && Key(c.ns, m.g[c]) in v.pods ==>
         v.pods[Key(c.ns, m.g[c])].pool == v.pvcs[c].pool)
    && (forall k, x :: k in m.born && k in v.pods && x in v.pods[k].claims ==> ClaimKey(k, v.pods[k], x) in m.g)
  }

  lemma PassMoves(s: Sys, t: Sys, key: Key, J: Azure, p: Pass)
    requires PassOf(s, t, key, J, p)
    ensures StoreStep(s.w, t.w, MovesOf(p))
  {
    PassSteps(s, t, key, J, p);
  }

  lemma PassSteps(s: Sys, t: Sys, key: Key, J: Azure, p: Pass)
    requires PassOf(s, t, key, J, p)
    ensures Steps(s.w, t.w, MovesOf(p))
  {
    match p
    case Full(f) =>
      ClaimStages(s, t, key, J, f);
      ProvisionedClaims(s, t, key, J, f);
      OnlyFreeAdded(s.w.pvcs, f.provisioned.w.pvcs, key, f.spec);
      NeverBothWays(s, t, key, J, f);
      StageTimes(s, t, key, J, f);
      ClaimMoves(s.w.pvcs, f.listed.w.pvcs, t.w.pvcs, key, f.spec, f.items, MovesOf(p));
      Newborns(s, t, key, J, f);
      PodMoves(s.w.pods, f.cleaned.w.pods, f.grown.w.pods, t.w.pods, MovesOf(p), f.growth.created);
      ReleasesKnown(s.w, f.listed.w, key, f.items, f.freed);
    case Stopped(_, _, _) =>
      OnlyFreeAdded(s.w.pvcs, t.w.pvcs, key, s.w.pools[key].spec);
    case _ =>
  }

  lemma ClaimMoves(p: Pvcs, q: Pvcs, r: Pvcs, key: Key, spec: PoolSpec, items: seq<PodItem>, m: Moves)
    requires FreeAdded(p, q) && m.freed <= SlotsOfAny(q, key, CompletedNames(items))
    requires r == Grant(ReleaseAll(q, m.freed), m.g) && GrantsFree(ReleaseAll(q, m.freed), key, spec.caches, m.g)
    ensures ClaimStep(p, r, m)
  {
  }

  lemma PodMoves(p: Pods, q: Pods, o: Pods, r: Pods, m: Moves, created: nat)
    requires q == p - m.swept && o - m.born == q - m.born && m.born <= o.Keys && r == o - m.gone
    requires |m.born| <= created && (created == 0 || m.gone == {})
    ensures PodStep(p, r, m)
  {
    forall k | k !in m.born
      ensures k in o <==> k in q
      ensures k in o ==> o[k] == q[k]
    {
      assert k in o - m.born <==> k in o;
      assert k in q - m.born <==> k in q;
    }
  }

  lemma ReleasesKnown(s: World, listed: World, key: Key, items: seq<PodItem>, freed: set<Key>)
    requires ListsPods(items, listed, key) && listed.pods == s.pods && s.now <= listed.now
    requires FreeAdded(s.pvcs, listed.pvcs)
    requires freed <= SlotsOfAny(listed.pvcs, key, CompletedNames(items))
    ensures forall c :: c in freed ==> c in s.pvcs && s.pvcs[c].assignedPod.Some? && Live(s, HolderOf(s, c))
    ensures forall c :: c in freed ==> HolderOf(s, c) in Completed(listed, key)
  {
    ListedCompleted(items, listed, key);
    forall c | c in freed
      ensures c in s.pvcs && s.pvcs[c].assignedPod.Some? && HolderOf(s, c) in Completed(listed, key)
      ensures Live(s, HolderOf(s, c))
    {
      assert HolderOf(listed, c) in KeysOf(key.ns, CompletedNames(items));
    }
  }

  lemma FreshPass(s: Sys, t: Sys, key: Key, J: Azure, p: Pass)
    requires PassOf(s, t, key, J, p) && t.led.reused == s.led.reused
    ensures FreshNames(s.w, MovesOf(p))
    ensures p.Full? && Distinct(p.f.spec.caches) && OwnLabel(key, p.f.spec) ==> GrantsMounted(t.w, MovesOf(p))
  {
    if p.Full? {
      var f := p.f;
      BornFresh(s, t, key, J, f);
      ClaimStages(s, t, key, J, f);
      ProvisionedClaims(s, t, key, J, f);
      OnlyFreeAdded(s.w.pvcs, f.provisioned.w.pvcs, key, f.spec);
      if Distinct(f.spec.caches) && OwnLabel(key, f.spec) {
        MountedPass(s, t, key, J, f);
      }
    }
  }

  /** In a pass that creates no two pods of one name the claims it assigned are mounted. */
  lemma MountedPass(s: Sys, t: Sys, key: Key, J: Azure, f: FullPass)
    requires FullOf(s, t, key, J, f) && Distinct(f.spec.caches) && OwnLabel(key, f.spec)
    requires NoNameTwice(f.cleaned, f.grown, f.growth)
    ensures GrantsMounted(t.w, MovesOf(Pass.Full(f)))
  {
    ClaimStages(s, t, key, J, f);
    Newborns(s, t, key, J, f);
    BornMounts(s, t, key, J, f);
  }

  lemma BornMounts(s: Sys, t: Sys, key: Key, J: Azure, f: FullPass)
    requires FullOf(s, t, key, J, f) && Distinct(f.spec.caches) && NoNameTwice(f.cleaned, f.grown, f.growth)
    ensures BornMount(f.grown.w.pods, f.cleaned.w.pvcs, f.growth.g, f.growth.born)
  {
    assert Open(f);
  }

  lemma DeadBirths(s: Sys, t: Sys, key: Key, J: Azure, p: Pass)
    requires PassOf(s, t, key, J, p)
    ensures BornOntoDead(s.w, t.w, MovesOf(p))
  {
    if p.Full? {
      StageTimes(s, t, key, J, p.f);
      PodStages(s, t, key, J, p.f);
      Newborns(s, t, key, J, p.f);
    }
  }

  lemma Releases(s: Sys, t: Sys, key: Key, J: Azure, f: FullPass)
    requires FullOf(s, t, key, J, f)
    ensures |f.spec.caches| > 0 && f.cleaned.led.releaseFaults == f.listed.led.releaseFaults ==>
      f.freed == SlotsOfAny(f.listed.w.pvcs, key, CompletedNames(f.items))
    ensures t.led.releaseFaults == s.led.releaseFaults ==>
      && f.cleaned.led.releaseFaults == f.listed.led.releaseFaults
      && f.grown.led.releaseFaults == f.cleaned.led.releaseFaults
      && (Distinct(f.spec.caches) ==> AllBorn(f.growth.g, f.growth.born))
  {
    assert Open(f);
  }

  lemma OwnedPass(s: Sys, t: Sys, key: Key, J: Azure, p: Pass)
    requires PassOf(s, t, key, J, p) && t.led.releaseFaults == s.led.releaseFaults
    requires p.Full? ==> Distinct(p.f.spec.caches) && OwnLabel(key, p.f.spec)
    ensures GrantsOwned(t.w, MovesOf(p))
  {
    if p.Full? {
      Releases(s, t, key, J, p.f);
      ClaimStages(s, t, key, J, p.f);
      Newborns(s, t, key, J, p.f);
      OwnedMoves(f := p.f, t := t.w, key := key);
    }
  }

  lemma OwnedMoves(f: FullPass, t: World, key: Key)
    requires AllBorn(f.growth.g, f.growth.born) && t.pods == f.grown.w.pods - f.gone && t.pvcs == f.grown.w.pvcs
    requires f.grown.w.pvcs == Grant(f.cleaned.w.pvcs, f.growth.g)
    requires GrantsFree(f.cleaned.w.pvcs, key, f.spec.caches, f.growth.g)
    requires forall k :: k in f.growth.born ==> k in f.grown.w.pods && f.grown.w.pods[k].pool == key.name
    requires forall k :: k in f.growth.born ==>
      k in f.grown.w.pods && NewAgent(f.cleaned.w.pvcs, key, f.spec, k, f.grown.w.pods[k], f.growth.g)
    ensures GrantsOwned(t, MovesOf(Pass.Full(f)))
  {
    forall k, x | k in f.growth.born && k in t.pods && x in t.pods[k].claims
      ensures ClaimKey(k, t.pods[k], x) in f.growth.g
    {
      assert NewAgent(f.cleaned.w.pvcs, key, f.spec, k, f.grown.w.pods[k], f.growth.g);
    }
  }

  lemma BornFresh(s: Sys, t: Sys, key: Key, J: Azure, f: FullPass)
    requires FullOf(s, t, key, J, f) && t.led.reused == s.led.reused
    ensures forall k :: k in f.growth.born ==> Unborn(f.cleaned.w, k)
    ensures f.grown.led.reused == f.cleaned.led.reused
  {
    assert Open(f);
  }

  // ----- the books of a pass -----

  ghost predicate StrandedAt(w: World, c: Key) {
    c in w.pvcs && w.pvcs[c].state == Assigned && !Held(w, c)
  }

  /** A held claim that was not released although its pod was deleted, by the pass or from outside. */
  ghost predicate Orphaned(w: World, now: nat, m: Moves, c: Key) {
    && Held(w, c) && w.pvcs[c].state == Assigned && c !in m.freed
    && (HolderOf(w, c) in m.swept || HolderOf(w, c) in m.gone || !Live(w.(now := now), HolderOf(w, c)))
  }

  /** A claim assigned for good without a pod that mounts it at the end. */
  ghost predicate LeftOver(v: World, m: Moves, c: Key) {
    c in m.g && !Held(v, c)
  }

  /** Whether a claim is stranded after a step: it was, or it was orphaned, or it was left over. */
  lemma ClaimFate(w: World, v: World, m: Moves, c: Key)
    requires StoreStep(w, v, m) && FreshNames(w, m) && LabelsOk(w.pvcs)
    ensures StrandedAt(v, c) <==> (StrandedAt(w, c) && c !in m.freed) || Orphaned(w, v.now, m, c) || LeftOver(v, m, c)
    ensures !(StrandedAt(w, c) && Orphaned(w, v.now, m, c))
    ensures LeftOver(v, m, c) && c !in m.freed ==> !StrandedAt(w, c) && !Orphaned(w, v.now, m, c)
  {
    assert Seen(m);
    if c in w.pvcs && w.pvcs[c].assignedPod.Some? && c !in m.g && c !in m.freed {
      HolderFate(w, v, m, c);
    }
  }

  /** A claim left alone is held afterwards exactly if it was and its pod is still there. */
  lemma HolderFate(w: World, v: World, m: Moves, c: Key)
    requires StoreStep(w, v, m) && FreshNames(w, m)
    requires c in w.pvcs && w.pvcs[c].assignedPod.Some? && c !in m.g && c !in m.freed
    ensures var k := HolderOf(w, c);
      Held(v, c) <==> Held(w, c) && k !in m.swept && k !in m.gone && Live(w.(now := v.now), k)
  {
    assert Seen(m);
    var k := HolderOf(w, c);
    assert k !in m.born;
  }

  ghost function Orphans(w: World, now: nat, m: Moves, pool: Key): set<Key> {
    set c | c in w.pvcs && InPool(c, w.pvcs[c].pool, pool) && Orphaned(w, now, m, c)
  }

  ghost function LeftOvers(v: World, m: Moves, pool: Key): set<Key> {
    set c | c in v.pvcs && InPool(c, v.pvcs[c].pool, pool) && LeftOver(v, m, c)
  }

  /** The books of any pool over one step of any pool: what is stranded afterwards is what was and has not
      been released, what lost its pod, and what a failed rollback left, and nothing is counted twice. */
  lemma Books(w: World, v: World, m: Moves, pool: Key)
    requires StoreStep(w, v, m) && FreshNames(w, m) && LabelsOk(w.pvcs)
    ensures Stranded(v, pool) == (Stranded(w, pool) - m.freed) + Orphans(w, v.now, m, pool) + LeftOvers(v, m, pool)
    ensures |Stranded(v, pool)| ==
      |Stranded(w, pool) - m.freed| + |Orphans(w, v.now, m, pool)| + |LeftOvers(v, m, pool)|
  {
    forall c
      ensures c in Stranded(v, pool)
        <==> c in Stranded(w, pool) - m.freed || c in Orphans(w, v.now, m, pool) || c in LeftOvers(v, m, pool)
      ensures !(c in Stranded(w, pool) - m.freed && c in Orphans(w, v.now, m, pool))
      ensures !(c in Stranded(w, pool) - m.freed && c in LeftOvers(v, m, pool))
      ensures !(c in Orphans(w, v.now, m, pool) && c in LeftOvers(v, m, pool))
    {
      BookEntry(w, v, m, pool, c);
    }
    ThreeParts(Stranded(v, pool), Stranded(w, pool) - m.freed, Orphans(w, v.now, m, pool), LeftOvers(v, m, pool));
  }

  lemma BookEntry(w: World, v: World, m: Moves, pool: Key, c: Key)
    requires StoreStep(w, v, m) && FreshNames(w, m) && LabelsOk(w.pvcs)
    ensures c in Stranded(v, pool)
      <==> c in Stranded(w, pool) - m.freed || c in Orphans(w, v.now, m, pool) || c in LeftOvers(v, m, pool)
    ensures !(c in Stranded(w, pool) - m.freed && c in Orphans(w, v.now, m, pool))
    ensures !(c in Stranded(w, pool) - m.freed && c in LeftOvers(v, m, pool))
    ensures !(c in Orphans(w, v.now, m, pool) && c in LeftOvers(v, m, pool))
  {
    assert Seen(m);
    ClaimFate(w, v, m, c);
  }

  /** The two state labels of every claim agree, and a claim whose labelled pod exists is mounted by it. */
  ghost predicate OwnersMount(w: World) {
    && LabelsOk(w.pvcs)
    && forall c :: c in w.pvcs && w.pvcs[c].assignedPod.Some? && Live(w, HolderOf(w, c)) ==> Held(w, c)
  }

  /** Pods hold only claims of their own pool. */
  ghost predicate OwnPods(w: World) {
    forall c :: Held(w, c) ==> w.pods[HolderOf(w, c)].pool == w.pvcs[c].pool
  }

  lemma OwnersStay(w: World, v: World, m: Moves)
    requires StoreStep(w, v, m) && FreshNames(w, m) && GrantsMounted(v, m) && OwnersMount(w) && OwnPods(w)
    ensures OwnersMount(v) && OwnPods(v)
  {
    LabelsStay(w, v, m);
    forall c | c in v.pvcs && v.pvcs[c].assignedPod.Some? && Live(v, HolderOf(v, c))
      ensures Held(v, c) && v.pods[HolderOf(v, c)].pool == v.pvcs[c].pool
    {
      OwnerStays(w, v, m, c);
    }
  }

  lemma LabelsStay(w: World, v: World, m: Moves)
    requires StoreStep(w, v, m) && LabelsOk(w.pvcs)
    ensures LabelsOk(v.pvcs)
  {
    assert Seen(m);
  }

  lemma OwnerStays(w: World, v: World, m: Moves, c: Key)
    requires StoreStep(w, v, m) && FreshNames(w, m) && GrantsMounted(v, m)
    requires c in w.pvcs && w.pvcs[c].assignedPod.Some? && Live(w, HolderOf(w, c)) ==>
      Held(w, c) && w.pods[HolderOf(w, c)].pool == w.pvcs[c].pool
    requires c in v.pvcs && v.pvcs[c].assignedPod.Some? && Live(v, HolderOf(v, c))
    ensures Held(v, c) && v.pods[HolderOf(v, c)].pool == v.pvcs[c].pool
  {
    assert Seen(m);
    var k := HolderOf(v, c);
    if c in m.g {
      assert Names(v.pods[k].claims, c.name);
    } else {
      assert k !in m.born && Live(w, k);
    }
  }

  /** With fresh pod names a stranded claim stays stranded: nothing ever releases it. */
  lemma NeverRecovered(w: World, v: World, m: Moves, pool: Key)
    requires StoreStep(w, v, m) && FreshNames(w, m) && OwnersMount(w)
    ensures Stranded(w, pool) <= Stranded(v, pool)
    ensures |Stranded(v, pool)| == |Stranded(w, pool)| + |Orphans(w, v.now, m, pool)| + |LeftOvers(v, m, pool)|
  {
    FreedWereHeld(w, v, m, pool);
    Books(w, v, m, pool);
    NothingTaken(Stranded(v, pool), Stranded(w, pool), m.freed, Orphans(w, v.now, m, pool), LeftOvers(v, m, pool));
  }

  lemma NothingTaken(after: set<Key>, before: set<Key>, freed: set<Key>, a: set<Key>, b: set<Key>)
    requires after == before - freed + a + b && before !! freed && |after| == |before - freed| + |a| + |b|
    ensures before <= after && |after| == |before| + |a| + |b|
  {
  }

  lemma FreedWereHeld(w: World, v: World, m: Moves, pool: Key)
    requires StoreStep(w, v, m) && OwnersMount(w)
    ensures Stranded(w, pool) !! m.freed
  {
    assert Seen(m);
  }
}
