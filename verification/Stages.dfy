/** What each stage of a reconcile pass does to the store, as relations between the states before and
    after it. The controller's methods guarantee these relations; the theorems are about them. */
module Stages {
  import opened Base
  import opened Naming
  import opened Store
  import opened Ledgers
  import opened Clusters
  import opened Allocator

  // The predicates `Is...` below state the ones they are named after, out of the way of proofs that do not
  // mention their `Detail`.

  // ----- listed pods -----

  function KeysOf(ns: string, names: set<string>): set<Key> {
    set n | n in names :: Key(ns, n)
  }

  function CompletedNames(items: seq<PodItem>): set<string> {
    set i | 0 <= i < |items| && IsCompleted(items[i].phase) :: items[i].name
  }

  function ItemNames(items: seq<PodItem>): set<string> {
    set i | 0 <= i < |items| :: items[i].name
  }

  /** The Running and Pending pods of a listing, in its order. */
  function ActiveItems(items: seq<PodItem>): seq<PodItem> {
    if items == [] then []
    else
      var last := items[|items| - 1];
      ActiveItems(items[..|items| - 1]) + (if IsActive(last.phase) then [last] else [])
  }

  /** The listed pods whose agents no job has reserved. */
  function IdleItems(items: seq<PodItem>, busy: set<string>): seq<PodItem> {
    if items == [] then []
    else
      var last := items[|items| - 1];
      IdleItems(items[..|items| - 1], busy) + (if last.name in busy then [] else [last])
  }

  lemma ActiveStep(items: seq<PodItem>, i: nat)
    requires i < |items|
    ensures ActiveItems(items[..i + 1]) ==
      ActiveItems(items[..i]) + (if IsActive(items[i].phase) then [items[i]] else [])
  {
    assert items[..i + 1][..i] == items[..i];
  }

  /** The active part of a listing consists of its active items, each once. */
  lemma {:induction false} ActivePart(items: seq<PodItem>, i: nat)
    requires i <= |items| && DistinctNames(items)
    ensures forall x :: x in ActiveItems(items[..i]) <==> x in items[..i] && IsActive(x.phase)
    ensures DistinctNames(ActiveItems(items[..i]))
  {
    if i > 0 {
      ActivePart(items, i - 1);
      ActiveStep(items, i - 1);
      assert items[..i] == items[..i - 1] + [items[i - 1]];
      var act := ActiveItems(items[..i - 1]);
      forall a | 0 <= a < |act|
        ensures act[a].name != items[i - 1].name
      {
        assert act[a] in items[..i - 1];
      }
    }
  }

  /** The names in a listing without repetition are as many as its items. */
  lemma {:induction false} CountNames(ns: string, items: seq<PodItem>)
    requires DistinctNames(items)
    ensures |KeysOf(ns, ItemNames(items))| == |items|
  {
    if items == [] {
      assert KeysOf(ns, ItemNames(items)) == {};
    } else {
      var n := |items| - 1;
      var rest, last := items[..n], items[n];
      CountNames(ns, rest);
      assert items == rest + [last];
      NamesOfMore(rest, last);
      assert last.name !in ItemNames(rest);
      assert KeysOf(ns, ItemNames(items)) == KeysOf(ns, ItemNames(rest)) + {Key(ns, last.name)};
    }
  }

  ghost predicate DistinctNames(items: seq<PodItem>) {
    forall a, b :: 0 <= a < b < |items| ==> items[a].name != items[b].name
  }

  lemma ActiveItemsAre(items: seq<PodItem>)
    requires DistinctNames(items)
    ensures forall x :: x in ActiveItems(items) <==> x in items && IsActive(x.phase)
    ensures DistinctNames(ActiveItems(items))
  {
  }

  lemma NamesAre(ns: string, items: seq<PodItem>, k: Key)
    ensures k in KeysOf(ns, ItemNames(items)) <==> k.ns == ns && exists x :: x in items && x.name == k.name
  {
  }

  /** The listed active pods are the active pods of the pool. */
  lemma ListedActive(items: seq<PodItem>, w: World, pool: Key)
    requires ListsPods(items, w, pool)
    ensures KeysOf(pool.ns, ItemNames(ActiveItems(items))) == Active(w, pool)
    ensures |ActiveItems(items)| == |Active(w, pool)| && DistinctNames(ActiveItems(items))
  {
    var act := ActiveItems(items);
    ActiveItemsAre(items);
    CountNames(pool.ns, act);
    forall k
      ensures k in KeysOf(pool.ns, ItemNames(act)) <==> k in Active(w, pool)
    {
      ListedActiveKey(items, w, pool, act, k);
    }
  }

  lemma ListedActiveKey(items: seq<PodItem>, w: World, pool: Key, act: seq<PodItem>, k: Key)
    requires ListsPods(items, w, pool) && forall x :: x in act <==> x in items && IsActive(x.phase)
    ensures k in KeysOf(pool.ns, ItemNames(act)) <==> k in Active(w, pool)
  {
  }

  // ----- deletions -----

  /** The operator's deletions between two states are those of `gone`, all of pods that existed. */
  ghost predicate KillsOf(s: Sys, t: Sys, gone: set<Key>) {
    && gone <= s.w.pods.Keys && s.led.kills <= t.led.kills
    && (forall x :: x in t.led.kills && x !in s.led.kills ==>
          x.key in gone && x.key in s.w.pods && x.pod == s.w.pods[x.key] && s.w.now <= x.at <= t.w.now)
  }

  lemma KillsMore(r: Sys, s: Sys, t: Sys, gone: set<Key>, g: set<Key>)
    requires KillsOf(r, s, gone) && KillsOf(s, t, g) && s.w.pods == r.w.pods - gone && r.w.now <= s.w.now <= t.w.now
    ensures KillsOf(r, t, gone + g)
  {
  }

  lemma PodsWithout(p: Pods, gone: set<Key>, g: set<Key>)
    ensures p - gone - g == p - (gone + g)
  {
  }

  // ----- cleanup -----

  function SlotsOfAny(pvcs: Pvcs, pool: Key, names: set<string>): set<Key> {
    set c | c in pvcs && InPool(c, pvcs[c].pool, pool)
      && pvcs[c].assignedPod.Some? && pvcs[c].assignedPod.value in names
  }

  function StillThere(w: World, pool: Key, names: set<string>): set<string> {
    set n | n in names && Live(w, Key(pool.ns, n))
  }

  /** The pods among `names` that some claim still names. */
  function Unreleased(pvcs: Pvcs, pool: Key, names: set<string>): set<string> {
    set n | n in names && SlotsOf(pvcs, pool, n) != {}
  }

  lemma UnreleasedOne(pvcs: Pvcs, pool: Key, n: string)
    ensures Within(Unreleased(pvcs, pool, {n}), if SlotsOf(pvcs, pool, n) != {} then 1 else 0)
  {
    assert Unreleased(pvcs, pool, {n}) == if SlotsOf(pvcs, pool, n) != {} then {n} else {};
    Counted(Unreleased(pvcs, pool, {n}), if SlotsOf(pvcs, pool, n) != {} then 1 else 0);
  }

  lemma UnreleasedMore(p: Pvcs, q: Pvcs, pool: Key, names: set<string>, n: string, freed: set<Key>, i: int, j: int)
    requires q == ReleaseAll(p, freed)
    requires Within(Unreleased(p, pool, names), i) && Within(Unreleased(q, pool, {n}), j)
    ensures Within(Unreleased(q, pool, names + {n}), i + j)
  {
    forall m | m in Unreleased(q, pool, names + {n})
      ensures m in Unreleased(p, pool, names) + Unreleased(q, pool, {n})
    {
      assert SlotsOf(q, pool, m) <= SlotsOf(p, pool, m);
    }
    WithinMore(Unreleased(p, pool, names), i, Unreleased(q, pool, {n}), j, Unreleased(q, pool, names + {n}));
  }

  /** Cleanup of the completed pods `names`: `freed` claims were released and `gone` pods deleted. Every
      pod is tried once: each one that is left accounts for a failed delete, each one that claims still name for
      a failed release. */
  ghost predicate Cleaned(s: Sys, t: Sys, pool: Key, hasCaches: bool, names: set<string>, freed: set<Key>,
                          gone: set<Key>, ok: bool) {
    && CleanedStore(s, t, pool, hasCaches, names, freed, gone, ok)
    && Within(StillThere(t.w, pool, names), OtherFaults(s, t))
    && Covers(names, gone, OtherFaults(s, t))
    && (hasCaches ==> Within(Unreleased(t.w.pvcs, pool, names), FailedReleases(s, t)))
  }

  ghost predicate CleanedStore(s: Sys, t: Sys, pool: Key, hasCaches: bool, names: set<string>, freed: set<Key>,
                               gone: set<Key>, ok: bool) {
    && Grows(s, t)
    && t.w == s.w.(pods := s.w.pods - gone, pvcs := ReleaseAll(s.w.pvcs, freed), now := t.w.now)
    && t.led == s.led.(faults := t.led.faults, releaseFaults := t.led.releaseFaults, writes := t.led.writes,
                       kills := t.led.kills)
    && KillsOf(s, t, gone) && gone <= KeysOf(pool.ns, names)
    && freed <= SlotsOfAny(s.w.pvcs, pool, names) && (!hasCaches ==> freed == {})
    && (hasCaches && t.led.releaseFaults == s.led.releaseFaults ==> freed == SlotsOfAny(s.w.pvcs, pool, names))
    && (ok <==> NoFault(s, t))
    && (freed == {} && gone == {} ==> t.led.writes == s.led.writes)
  }

  ghost predicate IsCleaned(s: Sys, t: Sys, pool: Key, hasCaches: bool, names: set<string>, freed: set<Key>,
                            gone: set<Key>, ok: bool) {
    forall g {:trigger Detail(g)} :: g == gone ==> Cleaned(s, t, pool, hasCaches, names, freed, g, ok)
  }

  lemma CleanedNothing(s: Sys, pool: Key, hasCaches: bool)
    ensures IsCleaned(s, s, pool, hasCaches, {}, {}, {}, true)
  {
    assert s.w.pods - {} == s.w.pods && ReleaseAll(s.w.pvcs, {}) == s.w.pvcs;
    assert StillThere(s.w, pool, {}) == {} && Unreleased(s.w.pvcs, pool, {}) == {};
    CountsNone<string>();
    assert Cleaned(s, s, pool, hasCaches, {}, {}, {}, true);
  }

  lemma SlotsOfMore(pvcs: Pvcs, pool: Key, names: set<string>, freed: set<Key>, n: string)
    requires freed <= SlotsOfAny(pvcs, pool, names)
    ensures SlotsOf(ReleaseAll(pvcs, freed), pool, n) == SlotsOf(pvcs, pool, n) - freed
    ensures SlotsOfAny(pvcs, pool, names + {n}) == SlotsOfAny(pvcs, pool, names) + SlotsOf(pvcs, pool, n)
  {
  }

  lemma StillThereOne(w: World, pool: Key, n: string)
    ensures Within(StillThere(w, pool, {n}), if Live(w, Key(pool.ns, n)) then 1 else 0)
  {
    assert StillThere(w, pool, {n}) == if Live(w, Key(pool.ns, n)) then {n} else {};
    Counted(StillThere(w, pool, {n}), if Live(w, Key(pool.ns, n)) then 1 else 0);
  }

  lemma StillThereMore(w: World, v: World, pool: Key, names: set<string>, n: string, i: int, j: int)
    requires w.now <= v.now && forall k :: k in v.pods ==> k in w.pods && v.pods[k] == w.pods[k]
    requires Within(StillThere(w, pool, names), i) && Within(StillThere(v, pool, {n}), j)
    ensures Within(StillThere(v, pool, names + {n}), i + j)
  {
    WithinMore(StillThere(w, pool, names), i, StillThere(v, pool, {n}), j, StillThere(v, pool, names + {n}));
  }

  /** The claims of one completed pod were released, as far as no call failed. */
  ghost predicate ReleasedFor(s: Sys, t: Sys, pool: Key, hasCaches: bool, n: string, freed: set<Key>, ok: bool) {
    && ClaimsOnly(s, t) && t.w.pvcs == ReleaseAll(s.w.pvcs, freed) && freed <= SlotsOf(s.w.pvcs, pool, n)
    && FailedCalls(s, t) == FailedReleases(s, t) && (ok <==> NoFault(s, t))
    && (freed == {} ==> t.led.writes == s.led.writes)
    && (if hasCaches then FailedReleases(s, t) == 0 ==> freed == SlotsOf(s.w.pvcs, pool, n)
        else freed == {} && NoFault(s, t))
  }

  /** One delete call. */
  ghost predicate DeletedOne(s: Sys, t: Sys, k: Key, gone: set<Key>) {
    && Grows(s, t)
    && t.w == s.w.(pods := s.w.pods - gone, now := t.w.now)
    && t.led == s.led.(faults := t.led.faults, writes := t.led.writes, kills := t.led.kills)
    && KillsOf(s, t, gone) && gone <= {k}
    && (gone == {} ==> t.led.writes == s.led.writes)
    && FailedCalls(s, t) <= (if gone == {} then 1 else 0) && (Live(t.w, k) ==> FailedCalls(s, t) == 1)
    && (Frozen(s, t) && Live(s.w, k) ==> FailedCalls(s, t) == if gone == {k} then 0 else 1)
  }

  /** A completed pod is cleaned up by releasing its claims and deleting it, whatever became of the release. */
  lemma CleanedOne(s: Sys, m: Sys, t: Sys, pool: Key, hasCaches: bool, n: string, freed: set<Key>, gone: set<Key>,
                   released: bool, ok: bool)
    requires ReleasedFor(s, m, pool, hasCaches, n, freed, released) && DeletedOne(m, t, Key(pool.ns, n), gone)
    requires ok <==> released && NoFault(m, t)
    ensures IsCleaned(s, t, pool, hasCaches, {n}, freed, gone, ok)
  {
    CleanedOneStore(s, m, t, pool, hasCaches, n, freed, gone, released, ok);
    StillThereOne(t.w, pool, n);
    Counted(StillThere(t.w, pool, {n}), OtherFaults(s, t));
    Counted(StillThere(t.w, pool, {n}), if Live(t.w, Key(pool.ns, n)) then 1 else 0);
    assert gone == {} || gone == {Key(pool.ns, n)};
    CoversOne(n, gone, OtherFaults(s, t));
    if hasCaches {
      UnreleasedAfter(s, m, t, pool, n, freed, released);
    }
    assert Cleaned(s, t, pool, hasCaches, {n}, freed, gone, ok);
  }

  lemma CleanedOneStore(s: Sys, m: Sys, t: Sys, pool: Key, hasCaches: bool, n: string, freed: set<Key>, gone: set<Key>,
                        released: bool, ok: bool)
    requires ReleasedFor(s, m, pool, hasCaches, n, freed, released) && DeletedOne(m, t, Key(pool.ns, n), gone)
    requires ok <==> released && NoFault(m, t)
    ensures CleanedStore(s, t, pool, hasCaches, {n}, freed, gone, ok)
  {
    assert SlotsOfAny(s.w.pvcs, pool, {n}) == SlotsOf(s.w.pvcs, pool, n);
  }

  lemma UnreleasedAfter(s: Sys, m: Sys, t: Sys, pool: Key, n: string, freed: set<Key>, released: bool)
    requires ReleasedFor(s, m, pool, true, n, freed, released)
    requires t.w.pvcs == m.w.pvcs && t.led.releaseFaults == m.led.releaseFaults
    ensures Within(Unreleased(t.w.pvcs, pool, {n}), FailedReleases(s, t))
  {
    SlotsOfMore(s.w.pvcs, pool, {n}, freed, n);
    UnreleasedOne(t.w.pvcs, pool, n);
    Counted(Unreleased(t.w.pvcs, pool, {n}), FailedReleases(s, t));
    Counted(Unreleased(t.w.pvcs, pool, {n}), if SlotsOf(t.w.pvcs, pool, n) != {} then 1 else 0);
  }

  /** Cleaning up one more pod. */
  lemma CleanedStep(r: Sys, s: Sys, t: Sys, pool: Key, hasCaches: bool, names: set<string>, freed: set<Key>,
                    gone: set<Key>, ok: bool, n: string, freed': set<Key>, gone': set<Key>, ok': bool)
    requires IsCleaned(r, s, pool, hasCaches, names, freed, gone, ok)
    requires IsCleaned(s, t, pool, hasCaches, {n}, freed', gone', ok') && n !in names
    ensures IsCleaned(r, t, pool, hasCaches, names + {n}, freed + freed', gone + gone', ok && ok')
  {
    CleanedStoreMore(r, s, t, pool, hasCaches, names, freed, gone, ok, n, freed', gone', ok');
    CleanedCountsMore(r, s, t, pool, hasCaches, names, freed, gone, ok, n, freed', gone', ok');
    assert Cleaned(r, t, pool, hasCaches, names + {n}, freed + freed', gone + gone', ok && ok');
  }

  lemma CleanedStoreMore(r: Sys, s: Sys, t: Sys, pool: Key, hasCaches: bool, names: set<string>, freed: set<Key>,
                         gone: set<Key>, ok: bool, n: string, freed': set<Key>, gone': set<Key>, ok': bool)
    requires IsCleaned(r, s, pool, hasCaches, names, freed, gone, ok)
    requires IsCleaned(s, t, pool, hasCaches, {n}, freed', gone', ok')
    ensures CleanedStore(r, t, pool, hasCaches, names + {n}, freed + freed', gone + gone', ok && ok')
  {
    assert Detail(gone) && Detail(gone');
    ReleaseMore(r.w.pvcs, freed, freed');
    SlotsOfMore(r.w.pvcs, pool, names, freed, n);
    assert SlotsOfAny(s.w.pvcs, pool, {n}) == SlotsOf(s.w.pvcs, pool, n);
    PodsWithout(r.w.pods, gone, gone');
    KillsMore(r, s, t, gone, gone');
  }

  lemma CleanedCountsMore(r: Sys, s: Sys, t: Sys, pool: Key, hasCaches: bool, names: set<string>, freed: set<Key>,
                          gone: set<Key>, ok: bool, n: string, freed': set<Key>, gone': set<Key>, ok': bool)
    requires IsCleaned(r, s, pool, hasCaches, names, freed, gone, ok)
    requires IsCleaned(s, t, pool, hasCaches, {n}, freed', gone', ok') && n !in names
    ensures Within(StillThere(t.w, pool, names + {n}), OtherFaults(r, t))
    ensures Covers(names + {n}, gone + gone', OtherFaults(r, t))
    ensures hasCaches ==> Within(Unreleased(t.w.pvcs, pool, names + {n}), FailedReleases(r, t))
  {
    assert Detail(gone) && Detail(gone');
    StillThereMore(s.w, t.w, pool, names, n, OtherFaults(r, s), OtherFaults(s, t));
    CoversMore(names, gone, OtherFaults(r, s), n, gone', OtherFaults(s, t));
    if hasCaches {
      UnreleasedMore(s.w.pvcs, t.w.pvcs, pool, names, n, freed', FailedReleases(r, s), FailedReleases(s, t));
    }
  }

  lemma ActiveAfterCleanup(s: Sys, t: Sys, pool: Key, hasCaches: bool, names: set<string>, freed: set<Key>,
                           gone: set<Key>, ok: bool)
    requires IsCleaned(s, t, pool, hasCaches, names, freed, gone, ok)
    ensures |Active(t.w, pool)| <= |Active(s.w, pool)|
  {
    assert Detail(gone);
    SubsetCard(Active(t.w, pool), Active(s.w, pool));
  }

  // ----- scale-up -----

  const POOL_LABEL := "agentpool"

  /** The `agentpool` label of the pool's pods: user labels are copied over the operator's. */
  function AgentLabel(pool: Key, spec: PoolSpec): (r: string)
    ensures r == (map[POOL_LABEL := pool.name] + spec.podLabels)[POOL_LABEL]
  {
    if POOL_LABEL in spec.podLabels then spec.podLabels[POOL_LABEL] else pool.name
  }

  /** No pod and no claim label of the namespace bears the name. */
  ghost predicate Unborn(w: World, k: Key) {
    k !in w.pods && forall c :: c in w.pvcs && c.ns == k.ns ==> w.pvcs[c].assignedPod != Some(k.name)
  }

  /** The pod bears a name that the operator gives agents of the pool. */
  ghost predicate AgentNamed(pool: Key, k: Key) {
    forall n {:trigger Detail(n)} :: n == k.name ==> exists x :: IsSuffix(x) && n == PodName(pool.name, x)
  }

  lemma NamedAsAgent(pool: Key, k: Key, suffix: string)
    requires IsSuffix(suffix) && k.name == PodName(pool.name, suffix)
    ensures AgentNamed(pool, k)
  {
  }

  /** The outcome of creating an agent pod named `k`: `g` are the claims assigned to it and kept. */
  datatype Birth = Birth(ok: bool, k: Key, g: map<Key, string>, full: bool)

  ghost predicate CreatedOrNot(s: Sys, t: Sys, pool: Key, spec: PoolSpec, b: Birth) {
    && Grows(s, t) && b.k.ns == pool.ns && AgentNamed(pool, b.k)
    && t.w == s.w.(pods := t.w.pods, pvcs := Grant(s.w.pvcs, b.g), now := t.w.now)
    && t.led == s.led.(faults := t.led.faults, releaseFaults := t.led.releaseFaults, named := t.led.named,
                       reused := t.led.reused, writes := t.led.writes)
    && Taken(s.w.pvcs, pool, spec.caches, b.k.name, b.g)
    && (if b.ok then
          && b.k in t.w.pods && t.w.pods == s.w.pods[b.k := t.w.pods[b.k]]
          && t.w.pods[b.k].pool == AgentLabel(pool, spec)
          && OnePerCache(s.w.pvcs, pool.ns, spec.caches, t.w.pods[b.k].claims, b.g)
          && PhaseAt(t.w.pods[b.k].fate, t.w.now) == Some(Pending)
          && !Live(s.w.(now := t.w.now), b.k)
          && NoFault(s, t) && !b.full
        else
          && t.w.pods == s.w.pods
          && OtherFaults(s, t) == if b.full then 0 else 1)
    && (!b.ok && Distinct(spec.caches) && t.led.releaseFaults == s.led.releaseFaults ==> b.g == map[])
    && (!b.ok && Distinct(spec.caches) ==> Counts(b.g.Keys, FailedReleases(s, t)))
    && (b.full && Distinct(spec.caches) ==> Exhausted(s.w.pvcs, pool, spec.caches))
    && (b.full ==> WroteUnlessBare(s, t, pool, spec.caches))
  }

  ghost predicate Created(s: Sys, t: Sys, pool: Key, spec: PoolSpec, b: Birth) {
    && CreatedOrNot(s, t, pool, spec, b)
    && NamesTried(s, t) == 1 && (t.led.reused == s.led.reused ==> Unborn(s.w, b.k))
  }

  ghost predicate IsCreated(s: Sys, t: Sys, pool: Key, spec: PoolSpec, b: Birth) {
    forall c {:trigger Detail(c)} :: c == b ==> Created(s, t, pool, spec, c)
  }

  /** The outcome of a scale-up: pods created, their names, the claims assigned and kept, and whether it
      ended because some template had no free claim. */
  datatype Growth = Growth(created: nat, born: set<Key>, g: map<Key, string>, full: bool)

  function Grow(u: Growth, b: Birth): Growth {
    Growth(u.created + (if b.ok then 1 else 0), u.born + (if b.ok then {b.k} else {}), u.g + b.g, b.full)
  }

  /** A pod as scale-up creates it: one claim per template, each assigned to it. */
  ghost predicate NewAgent(p: Pvcs, pool: Key, spec: PoolSpec, k: Key, pod: Pod, g: map<Key, string>) {
    && k.ns == pool.ns && AgentNamed(pool, k) && pod.pool == AgentLabel(pool, spec)
    && (forall v :: v in pod.claims <==> v in spec.caches)
    && (forall v :: v in pod.claims ==>
         var c := ClaimKey(k, pod, v); c in g && g[c] == k.name && c in p && p[c].cache == v)
  }

  /** The claims of `g` were free claims of the pool's templates. */
  ghost predicate GrantsFree(p: Pvcs, pool: Key, caches: seq<string>, g: map<Key, string>) {
    forall c :: c in g ==> c in p && p[c].state == Free && InPool(c, p[c].pool, pool) && p[c].cache in caches
  }

  /** A claim of `g` whose pod exists is mounted by it, and the pod is one of `born`. */
  ghost predicate BornMount(pods: Pods, p: Pvcs, g: map<Key, string>, born: set<Key>) {
    forall c :: c in g && Key(c.ns, g[c]) in pods ==>
      var k := Key(c.ns, g[c]);
      k in born && c in p && p[c].cache in pods[k].claims && pods[k].claims[p[c].cache] == c.name
  }

  /** Every claim of `g` is assigned to a pod of `born`. */
  ghost predicate AllBorn(g: map<Key, string>, born: set<Key>) {
    forall c :: c in g ==> Key(c.ns, g[c]) in born
  }

  /** The claims of `g` assigned to pods that were not created: what failed rollbacks left. */
  function Abandoned(g: map<Key, string>, born: set<Key>): set<Key> {
    set c | c in g && Key(c.ns, g[c]) !in born
  }

  ghost predicate Grown(s: Sys, t: Sys, pool: Key, spec: PoolSpec, u: Growth) {
    && GrownStore(s, t, pool, spec, u)
    && GrownCounts(s, t, pool, spec, u)
    && GrownNames(s, t, u)
    && GrownCalls(s, t, u)
    && (Distinct(spec.caches) && t.led.releaseFaults == s.led.releaseFaults ==> AllBorn(u.g, u.born))
    && (Distinct(spec.caches) && t.led.reused == s.led.reused ==> Counts(Abandoned(u.g, u.born), FailedReleases(s, t)))
    && (Distinct(spec.caches) && NoNameTwice(s, t, u) ==> BornMount(t.w.pods, s.w.pvcs, u.g, u.born))
  }

  /** The names were new, or at least all different while every claim kept belongs to a created pod. */
  ghost predicate NoNameTwice(s: Sys, t: Sys, u: Growth) {
    t.led.reused == s.led.reused || (t.led.releaseFaults == s.led.releaseFaults && |u.born| == u.created)
  }

  ghost predicate IsGrown(s: Sys, t: Sys, pool: Key, spec: PoolSpec, u: Growth) {
    forall v {:trigger Detail(v)} :: v == u ==> Grown(s, t, pool, spec, v)
  }

  /** Each attempt that created no pod ended at its first failed call, but for those of its rollback, or for
      want of a free claim. */
  ghost predicate GrownCalls(s: Sys, t: Sys, u: Growth) {
    NamesTried(s, t) - u.created == OtherFaults(s, t) + (if u.full then 1 else 0)
  }

  ghost predicate GrownStore(s: Sys, t: Sys, pool: Key, spec: PoolSpec, u: Growth) {
    && Grows(s, t)
    && t.w == s.w.(pods := t.w.pods, pvcs := Grant(s.w.pvcs, u.g), now := t.w.now)
    && t.led == s.led.(faults := t.led.faults, releaseFaults := t.led.releaseFaults, named := t.led.named,
                       reused := t.led.reused, writes := t.led.writes)
    && GrantsFree(s.w.pvcs, pool, spec.caches, u.g)
    && |u.born| <= u.created
    && u.born <= t.w.pods.Keys && t.w.pods - u.born == s.w.pods - u.born
    && (forall k :: k in u.born ==> k in t.w.pods && NewAgent(s.w.pvcs, pool, spec, k, t.w.pods[k], u.g))
  }

  /** How many claims are left, and when none is. */
  ghost predicate GrownCounts(s: Sys, t: Sys, pool: Key, spec: PoolSpec, u: Growth) {
    Distinct(spec.caches) ==>
      && (t.led.releaseFaults == s.led.releaseFaults ==> forall v :: v in spec.caches ==>
            |FreeSlots(t.w.pvcs, pool, v)| == |FreeSlots(s.w.pvcs, pool, v)| - u.created)
      && (u.full ==> Exhausted(t.w.pvcs, pool, spec.caches))
  }

  /** What is known of the new pods when nothing moved, and when their names were new. */
  ghost predicate GrownNames(s: Sys, t: Sys, u: Growth) {
    && (forall k :: k in u.born ==> !Live(s.w.(now := t.w.now), k))
    && (Frozen(s, t) ==> |u.born| == u.created && forall k :: k in u.born ==> ActiveNow(t.w, k))
    && (t.led.reused == s.led.reused ==> forall k :: k in u.born ==> Unborn(s.w, k))
  }

  lemma GrownNothing(s: Sys, pool: Key, spec: PoolSpec)
    ensures IsGrown(s, s, pool, spec, Growth(0, {}, map[], false))
  {
    assert Grant(s.w.pvcs, map[]) == s.w.pvcs;
    assert s.w.pods - {} == s.w.pods;
    assert Abandoned(map[], {}) == {};
    CountsNone<Key>();
    assert Grown(s, s, pool, spec, Growth(0, {}, map[], false));
  }

  lemma GrownStep(r: Sys, s: Sys, t: Sys, pool: Key, spec: PoolSpec, u: Growth, b: Birth)
    requires LabelsOk(r.w.pvcs) && IsGrown(r, s, pool, spec, u) && IsCreated(s, t, pool, spec, b) && !u.full
    ensures IsGrown(r, t, pool, spec, Grow(u, b))
  {
    GrownCallsStep(r, s, t, pool, spec, u, b);
    GrownStoreStep(r, s, t, pool, spec, u, b);
    GrownCountsStep(r, s, t, pool, spec, u, b);
    GrownNamesStep(r, s, t, pool, spec, u, b);
    AllBornStep(r, s, t, pool, spec, u, b);
    AbandonedStep(r, s, t, pool, spec, u, b);
    BornMountStep(r, s, t, pool, spec, u, b);
    assert Grown(r, t, pool, spec, Grow(u, b));
  }

  lemma GrownCallsStep(r: Sys, s: Sys, t: Sys, pool: Key, spec: PoolSpec, u: Growth, b: Birth)
    requires IsGrown(r, s, pool, spec, u) && IsCreated(s, t, pool, spec, b) && !u.full
    ensures GrownCalls(r, t, Grow(u, b))
  {
    assert Detail(u) && Detail(b);
  }

  lemma GrantsAreApart(p: Pvcs, g: map<Key, string>, h: map<Key, string>)
    requires AllFree(Grant(p, g), h.Keys)
    ensures g.Keys !! h.Keys && AllFree(p, h.Keys)
  {
  }

  lemma GrownStoreStep(r: Sys, s: Sys, t: Sys, pool: Key, spec: PoolSpec, u: Growth, b: Birth)
    requires IsGrown(r, s, pool, spec, u) && IsCreated(s, t, pool, spec, b)
    ensures GrownStore(r, t, pool, spec, Grow(u, b))
  {
    assert Detail(u) && Detail(b);
    GrantMore(r.w.pvcs, u.g, b.g);
    GrantsAreApart(r.w.pvcs, u.g, b.g);
    GrownPodsStep(r.w.pods, s.w.pods, t.w.pods, u.born, b);
    forall k | k in Grow(u, b).born
      ensures k in t.w.pods && NewAgent(r.w.pvcs, pool, spec, k, t.w.pods[k], Grow(u, b).g)
    {
      NewAgentStep(r.w.pvcs, s, t, pool, spec, u, b, k);
    }
    assert GrantsFree(r.w.pvcs, pool, spec.caches, Grow(u, b).g);
  }

  lemma GrownPodsStep(p: Pods, q: Pods, o: Pods, born: set<Key>, b: Birth)
    requires q - born == p - born && born <= q.Keys
    requires if b.ok then b.k in o && o == q[b.k := o[b.k]] else o == q
    ensures var all := born + (if b.ok then {b.k} else {}); o - all == p - all && all <= o.Keys
  {
    var all := born + (if b.ok then {b.k} else {});
    assert p - all == p - born - all;
    assert q - all == q - born - all;
    assert o - all == q - all;
  }

  lemma NewAgentStep(p: Pvcs, s: Sys, t: Sys, pool: Key, spec: PoolSpec, u: Growth, b: Birth, k: Key)
    requires s.w.pvcs == Grant(p, u.g) && Created(s, t, pool, spec, b) && u.g.Keys !! b.g.Keys
    requires forall q :: q in u.born ==> q in s.w.pods && NewAgent(p, pool, spec, q, s.w.pods[q], u.g)
    requires k in Grow(u, b).born
    ensures k in t.w.pods && NewAgent(p, pool, spec, k, t.w.pods[k], Grow(u, b).g)
  {
    if b.ok && k == b.k {
      assert OnePerCache(s.w.pvcs, pool.ns, spec.caches, t.w.pods[k].claims, b.g);
    } else {
      assert NewAgent(p, pool, spec, k, s.w.pods[k], u.g);
    }
  }

  lemma GrownCountsStep(r: Sys, s: Sys, t: Sys, pool: Key, spec: PoolSpec, u: Growth, b: Birth)
    requires IsGrown(r, s, pool, spec, u) && IsCreated(s, t, pool, spec, b)
    ensures GrownCounts(r, t, pool, spec, Grow(u, b))
  {
    if Distinct(spec.caches) {
      forall v | v in spec.caches && t.led.releaseFaults == r.led.releaseFaults
        ensures |FreeSlots(t.w.pvcs, pool, v)| == |FreeSlots(r.w.pvcs, pool, v)| - Grow(u, b).created
      {
        FreeAfterGrowth(r, s, pool, spec, u, v);
        FreeAfterBirth(s, t, pool, spec, b, v);
        FaultsBetween(r, s, t, pool, spec, u, b);
      }
      StaysExhausted(s, t, pool, spec, b);
    }
  }

  lemma FaultsBetween(r: Sys, s: Sys, t: Sys, pool: Key, spec: PoolSpec, u: Growth, b: Birth)
    requires IsGrown(r, s, pool, spec, u) && IsCreated(s, t, pool, spec, b)
    ensures Grows(r, s) && Grows(s, t)
  {
    assert Detail(u) && Detail(b);
  }

  lemma FreeAfterGrowth(s: Sys, t: Sys, pool: Key, spec: PoolSpec, u: Growth, v: string)
    requires IsGrown(s, t, pool, spec, u) && Distinct(spec.caches) && v in spec.caches
    ensures t.led.releaseFaults == s.led.releaseFaults ==>
      |FreeSlots(t.w.pvcs, pool, v)| == |FreeSlots(s.w.pvcs, pool, v)| - u.created
  {
    assert Detail(u);
  }

  lemma FreeAfterBirth(s: Sys, t: Sys, pool: Key, spec: PoolSpec, b: Birth, v: string)
    requires IsCreated(s, t, pool, spec, b) && Distinct(spec.caches) && v in spec.caches
    ensures t.led.releaseFaults == s.led.releaseFaults ==>
      |FreeSlots(t.w.pvcs, pool, v)| == |FreeSlots(s.w.pvcs, pool, v)| - (if b.ok then 1 else 0)
  {
    assert Detail(b);
    FreeAfterGrant(s.w.pvcs, b.g, pool, v);
    if b.ok {
      OneLess(s.w.pvcs, pool, spec.caches, t.w.pods[b.k].claims, b.g, b.k.name, v);
    } else if t.led.releaseFaults == s.led.releaseFaults {
      assert FreeSlots(s.w.pvcs, pool, v) - {} == FreeSlots(s.w.pvcs, pool, v);
    }
  }

  lemma StaysExhausted(s: Sys, t: Sys, pool: Key, spec: PoolSpec, b: Birth)
    requires IsCreated(s, t, pool, spec, b) && Distinct(spec.caches)
    ensures b.full ==> Exhausted(t.w.pvcs, pool, spec.caches)
  {
    assert Detail(b);
    if b.full {
      var v :| v in spec.caches && FreeSlots(s.w.pvcs, pool, v) == {};
      FreeAfterGrant(s.w.pvcs, b.g, pool, v);
    }
  }

  /** An assignment of distinct templates takes exactly one free claim of each. */
  lemma OneLess(p: Pvcs, pool: Key, caches: seq<string>, picked: map<string, string>, g: map<Key, string>, pod: string,
                v: string)
    requires Distinct(caches) && v in caches
    requires Taken(p, pool, caches, pod, g) && OnePerCache(p, pool.ns, caches, picked, g)
    ensures |FreeSlots(p, pool, v) - g.Keys| == |FreeSlots(p, pool, v)| - 1
  {
    var c := Key(pool.ns, picked[v]);
    assert c in FreeSlots(p, pool, v);
    assert FreeSlots(p, pool, v) - g.Keys == FreeSlots(p, pool, v) - {c};
  }

  lemma GrownNamesStep(r: Sys, s: Sys, t: Sys, pool: Key, spec: PoolSpec, u: Growth, b: Birth)
    requires LabelsOk(r.w.pvcs) && IsGrown(r, s, pool, spec, u) && IsCreated(s, t, pool, spec, b)
    ensures GrownNames(r, t, Grow(u, b))
  {
    assert Detail(u) && Detail(b);
    if b.ok {
      BornOntoNothing(r.w, s.w, t.w.now, u.born, b.k);
      PendingIsActive(t.w, b.k);
      if t.led.reused == s.led.reused {
        UnbornBefore(r.w, s.w, u.g, u.born, b.k);
      }
    }
    BirthAdds(r, s, t, u, b);
  }

  lemma PendingIsActive(w: World, k: Key)
    requires k in w.pods && PhaseAt(w.pods[k].fate, w.now) == Some(Pending)
    ensures ActiveNow(w, k)
  {
  }

  lemma BirthAdds(r: Sys, s: Sys, t: Sys, u: Growth, b: Birth)
    requires Grows(r, s) && Grows(s, t) && GrownNames(r, s, u)
    requires u.born <= s.w.pods.Keys
    requires t.w.pods == if b.ok && b.k in t.w.pods then s.w.pods[b.k := t.w.pods[b.k]] else s.w.pods
    requires b.ok ==> !Live(s.w.(now := t.w.now), b.k) && !Live(r.w.(now := t.w.now), b.k) && ActiveNow(t.w, b.k)
    requires b.ok && t.led.reused == s.led.reused ==> Unborn(r.w, b.k)
    ensures GrownNames(r, t, Grow(u, b))
  {
    forall k | k in Grow(u, b).born
      ensures !Live(r.w.(now := t.w.now), k)
    {
      if k in u.born {
        GoneStaysGone(r.w, s.w.now, t.w.now, k);
      }
    }
    if Frozen(r, t) {
      BirthCounts(s, t, u, b);
    }
  }

  lemma GoneStaysGone(w: World, now: nat, later: nat, k: Key)
    requires !Live(w.(now := now), k) && now <= later
    ensures !Live(w.(now := later), k)
  {
  }

  lemma BirthCounts(s: Sys, t: Sys, u: Growth, b: Birth)
    requires Frozen(s, t) && |u.born| == u.created && forall k :: k in u.born ==> ActiveNow(s.w, k)
    requires t.w.pods == if b.ok && b.k in t.w.pods then s.w.pods[b.k := t.w.pods[b.k]] else s.w.pods
    requires b.ok ==> !Live(s.w, b.k) && ActiveNow(t.w, b.k)
    ensures |Grow(u, b).born| == Grow(u, b).created && forall k :: k in Grow(u, b).born ==> ActiveNow(t.w, k)
  {
  }

  /** A new pod never takes the place of one that still exists. */
  lemma BornOntoNothing(r: World, s: World, now: nat, born: set<Key>, k: Key)
    requires r.now <= s.now <= now && s.pods - born == r.pods - born
    requires forall j :: j in born ==> !Live(r.(now := s.now), j)
    requires !Live(s.(now := now), k)
    ensures !Live(r.(now := now), k)
  {
    if k !in born && k in r.pods {
      assert k in r.pods - born;
    }
  }

  lemma UnbornBefore(r: World, s: World, g: map<Key, string>, born: set<Key>, k: Key)
    requires LabelsOk(r.pvcs) && s.pvcs == Grant(r.pvcs, g) && AllFree(r.pvcs, g.Keys)
    requires s.pods - born == r.pods - born && born <= s.pods.Keys
    requires Unborn(s, k)
    ensures Unborn(r, k)
  {
    assert k !in r.pods - born;
    forall c | c in r.pvcs && c.ns == k.ns
      ensures r.pvcs[c].assignedPod != Some(k.name)
    {
      assert c in s.pvcs;
    }
  }

  lemma AllBornStep(r: Sys, s: Sys, t: Sys, pool: Key, spec: PoolSpec, u: Growth, b: Birth)
    requires IsGrown(r, s, pool, spec, u) && IsCreated(s, t, pool, spec, b)
    ensures Distinct(spec.caches) && t.led.releaseFaults == r.led.releaseFaults ==>
      AllBorn(Grow(u, b).g, Grow(u, b).born)
  {
    assert Detail(u) && Detail(b);
  }

  /** A failed creation abandons one claim for each failed release, a successful one none. */
  lemma AbandonedStep(r: Sys, s: Sys, t: Sys, pool: Key, spec: PoolSpec, u: Growth, b: Birth)
    requires IsGrown(r, s, pool, spec, u) && IsCreated(s, t, pool, spec, b)
    ensures Distinct(spec.caches) && t.led.reused == r.led.reused ==>
      Counts(Abandoned(Grow(u, b).g, Grow(u, b).born), FailedReleases(r, t))
  {
    assert Detail(u) && Detail(b);
    if Distinct(spec.caches) && t.led.reused == r.led.reused {
      GrantsAreApart(r.w.pvcs, u.g, b.g);
      LabelsAreApart(s.w, u, b);
      AbandonedMore(u, b, FailedReleases(r, s), FailedReleases(s, t));
    }
  }

  lemma LabelsAreApart(w: World, u: Growth, b: Birth)
    requires Unborn(w, b.k) && u.born <= w.pods.Keys
    requires forall c :: c in u.g ==> c in w.pvcs && w.pvcs[c].assignedPod == Some(u.g[c])
    ensures b.k !in u.born && forall c :: c in u.g ==> Key(c.ns, u.g[c]) != b.k
  {
  }

  lemma AbandonedMore(u: Growth, b: Birth, i: int, j: int)
    requires u.g.Keys !! b.g.Keys && b.k !in u.born && Counts(Abandoned(u.g, u.born), i)
    requires forall c :: c in u.g ==> Key(c.ns, u.g[c]) != b.k
    requires forall c :: c in b.g ==> Key(c.ns, b.g[c]) == b.k
    requires if b.ok then j == 0 else Counts(b.g.Keys, j)
    ensures Counts(Abandoned(Grow(u, b).g, Grow(u, b).born), i + j)
  {
    var before, after := Abandoned(u.g, u.born), Abandoned(Grow(u, b).g, Grow(u, b).born);
    if b.ok {
      assert after == before;
    } else {
      assert after == before + b.g.Keys;
      CountsMore(before, i, b.g.Keys, j);
    }
  }

  lemma BornMountStep(r: Sys, s: Sys, t: Sys, pool: Key, spec: PoolSpec, u: Growth, b: Birth)
    requires IsGrown(r, s, pool, spec, u) && IsCreated(s, t, pool, spec, b)
    ensures Distinct(spec.caches) && NoNameTwice(r, t, Grow(u, b)) ==>
      BornMount(t.w.pods, r.w.pvcs, Grow(u, b).g, Grow(u, b).born)
  {
    assert Detail(u) && Detail(b);
    if Distinct(spec.caches) && NoNameTwice(r, t, Grow(u, b)) {
      GrantsAreApart(r.w.pvcs, u.g, b.g);
      NameNotTwice(r, s, t, u, b);
      MountsMore(r.w.pvcs, s, t, pool, spec, u, b);
    }
  }

  /** The new pod's name is none of those for which claims were assigned before. */
  lemma NameNotTwice(r: Sys, s: Sys, t: Sys, u: Growth, b: Birth)
    requires Grows(r, s) && Grows(s, t) && |u.born| <= u.created
    requires t.led.reused == s.led.reused ==> Unborn(s.w, b.k)
    requires forall c :: c in u.g ==> c in s.w.pvcs && s.w.pvcs[c].assignedPod == Some(u.g[c])
    requires t.led.releaseFaults == r.led.releaseFaults ==> AllBorn(u.g, u.born)
    requires NoNameTwice(r, t, Grow(u, b))
    ensures NoNameTwice(r, s, u)
    ensures b.ok ==> forall c :: c in u.g ==> Key(c.ns, u.g[c]) != b.k
  {
    if b.ok && b.k in u.born {
      assert u.born + {b.k} == u.born;
    }
  }

  lemma MountsMore(p: Pvcs, s: Sys, t: Sys, pool: Key, spec: PoolSpec, u: Growth, b: Birth)
    requires s.w.pvcs == Grant(p, u.g) && Created(s, t, pool, spec, b) && Distinct(spec.caches) && u.g.Keys !! b.g.Keys
    requires BornMount(s.w.pods, p, u.g, u.born)
    requires b.ok ==> forall c :: c in u.g ==> Key(c.ns, u.g[c]) != b.k
    requires !b.ok ==> b.g == map[] || b.k !in s.w.pods
    ensures BornMount(t.w.pods, p, Grow(u, b).g, Grow(u, b).born)
  {
  }

  /** Scale-up adds no more active pods than it created. */
  lemma GrownActive(s: Sys, t: Sys, pool: Key, spec: PoolSpec, u: Growth, p: Key)
    requires IsGrown(s, t, pool, spec, u)
    ensures |Active(t.w, p)| <= |Active(s.w, p)| + u.created
  {
    GrownPods(s, t, pool, spec, u);
    OnlyBornMore(s.w, t.w, u.born, p);
  }

  lemma GrownPods(s: Sys, t: Sys, pool: Key, spec: PoolSpec, u: Growth)
    requires IsGrown(s, t, pool, spec, u)
    ensures t.w.pods - u.born == s.w.pods - u.born && s.w.now <= t.w.now && |u.born| <= u.created
  {
    assert Detail(u);
  }

  lemma OnlyBornMore(w: World, v: World, born: set<Key>, p: Key)
    requires v.pods - born == w.pods - born && w.now <= v.now
    ensures |Active(v, p)| <= |Active(w, p)| + |born|
  {
    forall k | k in Active(v, p)
      ensures k in Active(w, p) + born
    {
      if k !in born {
        assert k in v.pods - born;
      }
    }
    SubsetCard(Active(v, p), Active(w, p) + born);
  }

  // ----- scale-down -----

  /** Scale-down by `count` over the listed active pods: the pods `gone` were deleted. */
  ghost predicate Shrunk(s: Sys, t: Sys, pool: Key, items: seq<PodItem>, count: int, busy: set<string>,
                         gone: set<Key>) {
    && Grows(s, t)
    && t.w == s.w.(pods := s.w.pods - gone, now := t.w.now)
    && t.led == s.led.(faults := t.led.faults, writes := t.led.writes, kills := t.led.kills)
    && KillsOf(s, t, gone) && gone <= KeysOf(pool.ns, ItemNames(IdleItems(items, busy)))
    && |gone| <= (if count > 0 then count else 0)
    && (gone == {} ==> t.led.writes == s.led.writes)
  }

  function AtMost(n: int, count: int): int {
    if count <= 0 then 0 else if n < count then n else count
  }

  ghost predicate AllLive(w: World, pool: Key, items: seq<PodItem>) {
    forall i :: 0 <= i < |items| ==> Live(w, ItemKey(pool, items[i]))
  }

  lemma AllLiveSplit(w: World, pool: Key, items: seq<PodItem>, i: nat)
    requires i < |items| && AllLive(w, pool, items[..i + 1])
    ensures AllLive(w, pool, items[..i]) && Live(w, ItemKey(pool, items[i]))
  {
  }

  /** With nothing moving, the idle pods are tried in turn until as many as were asked for are gone: those
      whose delete failed stay, the others go. */
  ghost predicate ShrunkExactly(s: Sys, t: Sys, pool: Key, items: seq<PodItem>, count: int, busy: set<string>,
                                gone: set<Key>) {
    Frozen(s, t) && AllLive(s.w, pool, items) ==>
      && 0 <= FailedCalls(s, t) <= |IdleItems(items, busy)|
      && |gone| == AtMost(|IdleItems(items, busy)| - FailedCalls(s, t), count)
  }

  /** Each of the pods `idle` was tried once: of those still there each accounts for a failed delete. */
  ghost predicate TriedOnce(s: Sys, t: Sys, pool: Key, idle: seq<PodItem>, gone: set<Key>) {
    && gone <= KeysOf(pool.ns, ItemNames(idle))
    && Within(StillThere(t.w, pool, ItemNames(idle)), FailedCalls(s, t))
    && FailedCalls(s, t) + |gone| <= |idle|
  }

  lemma TriedOneMore(r: Sys, s: Sys, t: Sys, pool: Key, idle: seq<PodItem>, x: PodItem, gone: set<Key>, g: set<Key>)
    requires TriedOnce(r, s, pool, idle, gone) && DeletedOne(s, t, ItemKey(pool, x), g) && ItemKey(pool, x) !in gone
    ensures TriedOnce(r, t, pool, idle + [x], gone + g)
  {
    NamesOfMore(idle, x);
    OneMoreGone(gone, g, ItemKey(pool, x));
    StillThereOne(t.w, pool, x.name);
    AtMostFailed(StillThere(t.w, pool, {x.name}), if Live(t.w, ItemKey(pool, x)) then 1 else 0, FailedCalls(s, t));
    StillThereMore(s.w, t.w, pool, ItemNames(idle), x.name, FailedCalls(r, s), FailedCalls(s, t));
  }

  lemma AtMostFailed(a: set<string>, n: int, m: int)
    requires Within(a, n) && n <= m
    ensures Within(a, m)
  {
    Counted(a, n);
    Counted(a, m);
  }

  /** Whatever moves: the idle pods among the first `n` items were tried, and unless enough are gone these are
      all there are. */
  ghost predicate Tries(s: Sys, t: Sys, pool: Key, items: seq<PodItem>, n: nat, count: int, busy: set<string>,
                        gone: set<Key>)
    requires n <= |items|
  {
    TriedOnce(s, t, pool, IdleItems(items[..n], busy), gone) && (|gone| < count ==> n == |items|)
  }

  ghost predicate ShrunkInOrder(s: Sys, t: Sys, pool: Key, items: seq<PodItem>, count: int, busy: set<string>,
                                gone: set<Key>) {
    exists n: nat :: n <= |items| && Tries(s, t, pool, items, n, count, busy, gone)
  }

  ghost predicate IsShrunk(s: Sys, t: Sys, pool: Key, items: seq<PodItem>, count: int, busy: set<string>,
                           gone: set<Key>) {
    forall g {:trigger Detail(g)} :: g == gone ==>
      && Shrunk(s, t, pool, items, count, busy, g)
      && ShrunkExactly(s, t, pool, items, count, busy, g)
      && ShrunkInOrder(s, t, pool, items, count, busy, g)
  }

  lemma NothingTriedYet(s: Sys, pool: Key, items: seq<PodItem>, count: int, busy: set<string>)
    requires count <= 0 || items == []
    ensures ShrunkInOrder(s, s, pool, items, count, busy, {})
  {
    assert items[..0] == [] && IdleItems([], busy) == [];
    assert StillThere(s.w, pool, ItemNames([])) == {};
    CountsNone<string>();
    assert Tries(s, s, pool, items, 0, count, busy, {});
  }

  lemma ShrunkNothing(s: Sys, pool: Key, count: int, busy: set<string>)
    ensures IsShrunk(s, s, pool, [], count, busy, {})
  {
    assert s.w.pods - {} == s.w.pods;
    NothingTriedYet(s, pool, [], count, busy);
    assert Shrunk(s, s, pool, [], count, busy, {}) && ShrunkExactly(s, s, pool, [], count, busy, {});
  }

  lemma ShrunkNotAtAll(s: Sys, pool: Key, items: seq<PodItem>, count: int, busy: set<string>)
    requires count <= 0
    ensures IsShrunk(s, s, pool, items, count, busy, {})
  {
    assert s.w.pods - {} == s.w.pods;
    NothingTriedYet(s, pool, items, count, busy);
    assert Shrunk(s, s, pool, items, count, busy, {}) && ShrunkExactly(s, s, pool, items, count, busy, {});
  }

  lemma IdleStep(items: seq<PodItem>, i: nat, busy: set<string>)
    requires i < |items|
    ensures IdleItems(items[..i + 1], busy) ==
      IdleItems(items[..i], busy) + (if items[i].name in busy then [] else [items[i]])
    ensures ItemNames(IdleItems(items[..i + 1], busy)) ==
      ItemNames(IdleItems(items[..i], busy)) + (if items[i].name in busy then {} else {items[i].name})
  {
    assert items[..i + 1][..i] == items[..i];
    NamesOfMore(IdleItems(items[..i], busy), items[i]);
    assert IdleItems(items[..i], busy) + [] == IdleItems(items[..i], busy);
  }

  lemma ShrunkStep(r: Sys, s: Sys, t: Sys, pool: Key, items: seq<PodItem>, i: nat, count: int, busy: set<string>,
                   gone: set<Key>, g: set<Key>)
    requires i < |items| && items[i].name !in busy && |gone| < count
    requires IsShrunk(r, s, pool, items[..i], count, busy, gone) && DeletedOne(s, t, ItemKey(pool, items[i]), g)
    requires ItemKey(pool, items[i]) !in gone
    ensures IsShrunk(r, t, pool, items[..i + 1], count, busy, gone + g) && |gone + g| == |gone| + |g|
  {
    ShrunkMore(r, s, t, pool, items, i, count, busy, gone, g);
    ShrunkExactlyMore(r, s, t, pool, items, i, count, busy, gone, g);
    ShrunkInOrderMore(r, s, t, pool, items, i, count, busy, gone, g);
    OneMoreGone(gone, g, ItemKey(pool, items[i]));
  }

  lemma ShrunkInOrderMore(r: Sys, s: Sys, t: Sys, pool: Key, items: seq<PodItem>, i: nat, count: int,
                          busy: set<string>, gone: set<Key>, g: set<Key>)
    requires i < |items| && items[i].name !in busy && |gone| < count
    requires IsShrunk(r, s, pool, items[..i], count, busy, gone) && DeletedOne(s, t, ItemKey(pool, items[i]), g)
    requires ItemKey(pool, items[i]) !in gone
    ensures ShrunkInOrder(r, t, pool, items[..i + 1], count, busy, gone + g)
  {
    AllTriedSoFar(r, s, pool, items, i, count, busy, gone);
    TriedOneMore(r, s, t, pool, IdleItems(items[..i], busy), items[i], gone, g);
    IdleStep(items, i, busy);
    TriedWhole(r, t, pool, items[..i + 1], count, busy, gone + g);
  }

  lemma TriedWhole(r: Sys, s: Sys, pool: Key, items: seq<PodItem>, count: int, busy: set<string>, gone: set<Key>)
    requires TriedOnce(r, s, pool, IdleItems(items, busy), gone)
    ensures ShrunkInOrder(r, s, pool, items, count, busy, gone)
  {
    assert items[..|items|] == items;
    assert Tries(r, s, pool, items, |items|, count, busy, gone);
  }

  /** While too few are gone every idle pod of the prefix has been tried. */
  lemma AllTriedSoFar(r: Sys, s: Sys, pool: Key, items: seq<PodItem>, i: nat, count: int, busy: set<string>,
                      gone: set<Key>)
    requires i <= |items| && |gone| < count && IsShrunk(r, s, pool, items[..i], count, busy, gone)
    ensures TriedOnce(r, s, pool, IdleItems(items[..i], busy), gone)
  {
    assert Detail(gone);
    var n: nat :| n <= i && Tries(r, s, pool, items[..i], n, count, busy, gone);
    assert items[..i][..i] == items[..i];
  }

  lemma ShrunkMore(r: Sys, s: Sys, t: Sys, pool: Key, items: seq<PodItem>, i: nat, count: int, busy: set<string>,
                   gone: set<Key>, g: set<Key>)
    requires i < |items| && items[i].name !in busy && |gone| < count
    requires IsShrunk(r, s, pool, items[..i], count, busy, gone) && DeletedOne(s, t, ItemKey(pool, items[i]), g)
    requires ItemKey(pool, items[i]) !in gone
    ensures Shrunk(r, t, pool, items[..i + 1], count, busy, gone + g)
  {
    assert Detail(gone);
    IdleStep(items, i, busy);
    PodsWithout(r.w.pods, gone, g);
    OneMoreGone(gone, g, ItemKey(pool, items[i]));
    KillsMore(r, s, t, gone, g);
    OneMoreKey(pool, items, i, busy, gone, g);
  }

  lemma OneMoreKey(pool: Key, items: seq<PodItem>, i: nat, busy: set<string>, gone: set<Key>, g: set<Key>)
    requires i < |items| && items[i].name !in busy && g <= {ItemKey(pool, items[i])}
    requires gone <= KeysOf(pool.ns, ItemNames(IdleItems(items[..i], busy)))
    ensures gone + g <= KeysOf(pool.ns, ItemNames(IdleItems(items[..i + 1], busy)))
  {
    IdleStep(items, i, busy);
  }

  lemma OneMoreGone(gone: set<Key>, g: set<Key>, k: Key)
    requires g <= {k} && k !in gone
    ensures |gone + g| == |gone| + |g| && |g| <= 1 && (g == {} ==> gone + g == gone)
  {
    if k in g {
      assert g == {k};
    }
  }

  lemma ShrunkExactlyMore(r: Sys, s: Sys, t: Sys, pool: Key, items: seq<PodItem>, i: nat, count: int,
                          busy: set<string>, gone: set<Key>, g: set<Key>)
    requires i < |items| && items[i].name !in busy && |gone| < count
    requires IsShrunk(r, s, pool, items[..i], count, busy, gone) && DeletedOne(s, t, ItemKey(pool, items[i]), g)
    requires ItemKey(pool, items[i]) !in gone
    ensures ShrunkExactly(r, t, pool, items[..i + 1], count, busy, gone + g)
  {
    assert Detail(gone);
    IdleStep(items, i, busy);
    OneMoreGone(gone, g, ItemKey(pool, items[i]));
    if AllLive(r.w, pool, items[..i + 1]) {
      AllLiveSplit(r.w, pool, items, i);
    }
  }

  /** A busy pod is passed over. */
  lemma ShrunkSkip(r: Sys, s: Sys, pool: Key, items: seq<PodItem>, i: nat, count: int, busy: set<string>,
                   gone: set<Key>)
    requires i < |items| && items[i].name in busy && |gone| < count
    requires IsShrunk(r, s, pool, items[..i], count, busy, gone)
    ensures IsShrunk(r, s, pool, items[..i + 1], count, busy, gone)
  {
    assert Detail(gone);
    IdleStep(items, i, busy);
    AllTriedSoFar(r, s, pool, items, i, count, busy, gone);
    assert IdleItems(items[..i], busy) + [] == IdleItems(items[..i], busy);
    TriedWhole(r, s, pool, items[..i + 1], count, busy, gone);
    if AllLive(r.w, pool, items[..i + 1]) {
      AllLiveSplit(r.w, pool, items, i);
    }
    assert Shrunk(r, s, pool, items[..i + 1], count, busy, gone);
  }

  /** What was decided before the end of the listing stands for all of it. */
  lemma ShrunkWhole(r: Sys, s: Sys, pool: Key, items: seq<PodItem>, i: nat, count: int, busy: set<string>,
                    gone: set<Key>)
    requires i <= |items| && (i == |items| || |gone| >= count)
    requires IsShrunk(r, s, pool, items[..i], count, busy, gone)
    ensures IsShrunk(r, s, pool, items, count, busy, gone)
  {
    assert Detail(gone);
    IdlePrefix(items, i, busy);
    TriedOfAll(r, s, pool, items, i, count, busy, gone);
    assert AllLive(r.w, pool, items) ==> AllLive(r.w, pool, items[..i]);
    assert items[..|items|] == items;
    assert Shrunk(r, s, pool, items, count, busy, gone);
  }

  lemma TriedOfAll(r: Sys, s: Sys, pool: Key, items: seq<PodItem>, i: nat, count: int, busy: set<string>,
                   gone: set<Key>)
    requires i <= |items| && (i == |items| || |gone| >= count)
    requires ShrunkInOrder(r, s, pool, items[..i], count, busy, gone)
    ensures ShrunkInOrder(r, s, pool, items, count, busy, gone)
  {
    var n: nat :| n <= i && Tries(r, s, pool, items[..i], n, count, busy, gone);
    assert items[..i][..n] == items[..n];
    assert Tries(r, s, pool, items, n, count, busy, gone);
  }

  lemma NamesOfMore(a: seq<PodItem>, x: PodItem)
    ensures ItemNames(a + [x]) == ItemNames(a) + {x.name}
  {
    var b := a + [x];
    assert b[|a|] == x;
    forall n | n in ItemNames(a)
      ensures n in ItemNames(b)
    {
      var i :| 0 <= i < |a| && a[i].name == n;
      assert b[i] == a[i];
    }
  }

  lemma {:induction false} IdlePrefix(items: seq<PodItem>, i: nat, busy: set<string>)
    requires i <= |items|
    ensures |IdleItems(items[..i], busy)| <= |IdleItems(items, busy)|
    ensures ItemNames(IdleItems(items[..i], busy)) <= ItemNames(IdleItems(items, busy))
    decreases |items| - i
  {
    if i == |items| {
      assert items[..i] == items;
    } else {
      IdlePrefix(items, i + 1, busy);
      IdleStep(items, i, busy);
    }
  }

  // ----- the placeholder agent -----

  datatype DummyAction =
    | NoAction
    | Recovered(id: int)
    | Registered(id: int)
    | RegisterFailed
    | Unregistered
    | UnregisterFailed

  /** The placeholder id held in memory after the action. */
  function DummyAfter(a: DummyAction, id: int): int {
    match a
    case Recovered(i) => ToInt32(i)
    case Registered(i) => ToInt32(i)
    case Unregistered => 0
    case _ => id
  }

  function RegistryAfter(a: DummyAction, ado: Registry, poolID: int, name: string, id: int): Registry {
    if poolID !in ado then ado
    else
      match a
      case Registered(i) => ado[poolID := ado[poolID][i := name]]
      case Unregistered => ado[poolID := ado[poolID] - {id}]
      case _ => ado
  }

  /** No agent of the pool has the name. */
  ghost predicate NoAgent(ado: Registry, poolID: int, name: string) {
    poolID in ado ==> forall i :: i in ado[poolID] ==> ado[poolID][i] != name
  }

  /** The action fits the desired count, the id in memory, the registry and the calls that failed. */
  ghost predicate ActionFits(a: DummyAction, s: Sys, t: Sys, poolID: int, name: string, desired: int, id: int) {
    var failed := t.led.faults - s.led.faults;
    match a
    case NoAction => !(desired == 0 && id == 0) && !(desired > 0 && id != 0) && failed == 0
    case Recovered(i) =>
      && desired == 0 && id == 0 && failed == 0
      && i > 0 && poolID in s.w.ado && i in s.w.ado[poolID] && s.w.ado[poolID][i] == name
    case Registered(i) =>
      && desired == 0 && id == 0 && failed == FailedLookups(s, t)
      && poolID in s.w.ado && i !in s.w.ado[poolID] && 0 < i <= INT32_MAX
      && (FailedLookups(s, t) == 0 && IdsOk(s.w.ado) ==> NoAgent(s.w.ado, poolID, name))
    case RegisterFailed => desired == 0 && id == 0 && failed == FailedLookups(s, t) + 1
    case Unregistered => desired > 0 && id != 0 && poolID in s.w.ado && failed == 0
    case UnregisterFailed => desired > 0 && id != 0 && failed == 1
  }

  ghost predicate Managed(s: Sys, t: Sys, poolID: int, name: string, desired: int, id: int, a: DummyAction) {
    && Grows(s, t)
    && t.w == s.w.(ado := RegistryAfter(a, s.w.ado, poolID, name, id), now := t.w.now)
    && t.led == s.led.(faults := t.led.faults, lookupFaults := t.led.lookupFaults, writes := t.led.writes)
    && ActionFits(a, s, t, poolID, name, desired, id)
    && (t.led.writes == s.led.writes <==> !a.Registered? && !a.Unregistered?)
  }
}
