/** What a run is observed by: counters of failed calls, of writes and of unsafe instants, and the pods
    the operator deleted. Nothing here influences the operator. */
module Ledgers {
  import opened Store

  /** A successful delete call: the pod, and the time of the call. */
  datatype Kill = Kill(key: Key, pod: Pod, at: nat)

  datatype Ledger = Ledger(
    faults: nat,          // calls that returned an error
    releaseFaults: nat,   // calls made to release a claim that returned an error
    lookupFaults: nat,    // failed look-ups of an agent by name
    statusFaults: nat,    // failed status writes
    apiFaults: nat,       // failed reads and metadata writes of AgentPools, and failed pod listings
    inputFaults: nat,     // failed reads of the token, of the id of the ADO pool and of the job list
    tokens: nat,          // successful reads of the token
    named: nat,           // pod names chosen
    reused: nat,          // pod names chosen that some pod or claim label already bore
    writes: nat,          // successful creates, deletes, patches, registrations and unregistrations
    kills: set<Kill>,     // pods deleted by the operator
    unsafe: nat           // instants at which the store was not Safe: one instant follows every
                          // environment move and every successful write
  )

  datatype Sys = Sys(w: World, led: Ledger)

  /** Mentioned where a proof wants to know that the current state is safe. */
  ghost predicate Inspect(w: World) { true }

  /** `Safe(w, bounds)`; the trigger keeps its definition out of proofs that do not ask for it. */
  ghost predicate SafeNow(w: World, bounds: map<Key, nat>) {
    forall u {:trigger Inspect(u)} :: u == w ==> Safe(u, bounds)
  }

  /** Every instant so far was safe, the current one included. */
  ghost predicate Valid(s: Sys, bounds: map<Key, nat>) {
    s.led.unsafe == 0 && SafeNow(s.w, bounds)
  }

  lemma NowSafe(s: Sys, bounds: map<Key, nat>)
    requires Valid(s, bounds)
    ensures Safe(s.w, bounds)
  {
    assert Inspect(s.w);
  }

  /** `Unused(w, cs)`, likewise kept out of the way. */
  ghost predicate Idle(w: World, cs: set<Key>) {
    forall u {:trigger Inspect(u)} :: u == w ==> Unused(u, cs)
  }

  lemma IdleKept(w: World, v: World, cs: set<Key>)
    requires Idle(w, cs) && v.pods == w.pods && w.now <= v.now
    ensures Idle(v, cs)
  {
    assert Inspect(w);
    UnusedKept(w, v, cs);
  }

  lemma IdleUse(w: World, cs: set<Key>, c: Key)
    requires Idle(w, cs) && c in cs
    ensures Unused(w, {c})
  {
    assert Inspect(w);
  }

  lemma FreeIsIdle(s: Sys, bounds: map<Key, nat>, cs: set<Key>, v: World)
    requires Valid(s, bounds) && AllFree(s.w.pvcs, cs) && v.pods == s.w.pods && s.w.now <= v.now
    ensures Idle(v, cs)
  {
    NowSafe(s, bounds);
    FreeIsUnused(s.w, cs);
    UnusedKept(s.w, v, cs);
  }

  lemma RetiredIsIdle(s: Sys, bounds: map<Key, nat>, pool: Key, pod: string, v: World)
    requires Valid(s, bounds) && !ActiveNow(s.w, Key(pool.ns, pod)) && v.pods == s.w.pods && s.w.now <= v.now
    ensures Idle(v, SlotsOf(s.w.pvcs, pool, pod))
  {
    NowSafe(s, bounds);
    RetiredIsUnused(s.w, pool, pod);
    UnusedKept(s.w, v, SlotsOf(s.w.pvcs, pool, pod));
  }

  /** The environment did not move. */
  ghost predicate Frozen(s: Sys, t: Sys) { t.w.now == s.w.now }

  /** The calls that failed between two states: all, those made to release claims, look-ups by name, status
      writes, those whose failure a pass reports, and those without which it does not know what to do. */
  ghost function FailedCalls(s: Sys, t: Sys): int { t.led.faults - s.led.faults }

  ghost function FailedReleases(s: Sys, t: Sys): int { t.led.releaseFaults - s.led.releaseFaults }

  /** All but those made to release claims. */
  ghost function OtherFaults(s: Sys, t: Sys): int { FailedCalls(s, t) - FailedReleases(s, t) }

  ghost function FailedLookups(s: Sys, t: Sys): int { t.led.lookupFaults - s.led.lookupFaults }

  ghost function FailedStatus(s: Sys, t: Sys): int { t.led.statusFaults - s.led.statusFaults }

  ghost function FailedApi(s: Sys, t: Sys): int { t.led.apiFaults - s.led.apiFaults }

  ghost function FailedInputs(s: Sys, t: Sys): int { t.led.inputFaults - s.led.inputFaults }

  ghost function NamesTried(s: Sys, t: Sys): int { t.led.named - s.led.named }

  /** No call failed. */
  ghost predicate NoFault(s: Sys, t: Sys) { t.led.faults == s.led.faults }

  /** Time, counters and records only grow. */
  ghost predicate Grows(s: Sys, t: Sys) {
    var l, m := s.led, t.led;
    && s.w.now <= t.w.now
    && l.faults <= m.faults && l.releaseFaults <= m.releaseFaults && l.lookupFaults <= m.lookupFaults
    && l.statusFaults <= m.statusFaults && l.apiFaults <= m.apiFaults && l.inputFaults <= m.inputFaults
    && l.tokens <= m.tokens && l.named <= m.named && l.reused <= m.reused && l.writes <= m.writes
    && l.kills <= m.kills && l.unsafe <= m.unsafe
    && (m.faults == l.faults ==>
         && m.releaseFaults == l.releaseFaults && m.statusFaults == l.statusFaults && m.lookupFaults == l.lookupFaults
         && m.apiFaults == l.apiFaults && m.inputFaults == l.inputFaults)
  }

  /** Reads and failed calls: only time passed. */
  ghost predicate Passive(s: Sys, t: Sys) {
    && Grows(s, t)
    && t.w == s.w.(now := t.w.now)
    && t.led == s.led.(faults := t.led.faults)
  }

  /** A read of the token. */
  ghost predicate ReadsToken(s: Sys, t: Sys, ok: bool) {
    && Grows(s, t) && t.w == s.w.(now := t.w.now)
    && t.led == s.led.(faults := s.led.faults + (if ok then 0 else 1),
                       inputFaults := s.led.inputFaults + (if ok then 0 else 1),
                       tokens := s.led.tokens + (if ok then 1 else 0))
  }

  ghost function TokensRead(s: Sys, t: Sys): int { t.led.tokens - s.led.tokens }

  /** A read of the id of the ADO pool or of the job list. */
  ghost predicate ReadsInput(s: Sys, t: Sys, ok: bool) {
    && Grows(s, t) && t.w == s.w.(now := t.w.now)
    && t.led == s.led.(faults := s.led.faults + (if ok then 0 else 1),
                       inputFaults := s.led.inputFaults + (if ok then 0 else 1))
  }

  /** A read of an AgentPool or of the list of pods. */
  ghost predicate ReadsApi(s: Sys, t: Sys, ok: bool) {
    && Grows(s, t) && t.w == s.w.(now := t.w.now)
    && t.led == s.led.(faults := s.led.faults + (if ok then 0 else 1),
                       apiFaults := s.led.apiFaults + (if ok then 0 else 1))
  }

  /** The operator wrote nothing but claims. */
  ghost predicate ClaimsOnly(s: Sys, t: Sys) {
    && Grows(s, t)
    && t.w == s.w.(pvcs := t.w.pvcs, now := t.w.now)
    && t.led == s.led.(faults := t.led.faults, releaseFaults := t.led.releaseFaults,
                       writes := t.led.writes)
  }
}
