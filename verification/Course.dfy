/** Which calls decide the course of a pass: it gives up only when one fails whose answer it needs, and goes on
    after all others. */
module Course {
  import opened Store
  import opened Ledgers
  import opened Jobs
  import opened Passes
  import opened Scaling

  // ----- an AgentPool in use -----

  predicate InUse(w: World, key: Key) {
    key in w.pools && w.pools[key].finalizer && !w.pools[key].deleting
  }

  /** The ids ADO has for pools are not 0, as int32 numbers. */
  ghost predicate PoolIDsOk(J: Azure) {
    forall name, at, id :: IsPoolID(J, name, at, id) ==> id != 0
  }

  lemma InUseMeans(s: Sys, t: Sys, key: Key, J: Azure, p: Pass)
    requires PassOf(s, t, key, J, p) && InUse(s.w, key)
    ensures p.Full? || p.Stopped? || (p.Nothing? && FailedApi(s, t) == 1)
  {
  }

  /** Once the ADO pool id is known, a pass over an AgentPool in use gets to the pods and to its status write
      exactly if it could read the object, the token, the job list and the pods. All other failures, those of
      provisioning among them, it passes over. */
  lemma RunsToTheEnd(s: Sys, t: Sys, key: Key, J: Azure, p: Pass)
    requires PassOf(s, t, key, J, p) && InUse(s.w, key) && s.w.pools[key].status.poolID != 0
    ensures p.Full? <==> FailedApi(s, t) == 0 && FailedInputs(s, t) == 0
  {
    InUseMeans(s, t, key, J, p);
    if p.Full? {
      FullHasRead(s, t, key, J, p.f);
    }
  }

  /** A pass that has yet to find the ADO pool id must be able to persist it as well. */
  lemma RunsToTheEndAtFirst(s: Sys, t: Sys, key: Key, J: Azure, p: Pass)
    requires PassOf(s, t, key, J, p) && InUse(s.w, key) && s.w.pools[key].status.poolID == 0 && PoolIDsOk(J)
    ensures p.Full? <==>
      FailedApi(s, t) == 0 && FailedInputs(s, t) == 0 && key in t.w.pools && t.w.pools[key].status.poolID != 0
  {
    InUseMeans(s, t, key, J, p);
    if p.Full? {
      FullHasRead(s, t, key, J, p.f);
      PoolIDFound(s, t, key, J, p.f);
    }
  }

  /** No pass stops for failures of provisioning alone. */
  lemma ProvisioningNeverStops(s: Sys, t: Sys, key: Key, J: Azure, p: Pass)
    requires PassOf(s, t, key, J, p) && p.Stopped?
    ensures FailedApi(s, t) + FailedInputs(s, t) + FailedStatus(s, t) > 0
    ensures p.halt.NotSurveyed? ==> FailedCalls(p.halt.provisioned, t) > 0
    ensures p.halt.NotLoaded? ==> t.w.pvcs == s.w.pvcs
  {
  }

  /** No pass gets past the token, or touches the agents registered in ADO, without having read the token, and
      none reads it twice. */
  lemma TokenFirst(s: Sys, t: Sys, key: Key, J: Azure, p: Pass)
    requires PassOf(s, t, key, J, p)
    ensures TokensRead(s, t) <= 1
    ensures p.Full? || t.w.ado != s.w.ado || t.w.pvcs != s.w.pvcs || t.w.pods != s.w.pods ==> TokensRead(s, t) == 1
  {
    if p.Full? {
      FullHasRead(s, t, key, J, p.f);
    }
  }

  // ----- the id of the ADO pool -----

  lemma PoolIDFound(s: Sys, t: Sys, key: Key, J: Azure, f: FullPass)
    requires FullOf(s, t, key, J, f)
    ensures key in s.w.pools && f.spec == s.w.pools[key].spec
    ensures key in t.w.pools && t.w.pools[key].status.poolID == f.mem.poolID
    ensures s.w.pools[key].status.poolID != 0 ==> f.mem == s.w.pools[key].status
    ensures s.w.pools[key].status.poolID == 0 ==>
      exists at: nat :: s.w.now <= at <= t.w.now && IsPoolID(J, f.spec.poolName, at, f.mem.poolID)
  {
    StatusAfterPass(s, t, key, J, f);
    StageTimes(s, t, key, J, f);
    LoadedOf(s, t, key, J, f);
    if s.w.pools[key].status.poolID == 0 {
      var at: nat :| s.w.now <= at <= f.loaded.w.now && IsPoolID(J, f.spec.poolName, at, f.mem.poolID);
    }
  }

  lemma LoadedOf(s: Sys, t: Sys, key: Key, J: Azure, f: FullPass)
    requires FullOf(s, t, key, J, f)
    ensures Loaded(s, f.loaded, key, J, f.mem) && f.spec == s.w.pools[key].spec && f.loaded.w.now <= t.w.now
  {
    assert Open(f);
  }

  /** The id a pass works with and persists: the one that is persisted already, or the one ADO gave during the
      pass for the pool the spec names. No other id is ever written. */
  lemma PoolIDAfter(s: Sys, t: Sys, key: Key, J: Azure, p: Pass, k: Key)
    requires PassOf(s, t, key, J, p) && k in t.w.pools
    ensures k in s.w.pools && t.w.pools[k].spec == s.w.pools[k].spec
    ensures t.w.pools[k].status.poolID == s.w.pools[k].status.poolID
      || (s.w.pools[k].status.poolID == 0 && k == key
          && exists at: nat ::
            && s.w.now <= at <= t.w.now
            && IsPoolID(J, s.w.pools[k].spec.poolName, at, t.w.pools[k].status.poolID))
  {
    match p
    case Full(f) =>
      PoolIDFound(s, t, key, J, f);
      StatusAfterPass(s, t, key, J, f);
    case Stopped(mem, _, halt) =>
      if halt.NotSurveyed? && s.w.pools[key].status.poolID == 0 {
        var at: nat :| s.w.now <= at <= halt.loaded.w.now
          && IsPoolID(J, s.w.pools[key].spec.poolName, at, mem.poolID);
      }
    case _ =>
  }

  /** A persisted id is never looked up again: after the name in the spec was changed, passes go on reading the
      jobs of the pool it used to name. */
  lemma RenamedPoolIsMissed(s: Sys, t: Sys, key: Key, J: Azure, f: FullPass)
    requires FullOf(s, t, key, J, f) && key in s.w.pools && s.w.pools[key].status.poolID != 0
    ensures f.mem.poolID == s.w.pools[key].status.poolID
    ensures f.jobs == Summary(J.jobs(s.w.pools[key].status.poolID, f.asked))
    ensures key in t.w.pools && t.w.pools[key].status.poolID == s.w.pools[key].status.poolID
  {
    PoolIDFound(s, t, key, J, f);
    JobsRead(s, t, key, J, f);
  }

  lemma JobsRead(s: Sys, t: Sys, key: Key, J: Azure, f: FullPass)
    requires FullOf(s, t, key, J, f)
    ensures f.jobs == Summary(J.jobs(f.mem.poolID, f.asked))
  {
    assert Open(f);
  }

  // ----- deletion -----

  /** A deletion removes the object exactly if it could be read and written: that the token could not be read or
      the placeholder not be unregistered does not keep it. */
  lemma DeletionRemoves(s: Sys, t: Sys, key: Key, J: Azure, p: Pass)
    requires PassOf(s, t, key, J, p) && key in s.w.pools && s.w.pools[key].deleting && s.w.pools[key].finalizer
    ensures key !in t.w.pools <==> FailedApi(s, t) == 0
  {
    if p.Full? {
      LoadedOf(s, t, key, J, p.f);
      FullInUse(s, t, key, J, p.f);
    }
  }

  lemma FullInUse(s: Sys, t: Sys, key: Key, J: Azure, f: FullPass)
    requires FullOf(s, t, key, J, f)
    ensures InUse(s.w, key)
  {
    assert Open(f);
  }
}
