/** The job-queue summary every scaling decision rests on. */
module Jobs {
  import opened Base
  import opened Store
  import opened Ledgers
  import opened Clusters

  datatype JobStatus = JobStatus(pending: nat, busyAgentNames: set<string>)

  /** The positions of the unfinished jobs. */
  function OpenJobs(jobs: seq<Job>): set<nat> {
    set i: nat | i < |jobs| && !jobs[i].finished
  }

  /** The agents reserved by unfinished jobs. */
  function Busy(jobs: seq<Job>): set<string> {
    set i: nat | i < |jobs| && !jobs[i].finished && jobs[i].reservedAgent.Some? :: jobs[i].reservedAgent.value
  }

  function Summary(jobs: seq<Job>): JobStatus {
    JobStatus(|OpenJobs(jobs)|, Busy(jobs))
  }

  /** The counting loop of GetJobStatus over the decoded job list. */
  method CountJobs(jobs: seq<Job>) returns (status: JobStatus)
    ensures status == Summary(jobs)
  {
    status := JobStatus(0, {});
    for i := 0 to |jobs|
      invariant status == Summary(jobs[..i])
    {
      var job := jobs[i];
      SummaryStep(jobs, i);
      if !job.finished {
        status := status.(pending := status.pending + 1);
        if job.reservedAgent.Some? {
          status := status.(busyAgentNames := status.busyAgentNames + {job.reservedAgent.value});
        }
      }
    }
    assert jobs[..|jobs|] == jobs;
  }

  method GetJobStatus(c: Cluster, poolID: int) returns (ok: bool, status: JobStatus)
    requires c.Ok()
    modifies c
    ensures c.Ok() && ReadsInput(old(c.S()), c.S(), ok)
    ensures ok ==> status == Summary(c.azure.jobs(poolID, c.now))
  {
    var jobs;
    ok, jobs := c.GetJobs(poolID);
    status := CountJobs(jobs);
  }

  /** What one more job adds to the busy agents. */
  function Reserves(job: Job): set<string> {
    if !job.finished && job.reservedAgent.Some? then {job.reservedAgent.value} else {}
  }

  lemma SummaryStep(jobs: seq<Job>, i: nat)
    requires i < |jobs|
    ensures |OpenJobs(jobs[..i + 1])| == |OpenJobs(jobs[..i])| + (if jobs[i].finished then 0 else 1)
    ensures Busy(jobs[..i + 1]) == Busy(jobs[..i]) + Reserves(jobs[i])
  {
    OpenStep(jobs[..i], jobs[i]);
    BusyOnlyGrows(jobs[..i], jobs[i]);
    BusyNoMore(jobs[..i], jobs[i]);
    assert jobs[..i + 1] == jobs[..i] + [jobs[i]];
  }

  lemma OpenStep(a: seq<Job>, job: Job)
    ensures |OpenJobs(a + [job])| == |OpenJobs(a)| + (if job.finished then 0 else 1)
  {
    assert OpenJobs(a + [job]) == OpenJobs(a) + (if job.finished then {} else {|a|});
  }

  lemma BusyOnlyGrows(a: seq<Job>, job: Job)
    ensures Busy(a) + Reserves(job) <= Busy(a + [job])
  {
    var b := a + [job];
    assert b[|a|] == job;
    forall name | name in Busy(a)
      ensures name in Busy(b)
    {
      var j: nat :| j < |a| && !a[j].finished && a[j].reservedAgent == Some(name);
      assert b[j] == a[j];
    }
  }

  lemma BusyNoMore(a: seq<Job>, job: Job)
    ensures Busy(a + [job]) <= Busy(a) + Reserves(job)
  {
    var b := a + [job];
    forall name | name in Busy(b)
      ensures name in Busy(a) + Reserves(job)
    {
      var j: nat :| j < |b| && !b[j].finished && b[j].reservedAgent == Some(name);
      if j < |a| {
        assert a[j] == b[j];
      }
    }
  }

  /** Each busy agent accounts for an unfinished job of its own. */
  lemma {:induction false} BusyWithinPending(jobs: seq<Job>)
    ensures |Busy(jobs)| <= |OpenJobs(jobs)|
  {
    if jobs == [] {
      assert Busy(jobs) == {};
    } else {
      var n := |jobs| - 1;
      BusyWithinPending(jobs[..n]);
      SummaryStep(jobs, n);
      assert jobs[..n + 1] == jobs;
    }
  }

  function Gap(a: int, b: int): nat { if a < b then b - a else a - b }

  /** Constrains `val` to [minVal, maxVal]: the nearest value allowed. When the limits cross, values below the
      lower limit get that, and all others the upper one. */
  function Clamp(val: int, minVal: int, maxVal: int): (r: int)
    ensures minVal <= maxVal ==> minVal <= r <= maxVal
    ensures forall x :: minVal <= x <= maxVal ==> Gap(val, r) <= Gap(val, x)
    ensures minVal > maxVal ==> r in {minVal, maxVal} && (r == minVal <==> val < minVal)
  {
    if val < minVal then minVal else if val > maxVal then maxVal else val
  }

  /** The number of agents a pass steers to. */
  function Desired(spec: PoolSpec, pending: int): int {
    Clamp(ToInt32(pending), spec.minAgents, spec.maxAgents)
  }

  /** The target by the length of the queue: a short queue gives minAgents, a long one maxAgents, and any other
      one agent for each job. */
  lemma DesiredByQueue(spec: PoolSpec, pending: nat)
    requires spec.minAgents <= spec.maxAgents && pending <= INT32_MAX
    ensures pending <= spec.minAgents ==> Desired(spec, pending) == spec.minAgents
    ensures pending >= spec.maxAgents ==> Desired(spec, pending) == spec.maxAgents
    ensures spec.minAgents <= pending <= spec.maxAgents ==> Desired(spec, pending) == pending
  {
    var r := Desired(spec, pending);
    var nearest := if pending <= spec.minAgents then spec.minAgents
                   else if pending >= spec.maxAgents then spec.maxAgents else pending;
    assert Gap(pending, r) <= Gap(pending, nearest);
  }

  /** A queue too long for an int32 counts as a negative one: the target drops to minAgents. */
  lemma LongQueueWraps(spec: PoolSpec, pending: nat)
    requires 0 <= spec.minAgents <= spec.maxAgents && INT32_MAX < pending <= 0x1_0000_0000
    ensures Desired(spec, pending) == spec.minAgents
  {
    var r := Desired(spec, pending);
    assert ToInt32(pending) <= 0;
    assert Gap(ToInt32(pending), r) <= Gap(ToInt32(pending), spec.minAgents);
  }

  /** While the queue is no longer than the pool may grow, the target covers every busy agent. */
  lemma DesiredCoversBusy(spec: PoolSpec, jobs: seq<Job>)
    requires |OpenJobs(jobs)| <= spec.maxAgents && spec.maxAgents <= INT32_MAX
    ensures |Busy(jobs)| <= |OpenJobs(jobs)| <= Desired(spec, |OpenJobs(jobs)|)
  {
    BusyWithinPending(jobs);
  }
}
