/** The load table balances, and no registered worker is ever given more jobs than its capacity. */
module ClusterCapacity {
  import opened Sequences
  import opened JobModel
  import opened SchedulerSpec
  import opened Cluster
  import opened ReportFrames
  import opened ClusterLoads

  function CpuOf(): JobLoad -> int {
    (l: JobLoad) => l.cpu
  }

  function BandwidthOf(): JobLoad -> int {
    (l: JobLoad) => l.bandwidth
  }

  /** The totals are the sums over the entries, and every entry carries the fixed estimate. */
  ghost predicate Balanced(l: WorkerLoad) {
    && l.cpu == SumBy(l.jobs, CpuOf())
    && l.bandwidth == SumBy(l.jobs, BandwidthOf())
    && forall i | 0 <= i < |l.jobs| :: l.jobs[i].cpu == JOB_CPU_LOAD && l.jobs[i].bandwidth == JOB_BANDWIDTH_LOAD
  }

  /** n jobs could be launched one after the other, each while there was capacity left. */
  predicate Fits(info: WorkerInfo, n: nat) {
    n > 0 ==> JOB_CPU_LOAD * (n - 1) < info.cpuCapacity && JOB_BANDWIDTH_LOAD * (n - 1) < info.bandwidthCapacity
  }

  ghost predicate CapacityOk(t: Tables) {
    && (forall wid | wid in t.loads :: Balanced(t.loads[wid]))
    && (forall wid | wid in t.workers :: Fits(t.workers[wid].info, |LoadOf(t, wid).jobs|))
  }

  lemma {:induction false} StandardSums(jobs: seq<JobLoad>)
    requires forall i | 0 <= i < |jobs| :: jobs[i].cpu == JOB_CPU_LOAD && jobs[i].bandwidth == JOB_BANDWIDTH_LOAD
    ensures SumBy(jobs, CpuOf()) == JOB_CPU_LOAD * |jobs|
    ensures SumBy(jobs, BandwidthOf()) == JOB_BANDWIDTH_LOAD * |jobs|
  {
    if jobs == [] {
    } else {
      StandardSums(jobs[1..]);
    }
  }

  lemma BalancedOf(t: Tables, wid: string)
    requires CapacityOk(t)
    ensures Balanced(LoadOf(t, wid))
  {
  }

  lemma PushKeepsBalance(l: WorkerLoad, wid: string, jid: string)
    requires Balanced(l)
    ensures Balanced(WorkerLoad(wid, l.jobs + [JobLoad(jid, JOB_CPU_LOAD, JOB_BANDWIDTH_LOAD)],
                                l.cpu + JOB_CPU_LOAD, l.bandwidth + JOB_BANDWIDTH_LOAD))
  {
    SumByPush(l.jobs, JobLoad(jid, JOB_CPU_LOAD, JOB_BANDWIDTH_LOAD), CpuOf());
    SumByPush(l.jobs, JobLoad(jid, JOB_CPU_LOAD, JOB_BANDWIDTH_LOAD), BandwidthOf());
  }

  lemma AddKeepsCapacity(t: Tables, w: LiveWorker, jid: string)
    requires CapacityOk(t) && w.id in t.workers && w == t.workers[w.id] && HasCapacity(t, w.id)
    ensures CapacityOk(AddLoad(t, w, jid))
  {
    var l := LoadOf(t, w.id);
    var t' := AddLoad(t, w, jid);
    BalancedOf(t, w.id);
    PushKeepsBalance(l, w.id, jid);
    assert Fits(w.info, |l.jobs| + 1) by {
      StandardSums(l.jobs);
    }
    forall wid | wid in t'.workers
      ensures Fits(t'.workers[wid].info, |LoadOf(t', wid).jobs|)
    {
      if wid != w.id {
        assert LoadOf(t', wid) == LoadOf(t, wid);
      }
    }
  }

  lemma DropKeepsBalance(l: WorkerLoad, jid: string)
    requires Balanced(l)
    ensures Balanced(DropLoad(l, jid)) && |DropLoad(l, jid).jobs| <= |l.jobs|
  {
    var i := FirstLoad(l.jobs, jid);
    if i < |l.jobs| {
      SumByRemove(l.jobs, i, CpuOf());
      SumByRemove(l.jobs, i, BandwidthOf());
    }
  }

  lemma SubtractKeepsCapacity(t: Tables, wid: string, jid: string)
    requires CapacityOk(t)
    ensures CapacityOk(SubtractLoad(t, wid, jid))
  {
    if wid in t.loads {
      DropKeepsBalance(t.loads[wid], jid);
      var t' := SubtractLoad(t, wid, jid);
      forall w | w in t'.workers
        ensures Fits(t'.workers[w].info, |LoadOf(t', w).jobs|)
      {
        FitsFewer(t.workers[w].info, |LoadOf(t, w).jobs|, |LoadOf(t', w).jobs|);
      }
    }
  }

  lemma FitsFewer(info: WorkerInfo, n: nat, m: nat)
    requires Fits(info, n) && m <= n
    ensures Fits(info, m)
  {
  }

  lemma {:induction false} StoppedKeepsCapacity(t: Tables, wid: string, jids: seq<string>)
    requires CapacityOk(t)
    ensures CapacityOk(ReportAllStopped(t, wid, jids))
    decreases |jids|
  {
    if jids == [] {
    } else {
      var front, id := jids[..|jids| - 1], jids[|jids| - 1];
      StoppedKeepsCapacity(t, wid, front);
      var t1 := ReportAllStopped(t, wid, front);
      var t2 := if id in t1.jobs then PutJob(t1, Halted(t1.jobs[id])) else t1;
      assert forall w :: LoadOf(t2, w) == LoadOf(t1, w);
      SubtractKeepsCapacity(t2, wid, id);
    }
  }

  lemma ScheduleKeepsCapacity(t: Tables, pick: string, reply: Reply)
    requires Keyed(t) && CapacityOk(t)
    ensures CapacityOk(ScheduleOne(t, pick, reply))
  {
    if t.queued != [] {
      var rest := t.(queued := t.queued[1..]);
      var v := Decide(rest, t.queued[0], pick, reply);
      if v.LaunchedOn? {
        AddKeepsCapacity(PutJob(rest, Assigned(reply.job, v.wid)), rest.workers[v.wid], reply.job.id);
      }
    }
  }

  /** Capacity speaks only of the workers and their loads. */
  lemma SameCapacity(t: Tables, t': Tables)
    requires CapacityOk(t) && t'.loads == t.loads && t'.workers == t.workers
    ensures CapacityOk(t')
  {
    assert forall wid :: LoadOf(t', wid) == LoadOf(t, wid);
  }

  lemma DeliverKeepsCapacity(c: Cluster, e: Event)
    requires Enabled(c, e) && e.Deliver? && CapacityOk(c.tables)
    ensures CapacityOk(Next(c, e).tables)
  {
    var r := c.reports[e.i];
    var t1 := ReportAllStopped(c.tables, r.workerId, r.stoppedJobs);
    StoppedKeepsCapacity(c.tables, r.workerId, r.stoppedJobs);
    StoppedFrame(c.tables, r.workerId, r.stoppedJobs);
    ReportFrame(c.tables, r, c.clock);
    SameCapacity(t1, Next(c, e).tables);
  }

  lemma FrontKeepsCapacity(c: Cluster, e: Event)
    requires Enabled(c, e) && CapacityOk(c.tables)
    requires e.ApiCreate? || e.ApiStop? || e.ApiResume? || e.ApiDelete? || e.PollSqs?
    ensures CapacityOk(Next(c, e).tables)
  {
    assert Next(c, e).tables.loads == c.tables.loads && Next(c, e).tables.workers == c.tables.workers;
    SameCapacity(c.tables, Next(c, e).tables);
  }

  lemma WorkerTableKeepsCapacity(c: Cluster, e: Event)
    requires Enabled(c, e) && IdsOk(c) && CapacityOk(c.tables)
    requires e.RegisterWorker? || e.WorkerBeat? || e.SweepWorkers?
    ensures CapacityOk(Next(c, e).tables)
  {
    assert Next(c, e).tables.loads == c.tables.loads;
  }

  lemma CapacityStep(c: Cluster, e: Event)
    requires Enabled(c, e) && IdsOk(c) && CapacityOk(c.tables)
    ensures CapacityOk(Next(c, e).tables)
  {
    match e
    case Schedule(pick, net, _, ok) => ScheduleKeepsCapacity(c.tables, pick, ReplyTo(c, pick, net, ok));
    case Deliver(_, _) => DeliverKeepsCapacity(c, e);
    case ApiCreate(_, _, _) => FrontKeepsCapacity(c, e);
    case ApiStop(_, _) => FrontKeepsCapacity(c, e);
    case ApiResume(_, _) => FrontKeepsCapacity(c, e);
    case ApiDelete(_) => FrontKeepsCapacity(c, e);
    case PollSqs(_, _) => FrontKeepsCapacity(c, e);
    case RegisterWorker(_, _, _) => WorkerTableKeepsCapacity(c, e);
    case WorkerBeat(_, _) => WorkerTableKeepsCapacity(c, e);
    case SweepWorkers => WorkerTableKeepsCapacity(c, e);
    case _ => assert Next(c, e).tables == c.tables;
  }

  lemma {:induction false} CapacityAlways(c: Cluster, es: seq<Event>)
    requires Valid(c, es) && IdsOk(c) && CapacityOk(c.tables)
    ensures CapacityOk(Run(c, es).tables)
    decreases |es|
  {
    if es == [] {
    } else {
      IdsOkStep(c, es[0]);
      CapacityStep(c, es[0]);
      CapacityAlways(Next(c, es[0]), es[1..]);
    }
  }

  /** How many jobs of the given size a capacity allows: the quotient rounded up, never negative. */
  function Slots(capacity: int, size: int): nat
    requires size > 0
  {
    if capacity <= 0 then 0 else (capacity + size - 1) / size
  }

  /** In every run the totals are the sums over the entries, and a registered worker has no more entries than slots. */
  lemma CapacityInEveryRun(es: seq<Event>, wid: string)
    requires Valid(Init(), es)
    ensures var t := Run(Init(), es).tables; var l := LoadOf(t, wid);
            && l.cpu == SumBy(l.jobs, CpuOf()) >= 0
            && l.bandwidth == SumBy(l.jobs, BandwidthOf()) >= 0
            && (wid in t.workers ==>
                  && |l.jobs| <= Slots(t.workers[wid].info.cpuCapacity, JOB_CPU_LOAD)
                  && |l.jobs| <= Slots(t.workers[wid].info.bandwidthCapacity, JOB_BANDWIDTH_LOAD))
  {
    CapacityAlways(Init(), es);
    var t := Run(Init(), es).tables;
    BalancedOf(t, wid);
    StandardSums(LoadOf(t, wid).jobs);
  }
}
