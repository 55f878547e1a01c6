/** What follows for one worker or one job: idle workers are empty, sweeps are exact, and when a stop holds. */
module ClusterConsequences {
  import opened Sequences
  import opened JobModel
  import opened SchedulerSpec
  import opened Cluster
  import opened ReportFrames
  import opened ClusterLoads
  import opened ClusterCapacity
  import WorkerSpec

  // ----- Capacity comes back -----

  lemma {:induction false} NothingReported(reports: seq<WorkerJobReport>, wid: string, jid: string)
    requires forall i | 0 <= i < |reports| && reports[i].workerId == wid :: reports[i].stoppedJobs == []
    ensures SumBy(reports, StoppedIn(wid, jid)) == 0
  {
    if reports == [] {
    } else {
      assert forall i | 0 <= i < |reports[1..]| :: reports[1..][i] == reports[i + 1];
      NothingReported(reports[1..], wid, jid);
    }
  }

  /** A worker that runs nothing, with no stop report under way or lost, carries no load. */
  lemma IdleWorkerHasNoLoad(es: seq<Event>, wid: string)
    requires Valid(Init(), es)
    requires var c := Run(Init(), es);
             && wid in c.workers && c.workers[wid].running == []
             && (forall i | 0 <= i < |c.reports| && c.reports[i].workerId == wid :: c.reports[i].stoppedJobs == [])
             && (forall i | 0 <= i < |c.lost| && c.lost[i].workerId == wid :: c.lost[i].stoppedJobs == [])
    ensures var l := LoadOf(Run(Init(), es).tables, wid); l.jobs == [] && l.cpu == 0 && l.bandwidth == 0
  {
    var c := Run(Init(), es);
    var l := LoadOf(c.tables, wid);
    if l.jobs != [] {
      var jid := l.jobs[0].id;
      LoadReturnsWithJob(es, wid, jid);
      NothingReported(c.reports, wid, jid);
      NothingReported(c.lost, wid, jid);
    }
    CapacityInEveryRun(es, wid);
  }

  // ----- Heartbeats -----

  /**
    A sweep keeps exactly the workers heard from within ten intervals, and halts exactly the jobs
    in the others' loads.
   */
  lemma SweepExact(c: Cluster, wid: string, jid: string)
    requires IdsOk(c)
    ensures var t, t' := c.tables, Next(c, SweepWorkers).tables;
            && (wid in t'.workers <==>
                  (wid in t.workers
                   && c.clock - t.workers[wid].lastHeartbeatMs
                      <= TruncDiv(10 * t.workers[wid].info.heartbeatIntervalNs, 1000000)))
            && (wid in t'.workers ==> t'.workers[wid] == t.workers[wid])
            && (jid in t'.jobs <==> jid in t.jobs)
            && (jid in t.jobs ==>
                  t'.jobs[jid] == if exists w | w in t.workers && w !in t'.workers :: LoadNames(t, w, jid)
                                  then t.jobs[jid].(state := Stopped, bandwidth := 0, cpu := "") else t.jobs[jid])
            && t'.loads == t.loads && t'.queued == t.queued
  {
    var gone := ExpiredWorkers(c.tables, c.clock);
    assert forall w :: w in gone <==> w in c.tables.workers && w !in Removed(c.tables, gone).workers;
  }

  /** No step stores a worker as not available: until it is removed, a silent worker is still given jobs. */
  lemma {:induction false} NeverSuspended(c: Cluster, es: seq<Event>)
    requires Valid(c, es) && IdsOk(c) && AvailableWorkers(c.tables) == c.tables.workers.Keys
    ensures AvailableWorkers(Run(c, es).tables) == Run(c, es).tables.workers.Keys
    decreases |es|
  {
    if es == [] {
    } else {
      IdsOkStep(c, es[0]);
      AvailableIs(c.tables);
      AvailableStep(c, es[0]);
      AvailableIs(Next(c, es[0]).tables);
      NeverSuspended(Next(c, es[0]), es[1..]);
    }
  }

  ghost predicate AllAvailable(t: Tables) {
    forall wid | wid in t.workers :: t.workers[wid].status != NotAvailable
  }

  lemma AvailableIs(t: Tables)
    ensures AvailableWorkers(t) == t.workers.Keys <==> AllAvailable(t)
  {
    if AvailableWorkers(t) == t.workers.Keys {
      assert forall wid | wid in t.workers :: wid in AvailableWorkers(t);
    }
  }

  lemma ScheduleKeepsAvailable(t: Tables, pick: string, reply: Reply)
    requires Keyed(t) && AllAvailable(t)
    ensures AllAvailable(ScheduleOne(t, pick, reply))
  {
  }

  lemma WorkerTableAvailable(c: Cluster, e: Event)
    requires Enabled(c, e) && AllAvailable(c.tables) && (e.RegisterWorker? || e.WorkerBeat? || e.SweepWorkers?)
    ensures AllAvailable(Next(c, e).tables)
  {
  }

  lemma OtherStepsAvailable(c: Cluster, e: Event)
    requires Enabled(c, e) && AllAvailable(c.tables)
    requires !e.Schedule? && !e.Deliver? && !e.RegisterWorker? && !e.WorkerBeat? && !e.SweepWorkers?
    ensures AllAvailable(Next(c, e).tables)
  {
    assert Next(c, e).tables.workers == c.tables.workers;
  }

  lemma AvailableStep(c: Cluster, e: Event)
    requires Enabled(c, e) && IdsOk(c) && AllAvailable(c.tables)
    ensures AllAvailable(Next(c, e).tables)
  {
    match e
    case Schedule(pick, net, _, ok) => ScheduleKeepsAvailable(c.tables, pick, ReplyTo(c, pick, net, ok));
    case Deliver(i, _) => ReportFrame(c.tables, c.reports[i], c.clock);
    case RegisterWorker(_, _, _) => WorkerTableAvailable(c, e);
    case WorkerBeat(_, _) => WorkerTableAvailable(c, e);
    case SweepWorkers => WorkerTableAvailable(c, e);
    case _ => OtherStepsAvailable(c, e);
  }

  // ----- Stopped jobs -----

  /** The stop at the front is confirmed exactly when its worker is registered, answers, and signals the process. */
  lemma StopConfirmedExactly(c: Cluster, e: Event)
    requires Enabled(c, e) && e.Schedule? && c.tables.queued != [] && c.tables.queued[0].stop
    ensures var m := c.tables.queued[0]; var wid := m.assignedWorker;
            VerdictOf(c, e.pick, e.net, e.ok) == StoppedOn(wid)
            <==> wid != "" && wid in c.tables.workers && wid in c.workers && e.net.Answered?
                 && WorkerSpec.CanSignal(c.workers[wid], m.id) && e.ok
  {
  }
}
