/** The other half of load accounting: what runs is counted, except where a launch or a report went wrong. */
module ClusterCover {
  import opened Sequences
  import opened JobModel
  import opened SchedulerSpec
  import opened Cluster
  import opened ClusterLoads

  function IsUncounted(wid: string, jid: string): Uncounted -> bool {
    (u: Uncounted) => u.wid == wid && u.id == jid
  }

  /** Launches of the job on the worker that were not counted, and its stops reported by all but last arrivals. */
  function Missing(c: Cluster, wid: string, jid: string): int {
    CountBy(c.uncounted, IsUncounted(wid, jid)) + SumBy(c.again, StoppedIn(wid, jid))
  }

  ghost predicate Covered(c: Cluster, wid: string, jid: string) {
    wid in c.workers ==> Owed(c, wid, jid) <= LoadCount(c.tables, wid, jid) + Missing(c, wid, jid)
  }

  /** Every report comes from a worker that was registered. */
  ghost predicate ReportersKnown(c: Cluster) {
    && (forall i | 0 <= i < |c.reports| :: c.reports[i].workerId in c.workerIds)
    && (forall i | 0 <= i < |c.lost| :: c.lost[i].workerId in c.workerIds)
  }

  lemma ReportersKnownStep(c: Cluster, e: Event)
    requires Enabled(c, e) && IdsOk(c) && ReportersKnown(c)
    ensures ReportersKnown(Next(c, e))
  {
    var c' := Next(c, e);
    if e.CheckJobs? {
      assert c'.reports[|c.reports|].workerId == e.wid;
    } else if e.RegisterWorker? || e.Deliver? || e.Lose? {
    } else {
      assert c'.reports == c.reports && c'.lost == c.lost && c'.workerIds == c.workerIds;
    }
  }

  lemma {:induction false} NothingFrom(reports: seq<WorkerJobReport>, wid: string, jid: string)
    requires forall i | 0 <= i < |reports| :: reports[i].workerId != wid
    ensures SumBy(reports, StoppedIn(wid, jid)) == 0
  {
    if reports == [] {
    } else {
      assert forall i | 0 <= i < |reports[1..]| :: reports[1..][i] == reports[i + 1];
      NothingFrom(reports[1..], wid, jid);
    }
  }

  /** A launch that reaches a worker is counted there, or recorded as not counted. */
  lemma PostCountedOrNot(c: Cluster, e: Event, wid: string)
    requires Enabled(c, e) && e.Schedule? && c.tables.queued != [] && PostsTo(c, e, wid)
    ensures Next(c, e).uncounted == if VerdictOf(c, e.pick, e.net, e.ok) == LaunchedOn(wid) then c.uncounted
                                    else c.uncounted + [Uncounted(wid, c.tables.queued[0].id)]
  {
  }

  lemma UncountedGrows(c: Cluster, e: Event, wid: string, jid: string)
    requires Enabled(c, e) && e.Schedule?
    ensures CountBy(c.uncounted, IsUncounted(wid, jid)) <= CountBy(Next(c, e).uncounted, IsUncounted(wid, jid))
  {
    var c' := Next(c, e);
    if c'.uncounted != c.uncounted {
      CountByPush(c.uncounted, c'.uncounted[|c.uncounted|], IsUncounted(wid, jid));
    }
  }

  lemma ScheduleCovered(c: Cluster, e: Event, wid: string, jid: string)
    requires Enabled(c, e) && e.Schedule? && IdsOk(c) && Covered(c, wid, jid)
    ensures Covered(Next(c, e), wid, jid)
  {
    if c.tables.queued == [] {
    } else if wid in c.workers {
      ScheduleCounts(c.tables, e.pick, ReplyTo(c, e.pick, e.net, e.ok), wid, jid);
      ScheduleRuns(c, e, wid, jid);
      UncountedGrows(c, e, wid, jid);
      if PostsTo(c, e, wid) {
        PostCountedOrNot(c, e, wid);
        CountByPush(c.uncounted, Uncounted(wid, c.tables.queued[0].id), IsUncounted(wid, jid));
      }
    }
  }

  lemma CheckCovered(c: Cluster, e: Event, wid: string, jid: string)
    requires Enabled(c, e) && e.CheckJobs? && IdsOk(c) && Covered(c, wid, jid)
    ensures Covered(Next(c, e), wid, jid)
  {
    var w := c.workers[e.wid];
    CheckCounts(w.running, e.alive, jid);
    SumByPush(c.reports, WorkerSpec.CheckReport(w, e.alive), StoppedIn(wid, jid));
  }

  lemma DeliverCovered(c: Cluster, e: Event, wid: string, jid: string)
    requires Enabled(c, e) && e.Deliver? && Covered(c, wid, jid)
    ensures Covered(Next(c, e), wid, jid)
  {
    DeliverCounts(c.tables, c.reports[e.i], c.clock, wid, jid);
    SumByRemove(c.reports, e.i, StoppedIn(wid, jid));
    SumByPush(c.again, c.reports[e.i], StoppedIn(wid, jid));
  }

  lemma LoseCovered(c: Cluster, e: Event, wid: string, jid: string)
    requires Enabled(c, e) && e.Lose? && Covered(c, wid, jid)
    ensures Covered(Next(c, e), wid, jid)
  {
    SumByRemove(c.reports, e.i, StoppedIn(wid, jid));
    SumByPush(c.lost, c.reports[e.i], StoppedIn(wid, jid));
  }

  lemma RegisterCovered(c: Cluster, e: Event, wid: string, jid: string)
    requires Enabled(c, e) && e.RegisterWorker? && IdsOk(c) && ReportersKnown(c) && Covered(c, wid, jid)
    ensures Covered(Next(c, e), wid, jid)
  {
    if wid == e.wid {
      NothingFrom(c.reports, wid, jid);
      NothingFrom(c.lost, wid, jid);
      SumByNonNegative(c.again, wid, jid);
    }
  }

  lemma OtherStepsCovered(c: Cluster, e: Event, wid: string, jid: string)
    requires Enabled(c, e) && Covered(c, wid, jid)
    requires !e.Schedule? && !e.CheckJobs? && !e.Deliver? && !e.Lose? && !e.RegisterWorker?
    ensures Covered(Next(c, e), wid, jid)
  {
    var c' := Next(c, e);
    assert c'.tables.loads == c.tables.loads && c'.reports == c.reports && c'.lost == c.lost;
    assert c'.uncounted == c.uncounted && c'.again == c.again;
    assert wid in c'.workers ==> wid in c.workers && c'.workers[wid].running == c.workers[wid].running;
  }

  lemma CoveredStep(c: Cluster, e: Event, wid: string, jid: string)
    requires Enabled(c, e) && IdsOk(c) && ReportersKnown(c) && Covered(c, wid, jid)
    ensures Covered(Next(c, e), wid, jid)
  {
    match e
    case Schedule(_, _, _, _) => ScheduleCovered(c, e, wid, jid);
    case CheckJobs(_, _) => CheckCovered(c, e, wid, jid);
    case Deliver(_, _) => DeliverCovered(c, e, wid, jid);
    case Lose(_) => LoseCovered(c, e, wid, jid);
    case RegisterWorker(_, _, _) => RegisterCovered(c, e, wid, jid);
    case _ => OtherStepsCovered(c, e, wid, jid);
  }

  lemma {:induction false} CoveredAlways(c: Cluster, es: seq<Event>, wid: string, jid: string)
    requires Valid(c, es) && IdsOk(c) && ReportersKnown(c) && Covered(c, wid, jid)
    ensures Covered(Run(c, es), wid, jid)
    decreases |es|
  {
    if es == [] {
    } else {
      IdsOkStep(c, es[0]);
      ReportersKnownStep(c, es[0]);
      CoveredStep(c, es[0], wid, jid);
      CoveredAlways(Next(c, es[0]), es[1..], wid, jid);
    }
  }

  /**
    In every run the running entries of a job, with its stops in flight or lost, are at most its
    load entries, its launches that failed or whose answer was lost, and its stops reported by
    arrivals that were not their report's last.
   */
  lemma LoadCoversRunning(es: seq<Event>, wid: string, jid: string)
    requires Valid(Init(), es) && wid in Run(Init(), es).workers
    ensures var c := Run(Init(), es);
            Owed(c, wid, jid) <= LoadCount(c.tables, wid, jid)
                                 + CountBy(c.uncounted, IsUncounted(wid, jid)) + SumBy(c.again, StoppedIn(wid, jid))
  {
    CoveredAlways(Init(), es, wid, jid);
  }

  /** So when no launch failed or lost its answer and no report arrived twice, load entries are exactly what is owed. */
  lemma LoadExact(es: seq<Event>, wid: string, jid: string)
    requires Valid(Init(), es) && wid in Run(Init(), es).workers
    requires Missing(Run(Init(), es), wid, jid) == 0
    ensures var c := Run(Init(), es); LoadCount(c.tables, wid, jid) == Owed(c, wid, jid)
  {
    LoadReturnsWithJob(es, wid, jid);
    LoadCoversRunning(es, wid, jid);
  }
}
