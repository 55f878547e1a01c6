/** Worker loads over whole runs: they return with their jobs and respect the workers' capacity. */
module ClusterLoads {
  import opened Sequences
  import opened JobModel
  import opened SchedulerSpec
  import opened Cluster
  import opened ReportFrames
  import WorkerSpec

  // ----- Identifiers -----

  /** Rows are stored under their own ids, and every worker named anywhere was registered. */
  ghost predicate IdsOk(c: Cluster) {
    && Keyed(c.tables)
    && (forall wid | wid in c.workers :: c.workers[wid].id == wid && wid in c.workerIds)
    && c.tables.workers.Keys <= c.workerIds
    && c.tables.loads.Keys <= c.workerIds
    && "" !in c.workerIds
  }

  lemma ApplyIds(t: Tables, m: LiveJob, v: Verdict, reply: Reply)
    requires Keyed(t)
    ensures Keyed(Apply(t, m, v, reply))
    ensures Apply(t, m, v, reply).workers.Keys == t.workers.Keys
    ensures Apply(t, m, v, reply).loads.Keys <= t.loads.Keys + t.workers.Keys
  {
  }

  lemma ScheduleOneIds(t: Tables, pick: string, reply: Reply)
    requires Keyed(t)
    ensures Keyed(ScheduleOne(t, pick, reply))
    ensures ScheduleOne(t, pick, reply).workers.Keys == t.workers.Keys
    ensures ScheduleOne(t, pick, reply).loads.Keys <= t.loads.Keys + t.workers.Keys
  {
    if t.queued == [] {
    } else {
      var rest := t.(queued := t.queued[1..]);
      ApplyIds(rest, t.queued[0], Decide(rest, t.queued[0], pick, reply), reply);
    }
  }

  lemma ScheduleKeepsIds(c: Cluster, e: Event)
    requires Enabled(c, e) && e.Schedule? && IdsOk(c)
    ensures IdsOk(Next(c, e))
  {
    ScheduleOneIds(c.tables, e.pick, ReplyTo(c, e.pick, e.net, e.ok));
    assert forall wid | wid in c.workers :: WorkersAfter(c, e.pick, e.net, e.pid, e.ok)[wid].id == wid;
    assert WorkersAfter(c, e.pick, e.net, e.pid, e.ok).Keys == c.workers.Keys;
  }

  lemma DeliverKeepsIds(c: Cluster, e: Event)
    requires Enabled(c, e) && e.Deliver? && IdsOk(c)
    ensures IdsOk(Next(c, e))
  {
    ReportFrame(c.tables, c.reports[e.i], c.clock);
  }

  lemma ApiKeepsIds(c: Cluster, e: Event)
    requires Enabled(c, e) && IdsOk(c) && (e.ApiCreate? || e.ApiStop? || e.ApiResume? || e.ApiDelete? || e.PollSqs?)
    ensures IdsOk(Next(c, e))
  {
    assert Next(c, e).workers == c.workers && Next(c, e).workerIds == c.workerIds;
  }

  lemma WorkerKeepsIds(c: Cluster, e: Event)
    requires Enabled(c, e) && IdsOk(c)
    requires e.CacheStats? || e.CheckJobs? || e.RegisterWorker? || e.WorkerBeat? || e.SweepWorkers? || e.ExitWorker?
    ensures IdsOk(Next(c, e))
  {
  }

  lemma IdsOkStep(c: Cluster, e: Event)
    requires Enabled(c, e) && IdsOk(c)
    ensures IdsOk(Next(c, e))
  {
    match e
    case Schedule(_, _, _, _) => ScheduleKeepsIds(c, e);
    case Deliver(_, _) => DeliverKeepsIds(c, e);
    case Lose(_) =>
    case Tick(_) =>
    case ApiCreate(_, _, _) => ApiKeepsIds(c, e);
    case ApiStop(_, _) => ApiKeepsIds(c, e);
    case ApiResume(_, _) => ApiKeepsIds(c, e);
    case ApiDelete(_) => ApiKeepsIds(c, e);
    case PollSqs(_, _) => ApiKeepsIds(c, e);
    case _ => WorkerKeepsIds(c, e);
  }

  // ----- Counting load entries -----

  function LoadIs(jid: string): JobLoad -> bool {
    (l: JobLoad) => l.id == jid
  }

  function RunsJob(jid: string): WorkerSpec.RunningJob -> bool {
    (e: WorkerSpec.RunningJob) => e.job.id == jid
  }

  function Is(jid: string): string -> bool {
    (x: string) => x == jid
  }

  /** How often a report says that a job of a worker has stopped. */
  function StoppedIn(wid: string, jid: string): WorkerJobReport -> int {
    (r: WorkerJobReport) => if r.workerId == wid then CountBy(r.stoppedJobs, Is(jid)) else 0
  }

  function LoadCount(t: Tables, wid: string, jid: string): nat {
    CountBy(LoadOf(t, wid).jobs, LoadIs(jid))
  }

  function RunCount(c: Cluster, wid: string, jid: string): nat
    requires wid in c.workers
  {
    CountBy(c.workers[wid].running, RunsJob(jid))
  }

  /** Running entries, stop reports on their way, and stop reports lost. */
  function Owed(c: Cluster, wid: string, jid: string): int
    requires wid in c.workers
  {
    RunCount(c, wid, jid) + SumBy(c.reports, StoppedIn(wid, jid)) + SumBy(c.lost, StoppedIn(wid, jid))
  }

  ghost predicate LoadBounded(c: Cluster, wid: string, jid: string) {
    wid in c.workers ==> LoadCount(c.tables, wid, jid) <= Owed(c, wid, jid)
  }

  lemma SubtractCounts(t: Tables, w: string, id: string, wid: string, jid: string)
    ensures var n := LoadCount(t, wid, jid);
            LoadCount(SubtractLoad(t, w, id), wid, jid) == if w == wid && id == jid && n > 0 then n - 1 else n
  {
    if w in t.loads {
      var l := t.loads[w];
      var i := FirstLoad(l.jobs, id);
      if i < |l.jobs| {
        CountByRemove(l.jobs, i, LoadIs(jid));
      }
      CountByZero(l.jobs, LoadIs(id));
    }
  }

  /** The stopped jobs of a report take as many load entries as they name, as far as there are any. */
  lemma {:induction false} StoppedCounts(t: Tables, w: string, jids: seq<string>, wid: string, jid: string)
    ensures var n, k := LoadCount(t, wid, jid), if w == wid then CountBy(jids, Is(jid)) else 0;
            LoadCount(ReportAllStopped(t, w, jids), wid, jid) == if n >= k then n - k else 0
    decreases |jids|
  {
    if jids == [] {
    } else {
      var front, id := jids[..|jids| - 1], jids[|jids| - 1];
      StoppedCounts(t, w, front, wid, jid);
      assert jids == front + [id];
      CountByPush(front, id, Is(jid));
      var t1 := ReportAllStopped(t, w, front);
      var t2 := if id in t1.jobs then PutJob(t1, Halted(t1.jobs[id])) else t1;
      assert LoadOf(t2, wid) == LoadOf(t1, wid);
      SubtractCounts(t2, w, id, wid, jid);
    }
  }

  lemma AddCounts(t: Tables, w: LiveWorker, id: string, wid: string, jid: string)
    ensures LoadCount(AddLoad(t, w, id), wid, jid)
         == LoadCount(t, wid, jid) + (if w.id == wid && id == jid then 1 else 0)
  {
    CountByPush(LoadOf(t, w.id).jobs, JobLoad(id, JOB_CPU_LOAD, JOB_BANDWIDTH_LOAD), LoadIs(jid));
  }

  /** A scheduling step adds a load entry exactly when it launches. */
  lemma ScheduleCounts(t: Tables, pick: string, reply: Reply, wid: string, jid: string)
    requires Keyed(t) && t.queued != [] && (reply.Launched? ==> reply.job.id == t.queued[0].id)
    ensures var v := Decide(t.(queued := t.queued[1..]), t.queued[0], pick, reply);
            (LoadCount(ScheduleOne(t, pick, reply), wid, jid)
             == LoadCount(t, wid, jid) + (if v == LaunchedOn(wid) && t.queued[0].id == jid then 1 else 0))
  {
    var rest := t.(queued := t.queued[1..]);
    var v := Decide(rest, t.queued[0], pick, reply);
    if v.LaunchedOn? {
      var t1 := PutJob(rest, Assigned(reply.job, v.wid));
      AddCounts(t1, rest.workers[v.wid], reply.job.id, wid, jid);
      assert LoadOf(t1, wid) == LoadOf(t, wid);
    }
  }

  /** A launch that the scheduler counts has reached the worker it counts it for. */
  lemma LaunchReaches(c: Cluster, e: Event, wid: string)
    requires Enabled(c, e) && e.Schedule? && c.tables.queued != []
    ensures VerdictOf(c, e.pick, e.net, e.ok) == LaunchedOn(wid) ==> PostsTo(c, e, wid)
  {
  }

  /** The request at the front is a create or resume, and reaches the worker. */
  predicate PostsTo(c: Cluster, e: Event, wid: string)
    requires e.Schedule? && c.tables.queued != []
  {
    Reaches(c, e.pick, e.net) && Target(Rest(c), c.tables.queued[0], e.pick).value == wid && !c.tables.queued[0].stop
  }

  /** A request that reaches a worker adds a running entry exactly when it is a create or resume. */
  lemma ScheduleRuns(c: Cluster, e: Event, wid: string, jid: string)
    requires Enabled(c, e) && e.Schedule? && c.tables.queued != [] && wid in c.workers
    ensures wid in Next(c, e).workers
    ensures RunCount(Next(c, e), wid, jid)
         == RunCount(c, wid, jid) + (if PostsTo(c, e, wid) && c.tables.queued[0].id == jid then 1 else 0)
  {
    var m, w, w' := c.tables.queued[0], c.workers[wid], WorkersAfter(c, e.pick, e.net, e.pid, e.ok)[wid];
    if PostsTo(c, e, wid) {
      assert w' == WorkerSpec.Post(w, m, e.pid, e.ok);
      CountByPush(w.running, w'.running[|w.running|], RunsJob(jid));
    } else {
      assert w'.running == w.running;
    }
  }

  lemma ScheduleBounded(c: Cluster, e: Event, wid: string, jid: string)
    requires Enabled(c, e) && e.Schedule? && IdsOk(c) && LoadBounded(c, wid, jid)
    ensures LoadBounded(Next(c, e), wid, jid)
  {
    if c.tables.queued == [] {
    } else if wid in c.workers {
      ScheduleCounts(c.tables, e.pick, ReplyTo(c, e.pick, e.net, e.ok), wid, jid);
      LaunchReaches(c, e, wid);
      ScheduleRuns(c, e, wid, jid);
    }
  }

  lemma {:induction false} CheckCounts(running: seq<WorkerSpec.RunningJob>, alive: set<nat>, jid: string)
    ensures CountBy(running, RunsJob(jid))
         == CountBy(Filter(running, WorkerSpec.Answers(alive)), RunsJob(jid))
            + CountBy(Map(Filter(running, WorkerSpec.Dead(alive)), WorkerSpec.JobIdOf()), Is(jid))
  {
    if running == [] {
    } else {
      CheckCounts(running[1..], alive, jid);
      var a := Filter(running[1..], WorkerSpec.Answers(alive));
      var d := Filter(running[1..], WorkerSpec.Dead(alive));
      if running[0].pid in alive {
        assert Filter(running, WorkerSpec.Answers(alive)) == [running[0]] + a;
        assert Filter(running, WorkerSpec.Dead(alive)) == d;
      } else {
        assert Filter(running, WorkerSpec.Answers(alive)) == a;
        assert Filter(running, WorkerSpec.Dead(alive)) == [running[0]] + d;
        MapConcat([running[0]], d, WorkerSpec.JobIdOf());
      }
    }
  }

  lemma CheckBounded(c: Cluster, e: Event, wid: string, jid: string)
    requires Enabled(c, e) && e.CheckJobs? && IdsOk(c) && LoadBounded(c, wid, jid)
    ensures LoadBounded(Next(c, e), wid, jid)
  {
    var w := c.workers[e.wid];
    CheckCounts(w.running, e.alive, jid);
    SumByPush(c.reports, WorkerSpec.CheckReport(w, e.alive), StoppedIn(wid, jid));
  }

  lemma {:induction false} SumByNonNegative(reports: seq<WorkerJobReport>, wid: string, jid: string)
    ensures SumBy(reports, StoppedIn(wid, jid)) >= 0
  {
    if reports == [] {
    } else {
      SumByNonNegative(reports[1..], wid, jid);
    }
  }

  lemma DeliverCounts(t: Tables, r: WorkerJobReport, now: int, wid: string, jid: string)
    ensures var n, k := LoadCount(t, wid, jid), StoppedIn(wid, jid)(r);
            k >= 0 && LoadCount(Report(t, r, now), wid, jid) == if n >= k then n - k else 0
  {
    var t1 := ReportAllStopped(t, r.workerId, r.stoppedJobs);
    StoppedCounts(t, r.workerId, r.stoppedJobs, wid, jid);
    ReportFrame(t, r, now);
    assert LoadOf(Report(t, r, now), wid) == LoadOf(t1, wid);
  }

  lemma DeliverBounded(c: Cluster, e: Event, wid: string, jid: string)
    requires Enabled(c, e) && e.Deliver? && IdsOk(c) && LoadBounded(c, wid, jid)
    ensures LoadBounded(Next(c, e), wid, jid)
  {
    var r := c.reports[e.i];
    DeliverCounts(c.tables, r, c.clock, wid, jid);
    SumByRemove(c.reports, e.i, StoppedIn(wid, jid));
    SumByNonNegative(Without(c.reports, e.i), wid, jid);
    SumByNonNegative(c.lost, wid, jid);
  }

  lemma LoseBounded(c: Cluster, e: Event, wid: string, jid: string)
    requires Enabled(c, e) && e.Lose? && LoadBounded(c, wid, jid)
    ensures LoadBounded(Next(c, e), wid, jid)
  {
    SumByRemove(c.reports, e.i, StoppedIn(wid, jid));
    SumByPush(c.lost, c.reports[e.i], StoppedIn(wid, jid));
  }

  lemma RegisterBounded(c: Cluster, e: Event, wid: string, jid: string)
    requires Enabled(c, e) && e.RegisterWorker? && IdsOk(c) && LoadBounded(c, wid, jid)
    ensures LoadBounded(Next(c, e), wid, jid)
  {
    SumByNonNegative(c.reports, wid, jid);
    SumByNonNegative(c.lost, wid, jid);
  }

  /** The other steps change neither loads nor running entries nor reports. */
  lemma OtherStepsBounded(c: Cluster, e: Event, wid: string, jid: string)
    requires Enabled(c, e) && LoadBounded(c, wid, jid)
    requires !e.Schedule? && !e.CheckJobs? && !e.Deliver? && !e.Lose? && !e.RegisterWorker?
    ensures LoadBounded(Next(c, e), wid, jid)
  {
    var c' := Next(c, e);
    assert c'.tables.loads == c.tables.loads && c'.reports == c.reports && c'.lost == c.lost;
    assert wid in c'.workers ==> wid in c.workers && c'.workers[wid].running == c.workers[wid].running;
  }

  lemma LoadBoundedStep(c: Cluster, e: Event, wid: string, jid: string)
    requires Enabled(c, e) && IdsOk(c) && LoadBounded(c, wid, jid)
    ensures LoadBounded(Next(c, e), wid, jid)
  {
    match e
    case Schedule(_, _, _, _) => ScheduleBounded(c, e, wid, jid);
    case CheckJobs(_, _) => CheckBounded(c, e, wid, jid);
    case Deliver(_, _) => DeliverBounded(c, e, wid, jid);
    case Lose(_) => LoseBounded(c, e, wid, jid);
    case RegisterWorker(_, _, _) => RegisterBounded(c, e, wid, jid);
    case _ => OtherStepsBounded(c, e, wid, jid);
  }

  lemma {:induction false} LoadBoundedAlways(c: Cluster, es: seq<Event>, wid: string, jid: string)
    requires Valid(c, es) && IdsOk(c) && LoadBounded(c, wid, jid)
    ensures IdsOk(Run(c, es)) && LoadBounded(Run(c, es), wid, jid)
    decreases |es|
  {
    if es == [] {
    } else {
      IdsOkStep(c, es[0]);
      LoadBoundedStep(c, es[0], wid, jid);
      LoadBoundedAlways(Next(c, es[0]), es[1..], wid, jid);
    }
  }

  /** In every run a load entry outlives its job only while, or because, a report is under way or lost. */
  lemma LoadReturnsWithJob(es: seq<Event>, wid: string, jid: string)
    requires Valid(Init(), es) && wid in Run(Init(), es).workers
    ensures var c := Run(Init(), es);
            LoadCount(c.tables, wid, jid)
            <= RunCount(c, wid, jid) + SumBy(c.reports, StoppedIn(wid, jid)) + SumBy(c.lost, StoppedIn(wid, jid))
  {
    LoadBoundedAlways(Init(), es, wid, jid);
  }
}
