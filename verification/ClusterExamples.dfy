/** Runs of the control plane in which a stop does not do what was asked. */
module ClusterExamples {
  import opened Sequences
  import opened JobModel
  import opened SchedulerSpec
  import opened Cluster
  import opened ClusterStops
  import Api = ApiServer
  import WorkerSpec

  lemma {:induction false} RunThen(c: Cluster, es: seq<Event>, e: Event)
    requires Valid(c, es) && Enabled(Run(c, es), e)
    ensures Valid(c, es + [e]) && Run(c, es + [e]) == Next(Run(c, es), e)
    decreases |es|
  {
    if es == [] {
      assert [] + [e] == [e] && [e][1..] == [];
    } else {
      assert (es + [e])[0] == es[0] && (es + [e])[1..] == es[1..] + [e];
      RunThen(Next(c, es[0]), es[1..], e);
    }
  }

  const INFO := WorkerInfo(4000, 80000, 1000000000)

  // ----- A job that runs -----

  /** The record once the worker has been given the job. */
  function OnWorker(spec: LiveJobSpec): LiveJob {
    Api.NewJob("j", spec, 0).(rtmpPort := 1935)
  }

  function Busy(spec: LiveJobSpec): WorkerSpec.Worker {
    WorkerSpec.Worker("w", 10001, map["j" := OnWorker(spec)], [WorkerSpec.RunningJob(OnWorker(spec), 1, 10001)],
                      WorkerSpec.InitialPorts()[1..], {}, [])
  }

  function Creating(spec: LiveJobSpec): seq<Event> {
    [RegisterWorker("w", INFO, 10001)] + [ApiCreate("j", spec, true)] + [PollSqs(0, true)]
  }

  function Launching(spec: LiveJobSpec): seq<Event> {
    Creating(spec) + [Schedule("w", Answered, 1, true)]
  }

  /** The job runs on the only worker, and nothing else is under way. */
  ghost predicate JobRuns(c: Cluster, spec: LiveJobSpec) {
    && c.clock == 0 && c.sqs == [] && c.tables.queued == [] && c.reports == []
    && c.tables.jobs == map["j" := Assigned(OnWorker(spec), "w")]
    && c.tables.workers == map["w" := LiveWorker("w", Loaded, INFO, 0)]
    && c.tables.loads == map["w" := WorkerLoad("w", [JobLoad("j", 1000, 20000)], 1000, 20000)]
    && c.workers == map["w" := Busy(spec)]
  }

  lemma PostToNew(spec: LiveJobSpec)
    ensures var w, m := WorkerSpec.NewWorker("w", 10001), Api.NewJob("j", spec, 0);
            WorkerSpec.Post(w, m, 1, true) == Busy(spec) && WorkerSpec.PostReply(w, m, true) == Launched(OnWorker(spec))
  {
    var w, m := WorkerSpec.NewWorker("w", 10001), Api.NewJob("j", spec, 0);
    assert WorkerSpec.WithPort(w, m) == OnWorker(spec);
    assert WorkerSpec.Post(w, m, 1, true).jobs == map["j" := OnWorker(spec)];
  }

  lemma Create(spec: LiveJobSpec)
    ensures Valid(Init(), Creating(spec))
    ensures var c, m := Run(Init(), Creating(spec)), Api.NewJob("j", spec, 0);
            && c.clock == 0 && c.sqs == [] && c.reports == []
            && c.tables == Tables(map["j" := m], map["w" := LiveWorker("w", Idle, INFO, 0)], map[], [m])
            && c.workers == map["w" := WorkerSpec.NewWorker("w", 10001)]
  {
    var m := Api.NewJob("j", spec, 0);
    var es := [RegisterWorker("w", INFO, 10001)];
    assert [] + es == es;
    RunThen(Init(), [], es[0]);
    RunThen(Init(), es, ApiCreate("j", spec, true));
    assert Run(Init(), es + [ApiCreate("j", spec, true)]).sqs == [m];
    RunThen(Init(), es + [ApiCreate("j", spec, true)], PollSqs(0, true));
  }

  lemma LaunchStep(c: Cluster, spec: LiveJobSpec)
    requires var m := Api.NewJob("j", spec, 0);
             && c.clock == 0 && c.sqs == [] && c.reports == []
             && c.tables == Tables(map["j" := m], map["w" := LiveWorker("w", Idle, INFO, 0)], map[], [m])
             && c.workers == map["w" := WorkerSpec.NewWorker("w", 10001)]
    ensures Enabled(c, Schedule("w", Answered, 1, true)) && JobRuns(Next(c, Schedule("w", Answered, 1, true)), spec)
  {
    assert "w" in AvailableWorkers(c.tables) && AvailableWorkers(Rest(c)) == AvailableWorkers(c.tables);
    PostToNew(spec);
    assert VerdictOf(c, "w", Answered, true) == LaunchedOn("w");
    assert LoadOf(c.tables, "w").jobs + [JobLoad("j", 1000, 20000)] == [JobLoad("j", 1000, 20000)];
    var t := Next(c, Schedule("w", Answered, 1, true)).tables;
    assert t.loads["w"] == WorkerLoad("w", [JobLoad("j", 1000, 20000)], 1000, 20000);
  }

  lemma Launch(spec: LiveJobSpec)
    ensures Valid(Init(), Launching(spec)) && JobRuns(Run(Init(), Launching(spec)), spec)
  {
    Create(spec);
    LaunchStep(Run(Init(), Creating(spec)), spec);
    RunThen(Init(), Creating(spec), Schedule("w", Answered, 1, true));
  }

  // ----- A job that is stopped and resumed -----

  function Halting(spec: LiveJobSpec): seq<Event> {
    Launching(spec) + [ApiStop("j", true)] + [PollSqs(0, true)] + [Schedule("w", Answered, 2, true)]
  }

  function Resuming(spec: LiveJobSpec): seq<Event> {
    Halting(spec) + [ApiResume("j", true)] + [PollSqs(0, true)] + [Schedule("w", Answered, 3, true)]
  }

  /** The job is stopped, its first process may still run, and nothing is under way. */
  ghost predicate JobHalted(c: Cluster, spec: LiveJobSpec) {
    && c.clock == 0 && c.sqs == [] && c.tables.queued == []
    && c.tables.jobs == map["j" := Released(Assigned(OnWorker(spec), "w"))]
    && c.tables.workers == map["w" := LiveWorker("w", Loaded, INFO, 0)]
    && c.tables.loads == map["w" := WorkerLoad("w", [JobLoad("j", 1000, 20000)], 1000, 20000)]
    && c.workers == map["w" := WorkerSpec.Stop(Busy(spec), "j", true)]
  }

  lemma HaltStep(c: Cluster, spec: LiveJobSpec)
    requires c.clock == 0 && c.sqs == [] && c.tables.queued == [StopOf(spec)]
    requires c.tables.jobs.Keys == {"j"}
    requires c.tables.workers == map["w" := LiveWorker("w", Loaded, INFO, 0)]
    requires c.tables.loads == map["w" := WorkerLoad("w", [JobLoad("j", 1000, 20000)], 1000, 20000)]
    requires c.workers == map["w" := Busy(spec)]
    ensures Enabled(c, Schedule("w", Answered, 2, true)) && JobHalted(Next(c, Schedule("w", Answered, 2, true)), spec)
  {
    assert "w" in AvailableWorkers(c.tables);
    assert WorkerSpec.FirstRunning(c.workers["w"].running, "j") == 0;
    assert VerdictOf(c, "w", Answered, true) == StoppedOn("w");
  }

  lemma Halt(spec: LiveJobSpec)
    ensures Valid(Init(), Halting(spec)) && JobHalted(Run(Init(), Halting(spec)), spec)
  {
    Launch(spec);
    var es := Launching(spec);
    RunThen(Init(), es, ApiStop("j", true));
    assert Run(Init(), es + [ApiStop("j", true)]).sqs == [StopOf(spec)];
    RunThen(Init(), es + [ApiStop("j", true)], PollSqs(0, true));
    HaltStep(Run(Init(), es + [ApiStop("j", true)] + [PollSqs(0, true)]), spec);
    RunThen(Init(), es + [ApiStop("j", true)] + [PollSqs(0, true)], Schedule("w", Answered, 2, true));
  }

  /** The record that the resume sends. */
  function ResumeOf(spec: LiveJobSpec): LiveJob {
    Released(Assigned(OnWorker(spec), "w"))
  }

  /** The last entry of the running list is that of the process. */
  predicate RunsLast(w: WorkerSpec.Worker, pid: nat) {
    w.running != [] && w.running[|w.running| - 1].pid == pid
  }

  lemma ResumeStep(c: Cluster, spec: LiveJobSpec)
    requires c.clock == 0 && c.sqs == [] && c.tables.queued == [ResumeOf(spec)]
    requires c.tables.jobs.Keys == {"j"}
    requires c.tables.workers == map["w" := LiveWorker("w", Loaded, INFO, 0)]
    requires c.tables.loads == map["w" := WorkerLoad("w", [JobLoad("j", 1000, 20000)], 1000, 20000)]
    requires "w" in c.workers && c.workers["w"].freePorts != []
    ensures Enabled(c, Schedule("w", Answered, 3, true))
    ensures var c' := Next(c, Schedule("w", Answered, 3, true));
            && "j" in c'.tables.jobs && c'.tables.jobs["j"].state == Running
            && c'.tables.jobs["j"].assignedWorker == "w"
            && c'.tables.queued == [] && c'.sqs == [] && "w" in c'.workers && "j" in c'.workers["w"].jobs
            && RunsLast(c'.workers["w"], 3)
  {
    assert "w" in AvailableWorkers(c.tables) && AvailableWorkers(Rest(c)) == AvailableWorkers(c.tables);
    assert VerdictOf(c, "w", Answered, true) == LaunchedOn("w");
  }

  /** A job that was launched and stopped is resumed: the record is sent and polled, and a new process runs. */
  lemma ResumeExample(spec: LiveJobSpec)
    ensures Valid(Init(), Halting(spec)) && IsStopped(Run(Init(), Halting(spec)).tables, "j")
    ensures Valid(Init(), Resuming(spec))
    ensures var c := Run(Init(), Resuming(spec));
            && "j" in c.tables.jobs && c.tables.jobs["j"].state == Running && c.tables.jobs["j"].assignedWorker == "w"
            && c.tables.queued == [] && c.sqs == [] && "w" in c.workers && "j" in c.workers["w"].jobs
            && RunsLast(c.workers["w"], 3)
  {
    Halt(spec);
    var es := Halting(spec);
    RunThen(Init(), es, ApiResume("j", true));
    assert Run(Init(), es + [ApiResume("j", true)]).sqs == [ResumeOf(spec)];
    RunThen(Init(), es + [ApiResume("j", true)], PollSqs(0, true));
    ResumeStep(Run(Init(), es + [ApiResume("j", true)] + [PollSqs(0, true)]), spec);
    RunThen(Init(), es + [ApiResume("j", true)] + [PollSqs(0, true)], Schedule("w", Answered, 3, true));
  }

  // ----- A late report -----

  const STATS := JobStats("j", 500, "20")

  function Reporting(spec: LiveJobSpec): seq<Event> {
    Launching(spec) + [CacheStats("w", "j", 500, "20")] + [CheckJobs("w", {1})]
  }

  function Stopping(spec: LiveJobSpec): seq<Event> {
    Reporting(spec) + [ApiStop("j", true)] + [PollSqs(0, true)] + [Schedule("w", Answered, 2, true)]
  }

  lemma Report(spec: LiveJobSpec)
    ensures Valid(Init(), Reporting(spec))
    ensures var c := Run(Init(), Reporting(spec));
            && c.reports == [WorkerJobReport("w", [], [STATS])] && c.sqs == [] && c.tables.queued == []
            && c.tables.jobs == map["j" := Assigned(OnWorker(spec), "w")] && "w" in AvailableWorkers(c.tables)
            && "w" in c.workers && c.workers["w"].running == Busy(spec).running && "j" in c.workers["w"].jobs
  {
    Launch(spec);
    var es := Launching(spec);
    var c := Run(Init(), es);
    assert "w" in AvailableWorkers(c.tables);
    RunThen(Init(), es, CacheStats("w", "j", 500, "20"));
    var c1 := Next(c, CacheStats("w", "j", 500, "20"));
    RunThen(Init(), es + [CacheStats("w", "j", 500, "20")], CheckJobs("w", {1}));
    ReportOfOne(c1.workers["w"]);
  }

  lemma ReportOfOne(w: WorkerSpec.Worker)
    requires w.id == "w" && |w.running| == 1 && w.running[0].pid == 1 && w.running[0].job.id == "j"
    requires "j" in w.jobs && w.jobs["j"].bandwidth == 500 && w.jobs["j"].cpu == "20"
    ensures WorkerSpec.CheckReport(w, {1}) == WorkerJobReport("w", [], [STATS])
    ensures WorkerSpec.Check(w, {1}).running == w.running && WorkerSpec.Check(w, {1}).jobs == w.jobs
  {
    assert w.running[1..] == [];
    assert Filter(w.running, WorkerSpec.Answers({1})) == w.running;
    assert Filter(w.running, WorkerSpec.Dead({1})) == [];
    assert Map(w.running, WorkerSpec.CachedStats(w.jobs)) == [STATS];
  }

  lemma Stop(spec: LiveJobSpec)
    ensures Valid(Init(), Stopping(spec))
    ensures var c := Run(Init(), Stopping(spec));
            && c.reports == [WorkerJobReport("w", [], [STATS])]
            && c.tables.jobs == map["j" := Released(Assigned(OnWorker(spec), "w").(stop := true))]
  {
    Report(spec);
    var es := Reporting(spec);
    var c := Run(Init(), es);
    RunThen(Init(), es, ApiStop("j", true));
    var c1 := Next(c, ApiStop("j", true));
    assert c1.sqs == [Assigned(OnWorker(spec), "w").(stop := true)];
    RunThen(Init(), es + [ApiStop("j", true)], PollSqs(0, true));
    var c2 := Next(c1, PollSqs(0, true));
    StopStep(c2, spec);
    RunThen(Init(), es + [ApiStop("j", true)] + [PollSqs(0, true)], Schedule("w", Answered, 2, true));
  }

  lemma StopStep(c: Cluster, spec: LiveJobSpec)
    requires c.tables.queued == [Assigned(OnWorker(spec), "w").(stop := true)] && "w" in AvailableWorkers(c.tables)
    requires c.tables.jobs.Keys == {"j"}
    requires "w" in c.workers && c.workers["w"].running == Busy(spec).running && "j" in c.workers["w"].jobs
    ensures Enabled(c, Schedule("w", Answered, 2, true))
    ensures var c' := Next(c, Schedule("w", Answered, 2, true));
            && c'.reports == c.reports
            && c'.tables.jobs == map["j" := Released(Assigned(OnWorker(spec), "w").(stop := true))]
  {
    assert WorkerSpec.FirstRunning(c.workers["w"].running, "j") == 0;
    assert VerdictOf(c, "w", Answered, true) == StoppedOn("w");
  }

  /** The stop of a running job is confirmed, and the stats report already on its way makes the job streaming again. */
  lemma LateReportExample(spec: LiveJobSpec)
    ensures Valid(Init(), Stopping(spec)) && IsStopped(Run(Init(), Stopping(spec)).tables, "j")
    ensures Valid(Init(), Stopping(spec) + [Deliver(0, false)])
    ensures var t := Run(Init(), Stopping(spec) + [Deliver(0, false)]).tables;
            "j" in t.jobs && t.jobs["j"].state == Streaming
  {
    Stop(spec);
    var c := Run(Init(), Stopping(spec));
    RunThen(Init(), Stopping(spec), Deliver(0, false));
    StatsOfOne(c.tables, STATS, c.clock);
  }

  lemma StatsOfOne(t: Tables, st: JobStats, now: int)
    ensures SchedulerSpec.Report(t, WorkerJobReport("w", [], [st]), now) == ReportStats(t, st, now)
  {
    assert [st][..0] == [];
    assert ReportAllStopped(t, "w", []) == t;
    assert ReportAllStats(t, [], now) == t;
  }

  // ----- A stop that is discarded -----

  function Asking(spec: LiveJobSpec): seq<Event> {
    [ApiCreate("j", spec, true)] + [ApiStop("j", true)]
  }

  function Polling(spec: LiveJobSpec): seq<Event> {
    Asking(spec) + [PollSqs(0, true)] + [PollSqs(0, true)]
  }

  function Overtaking(spec: LiveJobSpec): seq<Event> {
    Polling(spec) + [Schedule("", NotReached, 1, true)] + [Schedule("", NotReached, 1, true)]
  }

  /** No worker is registered, and nothing is under way but the given messages. */
  ghost predicate NoWorkers(c: Cluster) {
    && c.clock == 0 && c.reports == [] && c.settled == []
    && c.workers == map[] && c.workerIds == {} && c.tables.workers == map[] && c.tables.loads == map[]
  }

  lemma Ask(spec: LiveJobSpec)
    ensures Valid(Init(), Asking(spec))
    ensures var c, m := Run(Init(), Asking(spec)), Api.NewJob("j", spec, 0);
            NoWorkers(c) && c.sqs == [m] + [m.(stop := true)] && c.tables.queued == []
  {
    var m, es := Api.NewJob("j", spec, 0), [ApiCreate("j", spec, true)];
    assert [] + es == es;
    RunThen(Init(), [], es[0]);
    assert Run(Init(), es).sqs == [m];
    RunThen(Init(), es, ApiStop("j", true));
  }

  lemma PollCreate(c: Cluster, m: LiveJob)
    requires NoWorkers(c) && c.sqs == [m] + [m.(stop := true)] && c.tables.queued == []
    requires !m.stop && m.receivedMs == 0
    ensures var c' := Next(c, PollSqs(0, true));
            NoWorkers(c') && c'.sqs == [m.(stop := true)] && c'.tables.queued == [m]
  {
    assert Received(m, 0) == m;
  }

  lemma PollStop(c: Cluster, m: LiveJob)
    requires NoWorkers(c) && c.sqs == [m.(stop := true)] && c.tables.queued == [m]
    ensures var c' := Next(c, PollSqs(0, true));
            NoWorkers(c') && c'.sqs == [] && c'.tables.queued == [m] + [m.(stop := true)]
  {
  }

  lemma Poll(spec: LiveJobSpec)
    ensures Valid(Init(), Polling(spec))
    ensures var c, m := Run(Init(), Polling(spec)), Api.NewJob("j", spec, 0);
            NoWorkers(c) && c.sqs == [] && c.tables.queued == [m] + [m.(stop := true)]
  {
    var m, es := Api.NewJob("j", spec, 0), Asking(spec);
    Ask(spec);
    PollCreate(Run(Init(), es), m);
    RunThen(Init(), es, PollSqs(0, true));
    PollStop(Run(Init(), es + [PollSqs(0, true)]), m);
    RunThen(Init(), es + [PollSqs(0, true)], PollSqs(0, true));
  }

  lemma StopDiscarded(spec: LiveJobSpec)
    ensures Valid(Init(), Overtaking(spec))
    ensures var c, m := Run(Init(), Overtaking(spec)), Api.NewJob("j", spec, 0);
            && NoWorkers(c.(settled := [])) && c.sqs == [] && c.tables.queued == [m]
            && c.settled == [Settled("j", true, Discarded)]
  {
    var m, es, e := Api.NewJob("j", spec, 0), Polling(spec), Schedule("", NotReached, 1, true);
    Poll(spec);
    CreateWaits(Run(Init(), es), m);
    RunThen(Init(), es, e);
    StopGoes(Run(Init(), es + [e]), m);
    RunThen(Init(), es + [e], e);
  }

  lemma CreateWaits(c: Cluster, m: LiveJob)
    requires NoWorkers(c) && c.sqs == [] && c.tables.queued == [m] + [m.(stop := true)] && !m.stop && !m.delete
    ensures Enabled(c, Schedule("", NotReached, 1, true))
    ensures var c' := Next(c, Schedule("", NotReached, 1, true));
            NoWorkers(c') && c'.sqs == [] && c'.tables.queued == [m.(stop := true), m]
  {
    assert AvailableWorkers(c.tables) == {};
  }

  lemma StopGoes(c: Cluster, m: LiveJob)
    requires NoWorkers(c) && c.sqs == [] && c.tables.queued == [m.(stop := true), m] && m.assignedWorker == ""
    ensures Enabled(c, Schedule("", NotReached, 1, true))
    ensures var c' := Next(c, Schedule("", NotReached, 1, true));
            && NoWorkers(c'.(settled := [])) && c'.sqs == [] && c'.tables.queued == [m]
            && c'.settled == [Settled(m.id, true, Discarded)]
  {
    assert AvailableWorkers(c.tables) == {};
  }

  /** A job stopped before a worker was found: the stop is discarded, and the job runs when a worker comes. */
  lemma DiscardedStopExample(spec: LiveJobSpec)
    ensures var es := Overtaking(spec) + [RegisterWorker("w", INFO, 10001)] + [Schedule("w", Answered, 1, true)];
            && Valid(Init(), es)
            && var c := Run(Init(), es);
               && c.settled == [Settled("j", true, Discarded), Settled("j", false, LaunchedOn("w"))]
               && c.sqs == [] && c.tables.queued == []
               && "j" in c.tables.jobs && c.tables.jobs["j"].state == Running
               && "w" in c.workers && c.workers["w"] == Busy(spec)
  {
    StopDiscarded(spec);
    var es, register := Overtaking(spec), RegisterWorker("w", INFO, 10001);
    RunThen(Init(), es, register);
    var c1 := Run(Init(), es + [register]);
    OvertakenLaunch(c1, spec);
    RunThen(Init(), es + [register], Schedule("w", Answered, 1, true));
  }

  lemma OvertakenLaunch(c: Cluster, spec: LiveJobSpec)
    requires c.tables.queued == [Api.NewJob("j", spec, 0)] && c.sqs == [] && c.tables.loads == map[]
    requires c.tables.workers == map["w" := LiveWorker("w", Idle, INFO, 0)]
    requires c.workers == map["w" := WorkerSpec.NewWorker("w", 10001)]
    ensures Enabled(c, Schedule("w", Answered, 1, true))
    ensures var c' := Next(c, Schedule("w", Answered, 1, true));
            && c'.settled == c.settled + [Settled("j", false, LaunchedOn("w"))]
            && c'.sqs == [] && c'.tables.queued == []
            && "j" in c'.tables.jobs && c'.tables.jobs["j"].state == Running
            && "w" in c'.workers && c'.workers["w"] == Busy(spec)
  {
    assert "w" in AvailableWorkers(c.tables) && AvailableWorkers(Rest(c)) == AvailableWorkers(c.tables);
    PostToNew(spec);
    assert VerdictOf(c, "w", Answered, true) == LaunchedOn("w");
  }

  // ----- A stop that is put back for ever -----

  function PollingTwice(spec: LiveJobSpec): seq<Event> {
    Launching(spec) + [ApiStop("j", true)] + [PollSqs(0, false)] + [PollSqs(0, true)]
  }

  function StoppingTwice(spec: LiveJobSpec): seq<Event> {
    PollingTwice(spec) + [Schedule("w", Answered, 2, true)]
  }

  function StopOf(spec: LiveJobSpec): LiveJob {
    Assigned(OnWorker(spec), "w").(stop := true)
  }

  lemma PollTwice(spec: LiveJobSpec)
    ensures Valid(Init(), PollingTwice(spec))
    ensures var c := Run(Init(), PollingTwice(spec));
            && c.tables.queued == [StopOf(spec)] + [StopOf(spec)]
            && c.tables.workers == map["w" := LiveWorker("w", Loaded, INFO, 0)] && c.workers == map["w" := Busy(spec)]
  {
    Launch(spec);
    var es, m := Launching(spec), StopOf(spec);
    RunThen(Init(), es, ApiStop("j", true));
    var es1 := es + [ApiStop("j", true)];
    assert Run(Init(), es1).sqs == [m];
    RunThen(Init(), es1, PollSqs(0, false));
    var es2 := es1 + [PollSqs(0, false)];
    assert Run(Init(), es2).sqs == [m] && Run(Init(), es2).tables.queued == [m];
    RunThen(Init(), es2, PollSqs(0, true));
  }

  lemma FirstStop(c: Cluster, spec: LiveJobSpec)
    requires c.tables.queued == [StopOf(spec)] + [StopOf(spec)]
    requires c.tables.workers == map["w" := LiveWorker("w", Loaded, INFO, 0)] && c.workers == map["w" := Busy(spec)]
    ensures Enabled(c, Schedule("w", Answered, 2, true))
    ensures var c' := Next(c, Schedule("w", Answered, 2, true));
            && IsStopped(c'.tables, "j") && c'.tables.queued == [StopOf(spec)]
            && c'.tables.workers == c.tables.workers && "w" in c'.workers && "j" !in c'.workers["w"].jobs
  {
    assert "w" in AvailableWorkers(c.tables);
    assert WorkerSpec.FirstRunning(c.workers["w"].running, "j") == 0;
    assert VerdictOf(c, "w", Answered, true) == StoppedOn("w");
  }

  lemma SecondStop(c: Cluster, spec: LiveJobSpec, net: Net, pid: nat, ok: bool)
    requires c.tables.queued == [StopOf(spec)] && c.tables.workers == map["w" := LiveWorker("w", Loaded, INFO, 0)]
    requires "w" in c.workers && "j" !in c.workers["w"].jobs
    ensures Enabled(c, Schedule("w", net, pid, ok)) && Next(c, Schedule("w", net, pid, ok)).tables == c.tables
  {
    assert "w" in AvailableWorkers(c.tables);
    assert VerdictOf(c, "w", net, ok) == Rebuffered;
    assert c.tables.queued[1..] + [c.tables.queued[0]] == c.tables.queued;
  }

  /** SQS delivers a stop twice; the second copy stays in queued_jobs, whatever becomes of its request. */
  lemma RebufferedStopExample(spec: LiveJobSpec, net: Net, pid: nat, ok: bool)
    ensures Valid(Init(), StoppingTwice(spec))
    ensures var c := Run(Init(), StoppingTwice(spec));
            && IsStopped(c.tables, "j") && c.tables.queued == [StopOf(spec)]
            && Enabled(c, Schedule("w", net, pid, ok)) && Next(c, Schedule("w", net, pid, ok)).tables == c.tables
  {
    PollTwice(spec);
    FirstStop(Run(Init(), PollingTwice(spec)), spec);
    RunThen(Init(), PollingTwice(spec), Schedule("w", Answered, 2, true));
    SecondStop(Run(Init(), StoppingTwice(spec)), spec, net, pid, ok);
  }
}
