/**
  The whole control plane as one state and one step relation: the API server, SQS, the
  scheduler's tables, the worker processes and the reports in flight between them.
 */
module Cluster {
  import opened JobModel
  import opened SchedulerSpec
  import Api = ApiServer
  import WorkerSpec

  /** A message that has left queued_jobs for good. */
  datatype Settled = Settled(id: string, stop: bool, verdict: Verdict)

  /** A launch that reached the worker and that the scheduler did not count: it failed, or its answer was lost. */
  datatype Uncounted = Uncounted(wid: string, id: string)

  /**
    workers holds the worker processes that have not exited. The last eight fields are history:
    reports that never arrived, reports at each arrival that was not their last, launches that were
    not counted, messages SQS accepted, messages received but not deleted, messages settled, and
    the ids handed out.
   */
  datatype Cluster = Cluster(tables: Tables, sqs: seq<LiveJob>, workers: map<string, WorkerSpec.Worker>,
                             reports: seq<WorkerJobReport>, clock: nat,
                             lost: seq<WorkerJobReport>, again: seq<WorkerJobReport>, uncounted: seq<Uncounted>,
                             sent: seq<LiveJob>, redelivered: seq<LiveJob>,
                             settled: seq<Settled>, jobIds: set<string>, workerIds: set<string>)

  /** How far a request to a worker gets. */
  datatype Net = NotReached | AnswerLost | Answered

  datatype Event =
    | ApiCreate(id: string, spec: LiveJobSpec, sendOk: bool)
    | ApiStop(id: string, sendOk: bool)
    | ApiResume(id: string, sendOk: bool)
    | ApiDelete(id: string)
    | PollSqs(i: nat, deleteOk: bool)
    | Schedule(pick: string, net: Net, pid: nat, ok: bool)
    | CacheStats(wid: string, id: string, bandwidth: int, cpu: string)
    | CheckJobs(wid: string, alive: set<nat>)
    | Deliver(i: nat, again: bool)
    | Lose(i: nat)
    | RegisterWorker(wid: string, info: WorkerInfo, udpPortBase: int)
    | WorkerBeat(wid: string, sentMs: int)
    | SweepWorkers
    | ExitWorker(wid: string)
    | Tick(ms: nat)

  function Init(): Cluster {
    Cluster(Tables(map[], map[], map[], []), [], map[], [], 0, [], [], [], [], [], [], {}, {})
  }

  predicate Enabled(c: Cluster, e: Event) {
    match e
    case ApiCreate(id, _, _) => id !in c.jobIds
    case PollSqs(i, _) => i < |c.sqs|
    case Schedule(pick, _, _, _) => AvailableWorkers(c.tables) != {} ==> pick in AvailableWorkers(c.tables)
    case CacheStats(wid, _, _, _) => wid in c.workers
    case CheckJobs(wid, _) => wid in c.workers
    case Deliver(i, _) => i < |c.reports|
    case Lose(i) => i < |c.reports|
    case RegisterWorker(wid, _, _) => wid != "" && wid !in c.workerIds
    case _ => true
  }

  function Without<T>(s: seq<T>, i: nat): seq<T>
    requires i < |s|
  {
    s[..i] + s[i + 1..]
  }

  function WithFront(c: Cluster, f: Api.Front): Cluster {
    c.(tables := f.tables, sqs := f.sqs, sent := c.sent + f.sqs[if |c.sqs| <= |f.sqs| then |c.sqs| else |f.sqs|..])
  }

  // ----- One scheduling step together with the request it makes -----

  function Rest(c: Cluster): Tables {
    c.tables.(queued := if c.tables.queued == [] then [] else c.tables.queued[1..])
  }

  predicate Reaches(c: Cluster, pick: string, net: Net) {
    && c.tables.queued != []
    && !net.NotReached?
    && var target := Target(Rest(c), c.tables.queued[0], pick);
       target.Some? && target.value in c.workers
  }

  function ReplyTo(c: Cluster, pick: string, net: Net, ok: bool): Reply {
    if Reaches(c, pick, net) && net.Answered? then
      var m := c.tables.queued[0];
      var w := c.workers[Target(Rest(c), m, pick).value];
      if m.stop then WorkerSpec.StopReply(w, m.id, ok) else WorkerSpec.PostReply(w, m, ok)
    else NoAnswer
  }

  function WorkersAfter(c: Cluster, pick: string, net: Net, pid: nat, ok: bool): map<string, WorkerSpec.Worker> {
    if Reaches(c, pick, net) then
      var m := c.tables.queued[0];
      var wid := Target(Rest(c), m, pick).value;
      var w := c.workers[wid];
      c.workers[wid := if m.stop then WorkerSpec.Stop(w, m.id, ok) else WorkerSpec.Post(w, m, pid, ok)]
    else c.workers
  }

  function VerdictOf(c: Cluster, pick: string, net: Net, ok: bool): Verdict
    requires c.tables.queued != []
  {
    Decide(Rest(c), c.tables.queued[0], pick, ReplyTo(c, pick, net, ok))
  }

  function SettledAfter(c: Cluster, pick: string, net: Net, ok: bool): seq<Settled> {
    if c.tables.queued == [] || VerdictOf(c, pick, net, ok).Rebuffered? then c.settled
    else c.settled + [Settled(c.tables.queued[0].id, c.tables.queued[0].stop, VerdictOf(c, pick, net, ok))]
  }

  function UncountedAfter(c: Cluster, pick: string, net: Net, ok: bool): seq<Uncounted> {
    if Reaches(c, pick, net) && !c.tables.queued[0].stop && !VerdictOf(c, pick, net, ok).LaunchedOn? then
      c.uncounted + [Uncounted(Target(Rest(c), c.tables.queued[0], pick).value, c.tables.queued[0].id)]
    else c.uncounted
  }

  function ScheduleStep(c: Cluster, pick: string, net: Net, pid: nat, ok: bool): Cluster {
    c.(tables := ScheduleOne(c.tables, pick, ReplyTo(c, pick, net, ok)),
       workers := WorkersAfter(c, pick, net, pid, ok),
       uncounted := UncountedAfter(c, pick, net, ok),
       settled := SettledAfter(c, pick, net, ok))
  }

  function Next(c: Cluster, e: Event): Cluster
    requires Enabled(c, e)
  {
    match e
    case ApiCreate(id, spec, sendOk) =>
      WithFront(c, Api.Create(Api.Front(c.tables, c.sqs), id, spec, c.clock, sendOk)).(jobIds := c.jobIds + {id})
    case ApiStop(id, sendOk) => WithFront(c, Api.Stop(Api.Front(c.tables, c.sqs), id, sendOk))
    case ApiResume(id, sendOk) => WithFront(c, Api.Resume(Api.Front(c.tables, c.sqs), id, sendOk))
    case ApiDelete(id) => WithFront(c, Api.Delete(Api.Front(c.tables, c.sqs), id))
    case PollSqs(i, deleteOk) =>
      c.(tables := Poll(c.tables, c.sqs[i], c.clock),
         sqs := if deleteOk then Without(c.sqs, i) else c.sqs,
         redelivered := if deleteOk then c.redelivered else c.redelivered + [c.sqs[i]])
    case Schedule(pick, net, pid, ok) => ScheduleStep(c, pick, net, pid, ok)
    case CacheStats(wid, id, bandwidth, cpu) =>
      c.(workers := c.workers[wid := WorkerSpec.CacheStats(c.workers[wid], id, bandwidth, cpu)])
    case CheckJobs(wid, alive) =>
      c.(workers := c.workers[wid := WorkerSpec.Check(c.workers[wid], alive)],
         reports := c.reports + [WorkerSpec.CheckReport(c.workers[wid], alive)])
    case Deliver(i, again) =>
      c.(tables := Report(c.tables, c.reports[i], c.clock),
         reports := if again then c.reports else Without(c.reports, i),
         again := if again then c.again + [c.reports[i]] else c.again)
    case Lose(i) => c.(reports := Without(c.reports, i), lost := c.lost + [c.reports[i]])
    case RegisterWorker(wid, info, udpPortBase) =>
      c.(tables := Register(c.tables, wid, info, c.clock),
         workers := c.workers[wid := WorkerSpec.NewWorker(wid, udpPortBase)],
         workerIds := c.workerIds + {wid})
    case WorkerBeat(wid, sentMs) => c.(tables := Heartbeat(c.tables, wid, sentMs))
    case SweepWorkers => c.(tables := Sweep(c.tables, c.clock))
    case ExitWorker(wid) => c.(workers := c.workers - {wid})
    case Tick(ms) => c.(clock := c.clock + ms)
  }

  predicate Valid(c: Cluster, es: seq<Event>)
    decreases |es|
  {
    es != [] ==> Enabled(c, es[0]) && Valid(Next(c, es[0]), es[1..])
  }

  function Run(c: Cluster, es: seq<Event>): Cluster
    requires Valid(c, es)
    decreases |es|
  {
    if es == [] then c else Run(Next(c, es[0]), es[1..])
  }
}
