/**
  What the scheduler's handlers do to the tables it shares with the other servers through
  Redis. Each function is the specification of a method of class Scheduler.
 */
module SchedulerSpec {
  import opened Sequences
  import opened JobModel

  /** queued_jobs is kept here oldest message first; module RedisClient relates that to the Redis list. */
  datatype Tables = Tables(jobs: map<string, LiveJob>, workers: map<string, LiveWorker>,
                           loads: map<string, WorkerLoad>, queued: seq<LiveJob>)

  /** What the scheduler learns from one request to a worker. */
  datatype Reply = NoAnswer | Launched(job: LiveJob) | StopOk | JobNotFound | ServerError

  ghost predicate Keyed(t: Tables) {
    && (forall k | k in t.jobs :: t.jobs[k].id == k)
    && (forall k | k in t.workers :: t.workers[k].id == k)
  }

  function PutJob(t: Tables, j: LiveJob): Tables {
    t.(jobs := t.jobs[j.id := j])
  }

  function Buffer(t: Tables, j: LiveJob): Tables {
    t.(queued := t.queued + [j])
  }

  // ----- Changes made to one job record -----

  /** State "stopped" with the stats reset. */
  function Halted(j: LiveJob): LiveJob {
    j.(state := Stopped, bandwidth := 0, cpu := "")
  }

  /** The record stored once a worker has confirmed a stop. */
  function Released(j: LiveJob): LiveJob {
    Halted(j).(assignedWorker := "", stop := false)
  }

  function Received(j: LiveJob, now: int): LiveJob {
    j.(receivedMs := now)
  }

  function Assigned(j: LiveJob, wid: string): LiveJob {
    j.(assignedWorker := wid, state := Running)
  }

  /** One entry of a worker's stats report applied to the stored record. */
  function Accounted(j: LiveJob, st: JobStats, now: int): LiveJob {
    var active := st.bandwidth > INGEST_BANDWIDTH_THRESHOLD_KBPS;
    var reported := j.lastReportMs > 0;
    j.(state := if active then Streaming else Running,
       bandwidth := st.bandwidth,
       cpu := st.cpu,
       bytesIngested := j.bytesIngested + (if reported then TruncDiv((now - j.lastReportMs) * st.bandwidth, 8) else 0),
       upSeconds := TruncDiv(now - j.createdMs, 1000),
       activeSeconds := j.activeSeconds + (if active && reported then TruncDiv(now - j.lastReportMs, 1000) else 0),
       lastReportMs := now)
  }

  // ----- Polling SQS -----

  function Polled(m: LiveJob, now: int): LiveJob {
    if m.stop then m else Received(m, now)
  }

  function Poll(t: Tables, m: LiveJob, now: int): Tables {
    Buffer(if m.stop then t else PutJob(t, Polled(m, now)), Polled(m, now))
  }

  // ----- Worker loads -----

  function LoadOf(t: Tables, wid: string): WorkerLoad {
    if wid in t.loads then t.loads[wid] else WorkerLoad("", [], 0, 0)
  }

  function AddLoad(t: Tables, w: LiveWorker, jid: string): Tables {
    var l := LoadOf(t, w.id);
    t.(loads := t.loads[w.id := WorkerLoad(w.id, l.jobs + [JobLoad(jid, JOB_CPU_LOAD, JOB_BANDWIDTH_LOAD)],
                                           l.cpu + JOB_CPU_LOAD, l.bandwidth + JOB_BANDWIDTH_LOAD)],
       workers := t.workers[w.id := w.(status := Loaded)])
  }

  /** The position of the first load entry of a job. */
  function FirstLoad(loads: seq<JobLoad>, jid: string): (i: nat)
    ensures i <= |loads|
    ensures forall k | 0 <= k < i :: loads[k].id != jid
    ensures i < |loads| ==> loads[i].id == jid
  {
    if loads == [] then 0
    else if loads[0].id == jid then 0
    else 1 + FirstLoad(loads[1..], jid)
  }

  function DropLoad(l: WorkerLoad, jid: string): WorkerLoad {
    var i := FirstLoad(l.jobs, jid);
    if i < |l.jobs| then
      l.(jobs := l.jobs[..i] + l.jobs[i + 1..],
         cpu := l.cpu - l.jobs[i].cpu,
         bandwidth := l.bandwidth - l.jobs[i].bandwidth)
    else l
  }

  function SubtractLoad(t: Tables, wid: string, jid: string): Tables {
    if wid in t.loads then t.(loads := t.loads[wid := DropLoad(t.loads[wid], jid)]) else t
  }

  // ----- Scheduling -----

  function AvailableWorkers(t: Tables): set<string> {
    set wid | wid in t.workers && t.workers[wid].status != NotAvailable
  }

  predicate HasCapacity(t: Tables, wid: string)
    requires wid in t.workers
  {
    && LoadOf(t, wid).cpu < t.workers[wid].info.cpuCapacity
    && LoadOf(t, wid).bandwidth < t.workers[wid].info.bandwidthCapacity
  }

  /** The worker that is sent message j, if any. pick is the random choice among the available workers. */
  function Target(t: Tables, j: LiveJob, pick: string): Option<string> {
    if !j.stop && !j.delete then
      if pick in AvailableWorkers(t) && HasCapacity(t, pick) then Some(pick) else None
    else if j.stop && j.assignedWorker != "" && j.assignedWorker in t.workers then Some(j.assignedWorker)
    else None
  }

  /** What becomes of the message at the front of queued_jobs. */
  datatype Verdict = Rebuffered | LaunchedOn(wid: string) | StoppedOn(wid: string) | Discarded

  function Decide(t: Tables, j: LiveJob, pick: string, reply: Reply): Verdict {
    if !j.stop && !j.delete then
      if Target(t, j, pick).Some? && reply.Launched? then LaunchedOn(pick) else Rebuffered
    else if Target(t, j, pick).None? then Discarded
    else if reply.StopOk? then StoppedOn(j.assignedWorker)
    else Rebuffered
  }

  function Apply(t: Tables, j: LiveJob, v: Verdict, reply: Reply): Tables {
    match v
    case Rebuffered => Buffer(t, j)
    case Discarded => t
    case StoppedOn(_) => PutJob(t, Released(j))
    case LaunchedOn(wid) =>
      if wid in t.workers && reply.Launched? then
        AddLoad(PutJob(t, Assigned(reply.job, wid)), t.workers[wid], reply.job.id)
      else t
  }

  function ScheduleOne(t: Tables, pick: string, reply: Reply): Tables {
    if t.queued == [] then t
    else
      var rest := t.(queued := t.queued[1..]);
      Apply(rest, t.queued[0], Decide(rest, t.queued[0], pick, reply), reply)
  }

  // ----- Worker reports -----

  function ReportStopped(t: Tables, wid: string, jid: string): Tables {
    SubtractLoad(if jid in t.jobs then PutJob(t, Halted(t.jobs[jid])) else t, wid, jid)
  }

  function ReportAllStopped(t: Tables, wid: string, jids: seq<string>): Tables {
    if jids == [] then t
    else ReportStopped(ReportAllStopped(t, wid, jids[..|jids| - 1]), wid, jids[|jids| - 1])
  }

  function ReportStats(t: Tables, st: JobStats, now: int): Tables {
    if st.id in t.jobs then PutJob(t, Accounted(t.jobs[st.id], st, now)) else t
  }

  function ReportAllStats(t: Tables, stats: seq<JobStats>, now: int): Tables {
    if stats == [] then t
    else ReportStats(ReportAllStats(t, stats[..|stats| - 1], now), stats[|stats| - 1], now)
  }

  function Report(t: Tables, r: WorkerJobReport, now: int): Tables {
    ReportAllStats(ReportAllStopped(t, r.workerId, r.stoppedJobs), r.stats, now)
  }

  // ----- Heartbeats -----

  predicate Expired(w: LiveWorker, now: int) {
    now - w.lastHeartbeatMs > TruncDiv(MAX_MISSING_HEARTBEATS * w.info.heartbeatIntervalNs, 1000000)
  }

  predicate LoadNames(t: Tables, wid: string, jid: string) {
    wid in t.loads && exists i | 0 <= i < |t.loads[wid].jobs| :: t.loads[wid].jobs[i].id == jid
  }

  /** The job is listed in the load of one of the given workers. */
  predicate ListedIn(t: Tables, wids: set<string>, jid: string) {
    exists wid | wid in wids :: LoadNames(t, wid, jid)
  }

  function ExpiredWorkers(t: Tables, now: int): set<string> {
    set wid | wid in t.workers && Expired(t.workers[wid], now)
  }

  /** The tables after the given workers have been removed. */
  function Removed(t: Tables, wids: set<string>): Tables {
    t.(workers := map wid | wid in t.workers && wid !in wids :: t.workers[wid],
       jobs := map jid | jid in t.jobs :: if ListedIn(t, wids, jid) then Halted(t.jobs[jid]) else t.jobs[jid])
  }

  function Sweep(t: Tables, now: int): Tables {
    Removed(t, ExpiredWorkers(t, now))
  }

  function Register(t: Tables, wid: string, info: WorkerInfo, now: int): Tables {
    t.(workers := t.workers[wid := LiveWorker(wid, Idle, info, now)])
  }

  function Heartbeat(t: Tables, wid: string, sentMs: int): Tables {
    if wid in t.workers then t.(workers := t.workers[wid := t.workers[wid].(lastHeartbeatMs := sentMs)]) else t
  }
}
