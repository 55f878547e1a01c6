/** What holds of every job record, in the jobs table and in every message, in every run. */
module ClusterRecords {
  import opened JobModel
  import opened SchedulerSpec
  import opened Cluster
  import Api = ApiServer
  import WorkerSpec

  /**
    row holds of every stored record, msg of every message in SQS or queued_jobs, and bw of
    every bandwidth reading on its way to the tables.
   */
  ghost predicate Everywhere(c: Cluster, row: LiveJob -> bool, msg: LiveJob -> bool, bw: int -> bool) {
    && RowsOk(c.tables, row)
    && MessagesOk(c.sqs, msg)
    && MessagesOk(c.tables.queued, msg)
    && (forall wid | wid in c.workers :: CacheOk(c.workers[wid], bw))
    && (forall i | 0 <= i < |c.reports| :: StatsOk(c.reports[i].stats, bw))
  }

  ghost predicate RowsOk(t: Tables, row: LiveJob -> bool) {
    forall k | k in t.jobs :: t.jobs[k].id == k && row(t.jobs[k])
  }

  ghost predicate MessagesOk(s: seq<LiveJob>, msg: LiveJob -> bool) {
    forall i | 0 <= i < |s| :: msg(s[i])
  }

  ghost predicate CacheOk(w: WorkerSpec.Worker, bw: int -> bool) {
    forall jid | jid in w.jobs :: bw(w.jobs[jid].bandwidth)
  }

  ghost predicate StatsOk(stats: seq<JobStats>, bw: int -> bool) {
    forall i | 0 <= i < |stats| :: bw(stats[i].bandwidth)
  }

  ghost predicate ApiEdits(row: LiveJob -> bool, msg: LiveJob -> bool, now: nat) {
    && (forall id, spec :: row(Api.NewJob(id, spec, now)) && msg(Api.NewJob(id, spec, now)))
    && (forall j {:trigger Api.Asked(j, true)} | row(j) && j.state != Stopped ::
          row(Api.Asked(j, true)) && msg(Api.Asked(j, true)))
    && (forall j {:trigger Api.Asked(j, false)} | row(j) && (j.state == Created || j.state == Stopped) ::
          row(Api.Asked(j, false)) && msg(Api.Asked(j, false)))
  }

  /** The record stored after a launch: the worker set the port, the scheduler the rest. */
  function Placed(m: LiveJob, port: int, wid: string): LiveJob {
    Assigned(m.(rtmpPort := port), wid)
  }

  ghost predicate SchedulerEdits(row: LiveJob -> bool, msg: LiveJob -> bool, now: nat) {
    && (forall m {:trigger Received(m, now)} | msg(m) && !m.stop :: row(Received(m, now)) && msg(Received(m, now)))
    && (forall m, port, wid {:trigger Placed(m, port, wid)} | msg(m) && !m.stop :: row(Placed(m, port, wid)))
    && (forall m {:trigger Released(m)} | msg(m) && m.stop :: row(Released(m)))
    && (forall j {:trigger Halted(j)} | row(j) :: row(Halted(j)))
  }

  ghost predicate StatsEdits(row: LiveJob -> bool, bw: int -> bool, now: nat) {
    forall j, st: JobStats {:trigger Accounted(j, st, now)} | row(j) && bw(st.bandwidth) :: row(Accounted(j, st, now))
  }

  /** The three predicates survive every edit the servers make to a record. */
  ghost predicate Closed(row: LiveJob -> bool, msg: LiveJob -> bool, bw: int -> bool, now: nat) {
    && ApiEdits(row, msg, now) && SchedulerEdits(row, msg, now) && StatsEdits(row, bw, now)
    && (forall m | msg(m) :: bw(m.bandwidth))
    && bw(0)
  }

  ghost predicate EventOk(e: Event, bw: int -> bool) {
    e.CacheStats? ==> bw(e.bandwidth)
  }

  lemma ApiKeeps(c: Cluster, e: Event, row: LiveJob -> bool, msg: LiveJob -> bool, bw: int -> bool)
    requires Enabled(c, e) && (e.ApiCreate? || e.ApiStop? || e.ApiResume? || e.ApiDelete?)
    requires Everywhere(c, row, msg, bw) && Closed(row, msg, bw, c.clock)
    ensures Everywhere(Next(c, e), row, msg, bw)
  {
    var f := Api.Front(c.tables, c.sqs);
    if e.ApiCreate? {
      StoreKeeps(f, Api.NewJob(e.id, e.spec, c.clock), e.sendOk, row, msg);
    } else if e.ApiStop? && Api.Stoppable(f, e.id) {
      StoreKeeps(f, Api.Asked(c.tables.jobs[e.id], true), e.sendOk, row, msg);
    } else if e.ApiResume? && Api.Resumable(f, e.id) {
      StoreKeeps(f, Api.Asked(c.tables.jobs[e.id], false), e.sendOk, row, msg);
    }
  }

  lemma StoreKeeps(f: Api.Front, j: LiveJob, sent: bool, row: LiveJob -> bool, msg: LiveJob -> bool)
    requires RowsOk(f.tables, row) && MessagesOk(f.sqs, msg) && row(j) && msg(j)
    ensures RowsOk(Api.StoreAndSend(f, j, sent).tables, row) && MessagesOk(Api.StoreAndSend(f, j, sent).sqs, msg)
  {
  }

  lemma ScheduleKeeps(c: Cluster, e: Event, row: LiveJob -> bool, msg: LiveJob -> bool, bw: int -> bool)
    requires Enabled(c, e) && e.Schedule?
    requires Everywhere(c, row, msg, bw) && Closed(row, msg, bw, c.clock)
    ensures Everywhere(Next(c, e), row, msg, bw)
  {
    if c.tables.queued != [] {
      var m := c.tables.queued[0];
      var reply := ReplyTo(c, e.pick, e.net, e.ok);
      assert msg(m) && MessagesOk(c.tables.queued[1..], msg);
      if reply.Launched? {
        assert Assigned(reply.job, e.pick) == Placed(m, reply.job.rtmpPort, e.pick);
      }
      ScheduleTablesKeep(Rest(c), m, Decide(Rest(c), m, e.pick, reply), reply, row, msg);
      ScheduleWorkersKeep(c, e, msg, bw);
    }
  }

  lemma ScheduleTablesKeep(t: Tables, m: LiveJob, v: Verdict, reply: Reply, row: LiveJob -> bool, msg: LiveJob -> bool)
    requires RowsOk(t, row) && MessagesOk(t.queued, msg) && msg(m)
    requires v.LaunchedOn? && reply.Launched? ==> row(Assigned(reply.job, v.wid))
    requires v.StoppedOn? ==> row(Released(m))
    ensures RowsOk(Apply(t, m, v, reply), row) && MessagesOk(Apply(t, m, v, reply).queued, msg)
  {
  }

  lemma ScheduleWorkersKeep(c: Cluster, e: Event, msg: LiveJob -> bool, bw: int -> bool)
    requires Enabled(c, e) && e.Schedule? && c.tables.queued != [] && msg(c.tables.queued[0])
    requires forall m | msg(m) :: bw(m.bandwidth)
    requires forall wid | wid in c.workers :: CacheOk(c.workers[wid], bw)
    ensures forall wid | wid in Next(c, e).workers :: CacheOk(Next(c, e).workers[wid], bw)
  {
  }

  lemma CheckKeeps(w: WorkerSpec.Worker, alive: set<nat>, bw: int -> bool)
    requires CacheOk(w, bw) && bw(0)
    ensures CacheOk(WorkerSpec.Check(w, alive), bw) && StatsOk(WorkerSpec.CheckReport(w, alive).stats, bw)
  {
  }

  lemma {:induction false} StoppedReportsKeep(t: Tables, wid: string, jids: seq<string>, row: LiveJob -> bool)
    requires RowsOk(t, row) && forall j {:trigger Halted(j)} | row(j) :: row(Halted(j))
    ensures RowsOk(ReportAllStopped(t, wid, jids), row) && ReportAllStopped(t, wid, jids).queued == t.queued
    decreases |jids|
  {
    if jids == [] {
    } else {
      StoppedReportsKeep(t, wid, jids[..|jids| - 1], row);
    }
  }

  lemma {:induction false} StatsReportsKeep(t: Tables, stats: seq<JobStats>, now: int,
                                            row: LiveJob -> bool, bw: int -> bool)
    requires RowsOk(t, row) && StatsOk(stats, bw) && now >= 0
    requires StatsEdits(row, bw, now)
    ensures RowsOk(ReportAllStats(t, stats, now), row) && ReportAllStats(t, stats, now).queued == t.queued
    decreases |stats|
  {
    if stats == [] {
    } else {
      StatsReportsKeep(t, stats[..|stats| - 1], now, row, bw);
    }
  }

  lemma PollKeeps(c: Cluster, e: Event, row: LiveJob -> bool, msg: LiveJob -> bool, bw: int -> bool)
    requires Enabled(c, e) && e.PollSqs?
    requires Everywhere(c, row, msg, bw) && Closed(row, msg, bw, c.clock)
    ensures Everywhere(Next(c, e), row, msg, bw)
  {
    var m := c.sqs[e.i];
    assert msg(m);
    assert msg(Polled(m, c.clock));
    if !m.stop {
      assert row(Received(m, c.clock));
    }
  }

  lemma WorkerKeeps(c: Cluster, e: Event, row: LiveJob -> bool, msg: LiveJob -> bool, bw: int -> bool)
    requires Enabled(c, e) && EventOk(e, bw) && (e.CacheStats? || e.CheckJobs? || e.Lose? || e.ExitWorker?)
    requires Everywhere(c, row, msg, bw) && bw(0)
    ensures Everywhere(Next(c, e), row, msg, bw)
  {
    if e.CheckJobs? {
      CheckKeeps(c.workers[e.wid], e.alive, bw);
    }
  }

  lemma WorkerTableKeeps(c: Cluster, e: Event, row: LiveJob -> bool, msg: LiveJob -> bool, bw: int -> bool)
    requires Enabled(c, e) && (e.RegisterWorker? || e.WorkerBeat? || e.SweepWorkers? || e.Tick?)
    requires Everywhere(c, row, msg, bw) && forall j {:trigger Halted(j)} | row(j) :: row(Halted(j))
    ensures Everywhere(Next(c, e), row, msg, bw)
  {
  }

  lemma DeliverKeeps(c: Cluster, e: Event, row: LiveJob -> bool, msg: LiveJob -> bool, bw: int -> bool)
    requires Enabled(c, e) && e.Deliver?
    requires Everywhere(c, row, msg, bw) && Closed(row, msg, bw, c.clock)
    ensures Everywhere(Next(c, e), row, msg, bw)
  {
    var r := c.reports[e.i];
    StoppedReportsKeep(c.tables, r.workerId, r.stoppedJobs, row);
    StatsReportsKeep(ReportAllStopped(c.tables, r.workerId, r.stoppedJobs), r.stats, c.clock, row, bw);
  }

  /**
    The central lemma: whatever the predicates say, if the edits keep them then every step of
    the protocol does, although messages carry snapshots that later overwrite the stored record.
   */
  lemma EverywhereKept(c: Cluster, e: Event, row: LiveJob -> bool, msg: LiveJob -> bool, bw: int -> bool)
    requires Enabled(c, e) && EventOk(e, bw)
    requires Everywhere(c, row, msg, bw) && Closed(row, msg, bw, c.clock)
    ensures Everywhere(Next(c, e), row, msg, bw)
  {
    match e
    case ApiCreate(_, _, _) => ApiKeeps(c, e, row, msg, bw);
    case ApiStop(_, _) => ApiKeeps(c, e, row, msg, bw);
    case ApiResume(_, _) => ApiKeeps(c, e, row, msg, bw);
    case ApiDelete(_) => ApiKeeps(c, e, row, msg, bw);
    case PollSqs(_, _) => PollKeeps(c, e, row, msg, bw);
    case Schedule(_, _, _, _) => ScheduleKeeps(c, e, row, msg, bw);
    case CacheStats(_, _, _, _) => WorkerKeeps(c, e, row, msg, bw);
    case CheckJobs(_, _) => WorkerKeeps(c, e, row, msg, bw);
    case Deliver(_, _) => DeliverKeeps(c, e, row, msg, bw);
    case Lose(_) => WorkerKeeps(c, e, row, msg, bw);
    case RegisterWorker(_, _, _) => WorkerTableKeeps(c, e, row, msg, bw);
    case WorkerBeat(_, _) => WorkerTableKeeps(c, e, row, msg, bw);
    case SweepWorkers => WorkerTableKeeps(c, e, row, msg, bw);
    case ExitWorker(_) => WorkerKeeps(c, e, row, msg, bw);
    case Tick(_) => WorkerTableKeeps(c, e, row, msg, bw);
  }

  // ----- State and stats agree -----

  /** Streaming means the bandwidth is above the threshold, stopped means there are no stats. */
  predicate StatsAgree(j: LiveJob) {
    && (j.state == Streaming <==> j.bandwidth > INGEST_BANDWIDTH_THRESHOLD_KBPS)
    && (j.state == Stopped ==> j.bandwidth == 0 && j.cpu == "")
  }

  /** Nothing marks a record for deletion; a stop is asked of an active job and nothing else is. */
  predicate MessageFits(m: LiveJob) {
    && !m.delete
    && (!m.stop ==> m.state == Created || m.state == Stopped)
    && (m.stop ==> m.state != Stopped)
  }

  // ----- Time accounting -----

  /** The totals cover no more than the time from the job's creation to its last report. */
  predicate Timed(j: LiveJob, now: int) {
    && 0 <= j.createdMs <= now
    && 0 <= j.activeSeconds
    && (j.lastReportMs == 0 ==> j.activeSeconds == 0 && j.bytesIngested == 0 && j.upSeconds == 0)
    && (j.lastReportMs != 0 ==>
          && j.createdMs <= j.lastReportMs <= now
          && 1000 * j.activeSeconds <= j.lastReportMs - j.createdMs
          && j.upSeconds == (j.lastReportMs - j.createdMs) / 1000)
  }

  /** Kilobits received in ms milliseconds at a constant rate, counted up so that no proof step multiplies. */
  function AtRate(cap: nat, ms: int): nat {
    if ms <= 0 then 0 else cap + AtRate(cap, ms - 1)
  }

  lemma {:induction false} AtRateIs(cap: nat, ms: nat)
    ensures AtRate(cap, ms) == cap * ms
  {
    if ms == 0 {
    } else {
      AtRateIs(cap, ms - 1);
    }
  }

  /** With readings between 0 and cap kbps, the bytes fit in the same time at that rate. */
  predicate Metered(j: LiveJob, cap: nat) {
    && 0 <= j.bandwidth <= cap
    && 0 <= j.bytesIngested
    && (j.lastReportMs != 0 ==> 8 * j.bytesIngested <= AtRate(cap, j.lastReportMs - j.createdMs))
  }

  function RowIs(now: int): LiveJob -> bool {
    (j: LiveJob) => StatsAgree(j) && !j.delete && Timed(j, now)
  }

  function MsgIs(now: int): LiveJob -> bool {
    (j: LiveJob) => StatsAgree(j) && MessageFits(j) && Timed(j, now)
  }

  function AnyBw(): int -> bool {
    (b: int) => true
  }

  lemma AccountedTime(j: LiveJob, st: JobStats, now: nat)
    requires Timed(j, now)
    ensures Timed(Accounted(j, st, now), now)
  {
  }

  lemma RecordsClosed(now: nat)
    ensures Closed(RowIs(now), MsgIs(now), AnyBw(), now)
  {
    RecordsEditedByApi(now);
    RecordsEditedByScheduler(now);
    RecordsAccounted(now);
  }

  lemma RecordsEditedByApi(now: nat)
    ensures ApiEdits(RowIs(now), MsgIs(now), now)
  {
  }

  lemma RecordsEditedByScheduler(now: nat)
    ensures SchedulerEdits(RowIs(now), MsgIs(now), now)
  {
  }

  lemma RecordsAccounted(now: nat)
    ensures StatsEdits(RowIs(now), AnyBw(), now)
  {
    forall j, st: JobStats | RowIs(now)(j)
      ensures RowIs(now)(Accounted(j, st, now))
    {
      AccountedTime(j, st, now);
    }
  }

  ghost predicate RecordsAgree(c: Cluster) {
    Everywhere(c, RowIs(c.clock), MsgIs(c.clock), AnyBw())
  }

  lemma RecordsAgreeLater(c: Cluster, now: int, later: int)
    requires Everywhere(c, RowIs(now), MsgIs(now), AnyBw()) && now <= later
    ensures Everywhere(c, RowIs(later), MsgIs(later), AnyBw())
  {
    forall k | k in c.tables.jobs ensures RowIs(later)(c.tables.jobs[k]) {
      assert RowIs(now)(c.tables.jobs[k]);
    }
    forall i | 0 <= i < |c.sqs| ensures MsgIs(later)(c.sqs[i]) {
      assert MsgIs(now)(c.sqs[i]);
    }
    forall i | 0 <= i < |c.tables.queued| ensures MsgIs(later)(c.tables.queued[i]) {
      assert MsgIs(now)(c.tables.queued[i]);
    }
  }

  lemma ClockAdvances(c: Cluster, e: Event)
    requires Enabled(c, e)
    ensures c.clock <= Next(c, e).clock
  {
  }

  lemma RecordsAgreeStep(c: Cluster, e: Event)
    requires Enabled(c, e) && RecordsAgree(c)
    ensures RecordsAgree(Next(c, e))
  {
    RecordsClosed(c.clock);
    EverywhereKept(c, e, RowIs(c.clock), MsgIs(c.clock), AnyBw());
    ClockAdvances(c, e);
    RecordsAgreeLater(Next(c, e), c.clock, Next(c, e).clock);
  }

  lemma {:induction false} RecordsAgreeAlways(c: Cluster, es: seq<Event>)
    requires Valid(c, es) && RecordsAgree(c)
    ensures RecordsAgree(Run(c, es))
    decreases |es|
  {
    if es == [] {
    } else {
      RecordsAgreeStep(c, es[0]);
      RecordsAgreeAlways(Next(c, es[0]), es[1..]);
    }
  }

  /** In every run State and stats agree, and active time never exceeds up time, in the table and in every message. */
  lemma RecordsInEveryRun(es: seq<Event>)
    requires Valid(Init(), es)
    ensures var c := Run(Init(), es);
            && (forall k | k in c.tables.jobs :: StatsAgree(c.tables.jobs[k]) && Timed(c.tables.jobs[k], c.clock)
                                                  && c.tables.jobs[k].activeSeconds <= c.tables.jobs[k].upSeconds)
            && (forall m | m in c.sqs || m in c.tables.queued ::
                  StatsAgree(m) && MessageFits(m) && Timed(m, c.clock) && m.activeSeconds <= m.upSeconds)
  {
    RecordsAgreeAlways(Init(), es);
  }

  // ----- Bytes ingested -----

  function MeteredRow(now: int, cap: nat): LiveJob -> bool {
    (j: LiveJob) => Timed(j, now) && Metered(j, cap)
  }

  function WithinCap(cap: nat): int -> bool {
    (b: int) => 0 <= b <= cap
  }

  lemma AccountedBytes(j: LiveJob, st: JobStats, now: nat, cap: nat)
    requires Timed(j, now) && Metered(j, cap) && 0 <= st.bandwidth <= cap
    ensures Metered(Accounted(j, st, now), cap)
  {
    if j.lastReportMs > 0 {
      BytesFit(now - j.lastReportMs, st.bandwidth, cap);
      AtRateAdds(cap, j.lastReportMs - j.createdMs, now - j.lastReportMs);
    }
  }

  lemma {:induction false} AtRateAdds(cap: nat, a: nat, b: nat)
    ensures AtRate(cap, a + b) == AtRate(cap, a) + AtRate(cap, b)
  {
    if b == 0 {
    } else {
      AtRateAdds(cap, a, b - 1);
    }
  }

  lemma BytesFit(d: nat, bandwidth: nat, cap: nat)
    requires bandwidth <= cap
    ensures 0 <= TruncDiv(d * bandwidth, 8) && 8 * TruncDiv(d * bandwidth, 8) <= AtRate(cap, d)
  {
    AtRateIs(bandwidth, d);
    AtRateGrows(bandwidth, cap, d);
    assert d * bandwidth == AtRate(bandwidth, d);
  }

  lemma {:induction false} AtRateGrows(low: nat, high: nat, ms: nat)
    requires low <= high
    ensures AtRate(low, ms) <= AtRate(high, ms)
  {
    if ms == 0 {
    } else {
      AtRateGrows(low, high, ms - 1);
    }
  }

  lemma MeteredEditedByApi(now: nat, cap: nat)
    ensures ApiEdits(MeteredRow(now, cap), MeteredRow(now, cap), now)
  {
  }

  /** Edits that keep the readings or reset them keep what was metered. */
  lemma SameMeter(j: LiveJob, k: LiveJob, now: int, cap: nat)
    requires MeteredRow(now, cap)(j) && (k.bandwidth == j.bandwidth || k.bandwidth == 0)
    requires k.createdMs == j.createdMs && k.lastReportMs == j.lastReportMs
    requires k.bytesIngested == j.bytesIngested && k.activeSeconds == j.activeSeconds && k.upSeconds == j.upSeconds
    ensures MeteredRow(now, cap)(k)
  {
  }

  lemma MeteredEditedByScheduler(now: nat, cap: nat)
    ensures SchedulerEdits(MeteredRow(now, cap), MeteredRow(now, cap), now)
  {
    var row := MeteredRow(now, cap);
    forall m | row(m) ensures row(Received(m, now)) {
      SameMeter(m, Received(m, now), now, cap);
    }
    forall m, port, wid | row(m) ensures row(Placed(m, port, wid)) {
      SameMeter(m, Placed(m, port, wid), now, cap);
    }
    forall m | row(m) ensures row(Released(m)) {
      SameMeter(m, Released(m), now, cap);
    }
    forall m | row(m) ensures row(Halted(m)) {
      SameMeter(m, Halted(m), now, cap);
    }
  }

  lemma MeteredAccounted(now: nat, cap: nat)
    ensures StatsEdits(MeteredRow(now, cap), WithinCap(cap), now)
  {
    forall j, st: JobStats | MeteredRow(now, cap)(j) && WithinCap(cap)(st.bandwidth)
      ensures MeteredRow(now, cap)(Accounted(j, st, now))
    {
      AccountedTime(j, st, now);
      AccountedBytes(j, st, now, cap);
    }
  }

  ghost predicate AllMetered(c: Cluster, cap: nat) {
    Everywhere(c, MeteredRow(c.clock, cap), MeteredRow(c.clock, cap), WithinCap(cap))
  }

  lemma MeteredLater(c: Cluster, now: int, later: int, cap: nat)
    requires Everywhere(c, MeteredRow(now, cap), MeteredRow(now, cap), WithinCap(cap)) && now <= later
    ensures Everywhere(c, MeteredRow(later, cap), MeteredRow(later, cap), WithinCap(cap))
  {
    forall k | k in c.tables.jobs ensures MeteredRow(later, cap)(c.tables.jobs[k]) {
      assert MeteredRow(now, cap)(c.tables.jobs[k]);
    }
    forall i | 0 <= i < |c.sqs| ensures MeteredRow(later, cap)(c.sqs[i]) {
      assert MeteredRow(now, cap)(c.sqs[i]);
    }
    forall i | 0 <= i < |c.tables.queued| ensures MeteredRow(later, cap)(c.tables.queued[i]) {
      assert MeteredRow(now, cap)(c.tables.queued[i]);
    }
  }

  lemma MeteredStep(c: Cluster, e: Event, cap: nat)
    requires Enabled(c, e) && EventOk(e, WithinCap(cap)) && AllMetered(c, cap)
    ensures AllMetered(Next(c, e), cap)
  {
    MeteredEditedByApi(c.clock, cap);
    MeteredEditedByScheduler(c.clock, cap);
    MeteredAccounted(c.clock, cap);
    EverywhereKept(c, e, MeteredRow(c.clock, cap), MeteredRow(c.clock, cap), WithinCap(cap));
    ClockAdvances(c, e);
    MeteredLater(Next(c, e), c.clock, Next(c, e).clock, cap);
  }

  lemma {:induction false} MeteredAlways(c: Cluster, es: seq<Event>, cap: nat)
    requires Valid(c, es) && AllMetered(c, cap)
    requires forall i | 0 <= i < |es| :: EventOk(es[i], WithinCap(cap))
    ensures AllMetered(Run(c, es), cap)
    decreases |es|
  {
    if es == [] {
    } else {
      assert EventOk(es[0], WithinCap(cap));
      MeteredStep(c, es[0], cap);
      assert forall i | 0 <= i < |es[1..]| :: es[1..][i] == es[i + 1];
      MeteredAlways(Next(c, es[0]), es[1..], cap);
    }
  }

  /** If no reading ever exceeds cap kbps, no record claims more bytes than that rate allows. */
  lemma BytesInEveryRun(es: seq<Event>, cap: nat)
    requires Valid(Init(), es)
    requires forall i | 0 <= i < |es| && es[i].CacheStats? :: 0 <= es[i].bandwidth <= cap
    ensures var c := Run(Init(), es);
            forall k | k in c.tables.jobs && c.tables.jobs[k].lastReportMs != 0 ::
              var j := c.tables.jobs[k]; 8 * j.bytesIngested <= cap * (j.lastReportMs - j.createdMs)
  {
    assert AllMetered(Init(), cap);
    MeteredAlways(Init(), es, cap);
    MeteredRows(Run(Init(), es), cap);
  }

  lemma MeteredRows(c: Cluster, cap: nat)
    requires AllMetered(c, cap)
    ensures forall k | k in c.tables.jobs && c.tables.jobs[k].lastReportMs != 0 ::
              var j := c.tables.jobs[k]; 8 * j.bytesIngested <= cap * (j.lastReportMs - j.createdMs)
  {
    forall k | k in c.tables.jobs && c.tables.jobs[k].lastReportMs != 0
      ensures var j := c.tables.jobs[k]; 8 * j.bytesIngested <= cap * (j.lastReportMs - j.createdMs)
    {
      assert MeteredRow(c.clock, cap)(c.tables.jobs[k]);
      MeteredBytes(c.tables.jobs[k], c.clock, cap);
    }
  }

  lemma MeteredBytes(j: LiveJob, now: int, cap: nat)
    requires Timed(j, now) && Metered(j, cap) && j.lastReportMs != 0
    ensures 8 * j.bytesIngested <= cap * (j.lastReportMs - j.createdMs)
  {
    AtRateIs(cap, j.lastReportMs - j.createdMs);
  }
}
