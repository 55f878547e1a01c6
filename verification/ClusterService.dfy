/** What the control plane does for a job: requests are sent, free slots are used, crashes are seen. */
module ClusterService {
  import opened Sequences
  import opened JobModel
  import opened SchedulerSpec
  import opened SchedulerMeaning
  import opened Cluster
  import opened ClusterRecords
  import opened ClusterLoads
  import opened ClusterCapacity
  import opened ClusterMessages
  import opened ClusterConsequences

  // ----- Requests are sent -----

  /** The record that an accepted request puts into SQS. */
  predicate Sends(c: Cluster, e: Event, m: LiveJob) {
    match e
    case ApiCreate(id, spec, sendOk) =>
      sendOk && m == LiveJob(id, Created, 0, 0, "", 0, 0, 0, 0, spec, c.clock, 0, "", false, false)
    case ApiStop(id, sendOk) =>
      && sendOk && id in c.tables.jobs && c.tables.jobs[id].state != Stopped
      && m == c.tables.jobs[id].(stop := true)
    case ApiResume(id, sendOk) =>
      && sendOk && id in c.tables.jobs && c.tables.jobs[id].state != Running && c.tables.jobs[id].state != Streaming
      && m == c.tables.jobs[id].(stop := false)
    case _ => false
  }

  /** An accepted request stores its record and sends it, and counts as one more message of its kind sent. */
  lemma RequestSent(c: Cluster, e: Event, m: LiveJob)
    requires Enabled(c, e) && Keyed(c.tables) && Sends(c, e, m)
    ensures var c' := Next(c, e);
            && c'.sqs == c.sqs + [m] && c'.tables.jobs == c.tables.jobs[m.id := m]
            && CountBy(c'.sent, Key(m.id, m.stop)) == CountBy(c.sent, Key(m.id, m.stop)) + 1
            && c'.tables.queued == c.tables.queued && c'.tables.loads == c.tables.loads
  {
    var c' := Next(c, e);
    assert c'.sqs == c.sqs + [m];
    assert (c.sqs + [m])[|c.sqs|..] == [m];
    assert c'.sent == c.sent + [m];
    CountByPush(c.sent, m, Key(m.id, m.stop));
  }

  // ----- Free slots are used -----

  /** In every run a registered worker counts as having capacity exactly while its entries leave room for one more. */
  lemma CapacityIsFreeSlot(es: seq<Event>, wid: string)
    requires Valid(Init(), es) && wid in Run(Init(), es).tables.workers
    ensures var t := Run(Init(), es).tables; var n, info := |LoadOf(t, wid).jobs|, t.workers[wid].info;
            && (HasCapacity(t, wid) <==> 1000 * n < info.cpuCapacity && 20000 * n < info.bandwidthCapacity)
            && (HasCapacity(t, wid) <==> n < Slots(info.cpuCapacity, 1000) && n < Slots(info.bandwidthCapacity, 20000))
  {
    CapacityAlways(Init(), es);
    var t := Run(Init(), es).tables;
    BalancedOf(t, wid);
    StandardSums(LoadOf(t, wid).jobs);
  }

  /**
    In every run a create or resume at the front is launched exactly when the picked worker is
    registered, has fewer entries than slots, is alive and answers, and the process starts. It is then
    running there with an entry more, and is put back otherwise.
   */
  lemma FreeSlotIsUsed(es: seq<Event>, e: Event)
    requires Valid(Init(), es) && Enabled(Run(Init(), es), e) && e.Schedule?
    requires Run(Init(), es).tables.queued != [] && !Run(Init(), es).tables.queued[0].stop
    ensures var c, wid := Run(Init(), es), e.pick; var t, m, t' := c.tables, c.tables.queued[0], Next(c, e).tables;
            if && wid in t.workers && |LoadOf(t, wid).jobs| < Slots(t.workers[wid].info.cpuCapacity, 1000)
               && |LoadOf(t, wid).jobs| < Slots(t.workers[wid].info.bandwidthCapacity, 20000)
               && wid in c.workers && e.net.Answered? && e.ok
            then && t'.queued == t.queued[1..] && m.id in t'.jobs && t'.jobs[m.id].state == Running
                 && t'.jobs[m.id].assignedWorker == wid
                 && LoadOf(t', wid).jobs == LoadOf(t, wid).jobs + [JobLoad(m.id, 1000, 20000)]
            else t' == t.(queued := t.queued[1..] + [m])
  {
    var c := Run(Init(), es);
    RecordsAgreeAlways(Init(), es);
    assert MsgIs(c.clock)(c.tables.queued[0]);
    NeverSuspended(Init(), es);
    IdsOkAlways(Init(), es);
    if e.pick in c.tables.workers {
      CapacityIsFreeSlot(es, e.pick);
    }
    PickIsLaunched(c, e);
  }

  lemma PickIsLaunched(c: Cluster, e: Event)
    requires Enabled(c, e) && e.Schedule? && c.tables.queued != []
    requires !c.tables.queued[0].stop && !c.tables.queued[0].delete
    requires AvailableWorkers(c.tables) == c.tables.workers.Keys && Keyed(c.tables)
    ensures var wid := e.pick; var t, m, t' := c.tables, c.tables.queued[0], Next(c, e).tables;
            if wid in t.workers && HasCapacity(t, wid) && wid in c.workers && e.net.Answered? && e.ok
            then && t'.queued == t.queued[1..] && m.id in t'.jobs && t'.jobs[m.id].state == Running
                 && t'.jobs[m.id].assignedWorker == wid
                 && LoadOf(t', wid).jobs == LoadOf(t, wid).jobs + [JobLoad(m.id, 1000, 20000)]
            else t' == t.(queued := t.queued[1..] + [m])
  {
    assert AvailableWorkers(Rest(c)) == AvailableWorkers(c.tables);
    var t, m, wid, reply := c.tables, c.tables.queued[0], e.pick, ReplyTo(c, e.pick, e.net, e.ok);
    var t' := Next(c, e).tables;
    if wid in t.workers && HasCapacity(t, wid) && wid in c.workers && e.net.Answered? && e.ok {
      assert VerdictOf(c, wid, e.net, e.ok) == LaunchedOn(wid) && reply.job.id == m.id;
      assert t' == AddLoad(PutJob(Rest(c), Assigned(reply.job, wid)), t.workers[wid], m.id);
      assert LoadOf(PutJob(Rest(c), Assigned(reply.job, wid)), wid) == LoadOf(t, wid);
    }
  }

  // ----- Reports are believed -----

  /** A report that arrives does to every row what it says, and to no other. */
  lemma ReportArrives(es: seq<Event>, e: Event, jid: string)
    requires Valid(Init(), es) && Enabled(Run(Init(), es), e) && e.Deliver?
    requires jid in Run(Init(), es).tables.jobs
    ensures var c := Run(Init(), es); var t' := Next(c, e).tables;
            jid in t'.jobs && RowReported(c.tables.jobs[jid], c.reports[e.i], c.clock, t'.jobs[jid])
  {
    RecordsAgreeAlways(Init(), es);
    IdsOkAlways(Init(), es);
    ReportRow(Run(Init(), es).tables, Run(Init(), es).reports[e.i], Run(Init(), es).clock, jid);
  }

  lemma {:induction false} IdsOkAlways(c: Cluster, es: seq<Event>)
    requires Valid(c, es) && IdsOk(c)
    ensures IdsOk(Run(c, es))
    decreases |es|
  {
    if es == [] {
    } else {
      IdsOkStep(c, es[0]);
      IdsOkAlways(Next(c, es[0]), es[1..]);
    }
  }

  predicate SomeDead(running: seq<WorkerSpec.RunningJob>, alive: set<nat>, jid: string) {
    exists i | 0 <= i < |running| :: running[i].job.id == jid && running[i].pid !in alive
  }

  predicate NoneAlive(running: seq<WorkerSpec.RunningJob>, alive: set<nat>, jid: string) {
    forall i | 0 <= i < |running| :: running[i].job.id == jid ==> running[i].pid !in alive
  }

  lemma CheckNames(w: WorkerSpec.Worker, alive: set<nat>, jid: string)
    requires SomeDead(w.running, alive, jid) && NoneAlive(w.running, alive, jid)
    ensures jid in WorkerSpec.CheckReport(w, alive).stoppedJobs
    ensures !HasStats(WorkerSpec.CheckReport(w, alive).stats, jid)
  {
    var dead := Filter(w.running, WorkerSpec.Dead(alive));
    var up := Filter(w.running, WorkerSpec.Answers(alive));
    FilterMembers(w.running, WorkerSpec.Dead(alive));
    FilterMembers(w.running, WorkerSpec.Answers(alive));
    var i :| 0 <= i < |w.running| && w.running[i].job.id == jid && w.running[i].pid !in alive;
    assert w.running[i] in dead;
    var k :| 0 <= k < |dead| && dead[k] == w.running[i];
    assert Map(dead, WorkerSpec.JobIdOf())[k] == jid;
    forall n | 0 <= n < |up| ensures Map(up, WorkerSpec.CachedStats(w.jobs))[n].id != jid {
      assert up[n] in up;
    }
  }

  /**
    In every run, when all processes of a job on a worker have died, the worker's next check and the
    arrival of its report make the job stopped, with no stats left.
   */
  lemma CrashIsSeen(es: seq<Event>, wid: string, alive: set<nat>, again: bool, jid: string)
    requires Valid(Init(), es) && wid in Run(Init(), es).workers && jid in Run(Init(), es).tables.jobs
    requires SomeDead(Run(Init(), es).workers[wid].running, alive, jid)
    requires NoneAlive(Run(Init(), es).workers[wid].running, alive, jid)
    ensures var c := Run(Init(), es);
            var c1 := Next(c, CheckJobs(wid, alive));
            var t := Next(c1, Deliver(|c.reports|, again)).tables;
            && jid in t.jobs && t.jobs[jid].state == Stopped && t.jobs[jid].bandwidth == 0 && t.jobs[jid].cpu == ""
  {
    IdsOkAlways(Init(), es);
    CrashIsReported(Run(Init(), es), wid, alive, again, jid);
  }

  lemma CrashIsReported(c: Cluster, wid: string, alive: set<nat>, again: bool, jid: string)
    requires Keyed(c.tables) && wid in c.workers && jid in c.tables.jobs
    requires SomeDead(c.workers[wid].running, alive, jid) && NoneAlive(c.workers[wid].running, alive, jid)
    ensures var c1 := Next(c, CheckJobs(wid, alive));
            var t := Next(c1, Deliver(|c.reports|, again)).tables;
            && jid in t.jobs && t.jobs[jid].state == Stopped && t.jobs[jid].bandwidth == 0 && t.jobs[jid].cpu == ""
  {
    var c1, r := Next(c, CheckJobs(wid, alive)), WorkerSpec.CheckReport(c.workers[wid], alive);
    CheckNames(c.workers[wid], alive, jid);
    assert c1.reports == c.reports + [r] && c1.tables == c.tables && c1.clock == c.clock;
    ReportRow(c.tables, r, c.clock, jid);
    assert Next(c1, Deliver(|c.reports|, again)).tables == Report(c.tables, r, c.clock);
  }
}
