/** When a stopped job stays stopped, over whole runs. */
module ClusterStops {
  import opened JobModel
  import opened SchedulerSpec
  import opened Cluster
  import opened ClusterLoads
  import opened ReportFrames
  import ClusterMessages

  // ----- Every job was created -----

  /** Every row and every message belongs to a job the API server has created. */
  ghost predicate JobsCreated(c: Cluster) {
    && c.tables.jobs.Keys <= c.jobIds
    && (forall i | 0 <= i < |c.sqs| :: c.sqs[i].id in c.jobIds)
    && (forall i | 0 <= i < |c.tables.queued| :: c.tables.queued[i].id in c.jobIds)
  }

  lemma ScheduleKeepsCreated(t: Tables, pick: string, reply: Reply, ids: set<string>)
    requires t.jobs.Keys <= ids && forall i | 0 <= i < |t.queued| :: t.queued[i].id in ids
    requires t.queued != [] && reply.Launched? ==> reply.job.id == t.queued[0].id
    ensures var t' := ScheduleOne(t, pick, reply);
            t'.jobs.Keys <= ids && forall i | 0 <= i < |t'.queued| :: t'.queued[i].id in ids
  {
    if t.queued == [] {
    } else {
      ClusterMessages.QueueAfter(t, pick, reply);
    }
  }

  lemma ApiKeepsCreated(c: Cluster, e: Event)
    requires Enabled(c, e) && Keyed(c.tables) && JobsCreated(c)
    requires e.ApiCreate? || e.ApiStop? || e.ApiResume? || e.ApiDelete? || e.PollSqs?
    ensures JobsCreated(Next(c, e))
  {
  }

  lemma JobsCreatedStep(c: Cluster, e: Event)
    requires Enabled(c, e) && Keyed(c.tables) && JobsCreated(c)
    ensures JobsCreated(Next(c, e)) && c.jobIds <= Next(c, e).jobIds
  {
    match e
    case ApiCreate(_, _, _) => ApiKeepsCreated(c, e);
    case ApiStop(_, _) => ApiKeepsCreated(c, e);
    case ApiResume(_, _) => ApiKeepsCreated(c, e);
    case ApiDelete(_) => ApiKeepsCreated(c, e);
    case PollSqs(_, _) => ApiKeepsCreated(c, e);
    case Schedule(pick, net, _, ok) => ScheduleKeepsCreated(c.tables, pick, ReplyTo(c, pick, net, ok), c.jobIds);
    case Deliver(i, _) => ReportFrame(c.tables, c.reports[i], c.clock);
    case _ =>
  }

  lemma {:induction false} JobsCreatedAlways(c: Cluster, es: seq<Event>)
    requires Valid(c, es) && IdsOk(c) && JobsCreated(c)
    ensures IdsOk(Run(c, es)) && JobsCreated(Run(c, es))
    decreases |es|
  {
    if es == [] {
    } else {
      IdsOkStep(c, es[0]);
      JobsCreatedStep(c, es[0]);
      JobsCreatedAlways(Next(c, es[0]), es[1..]);
    }
  }

  // ----- One step -----

  predicate IsStopped(t: Tables, jid: string) {
    jid in t.jobs && t.jobs[jid].state == Stopped
  }

  predicate NamesStats(stats: seq<JobStats>, jid: string) {
    exists i | 0 <= i < |stats| :: stats[i].id == jid
  }

  lemma {:induction false} StoppedKeepsStopped(t: Tables, wid: string, jids: seq<string>, jid: string)
    requires Keyed(t) && IsStopped(t, jid)
    ensures var t' := ReportAllStopped(t, wid, jids); Keyed(t') && IsStopped(t', jid)
    decreases |jids|
  {
    if jids == [] {
    } else {
      StoppedKeepsStopped(t, wid, jids[..|jids| - 1], jid);
    }
  }

  lemma {:induction false} StatsWake(t: Tables, stats: seq<JobStats>, now: int, jid: string)
    requires Keyed(t) && IsStopped(t, jid)
    ensures var t' := ReportAllStats(t, stats, now);
            Keyed(t') && (IsStopped(t', jid) <==> !NamesStats(stats, jid)) && jid in t'.jobs
    decreases |stats|
  {
    if stats == [] {
    } else {
      var front, st := stats[..|stats| - 1], stats[|stats| - 1];
      StatsWake(t, front, now, jid);
      assert NamesStats(stats, jid) <==> NamesStats(front, jid) || st.id == jid by {
        if NamesStats(front, jid) {
          var i :| 0 <= i < |front| && front[i].id == jid;
          assert stats[i].id == jid;
        }
      }
    }
  }

  /** The step launches the front message: a worker with room is picked, is alive, answers, and its process starts. */
  predicate Launches(c: Cluster, pick: string, net: Net, ok: bool)
    requires c.tables.queued != []
  {
    var m := c.tables.queued[0];
    && !m.stop && !m.delete
    && pick in AvailableWorkers(c.tables) && HasCapacity(c.tables, pick)
    && pick in c.workers && net.Answered? && ok
  }

  /**
    The steps that end a job's stopped state: its deletion, a poll of an older record of it, a
    launch of it, and a report with stats of it, however late.
   */
  predicate Wakes(c: Cluster, e: Event, jid: string)
    requires Enabled(c, e)
  {
    match e
    case ApiDelete(id) => id == jid
    case PollSqs(i, _) => !c.sqs[i].stop && c.sqs[i].id == jid && c.sqs[i].state != Stopped
    case Schedule(pick, net, _, ok) =>
      c.tables.queued != [] && c.tables.queued[0].id == jid && Launches(c, pick, net, ok)
    case Deliver(i, _) => NamesStats(c.reports[i].stats, jid)
    case _ => false
  }

  lemma LaunchesExactly(c: Cluster, e: Event)
    requires Enabled(c, e) && e.Schedule? && c.tables.queued != []
    ensures VerdictOf(c, e.pick, e.net, e.ok).LaunchedOn? <==> Launches(c, e.pick, e.net, e.ok)
  {
    assert AvailableWorkers(Rest(c)) == AvailableWorkers(c.tables);
  }

  lemma ApplyWakes(t: Tables, m: LiveJob, v: Verdict, reply: Reply, jid: string)
    requires IsStopped(t, jid)
    requires v.LaunchedOn? ==> v.wid in t.workers && reply.Launched? && reply.job.id == m.id
    ensures IsStopped(Apply(t, m, v, reply), jid) <==> !(v.LaunchedOn? && m.id == jid)
  {
  }

  lemma ScheduleWakes(c: Cluster, e: Event, jid: string)
    requires Enabled(c, e) && e.Schedule? && IsStopped(c.tables, jid)
    ensures IsStopped(Next(c, e).tables, jid) <==> !Wakes(c, e, jid)
  {
    if c.tables.queued == [] {
    } else {
      var reply := ReplyTo(c, e.pick, e.net, e.ok);
      LaunchesExactly(c, e);
      ApplyWakes(Rest(c), c.tables.queued[0], VerdictOf(c, e.pick, e.net, e.ok), reply, jid);
    }
  }

  lemma DeliverWakes(c: Cluster, e: Event, jid: string)
    requires Enabled(c, e) && e.Deliver? && Keyed(c.tables) && IsStopped(c.tables, jid)
    ensures IsStopped(Next(c, e).tables, jid) <==> !Wakes(c, e, jid)
  {
    var r := c.reports[e.i];
    StoppedKeepsStopped(c.tables, r.workerId, r.stoppedJobs, jid);
    StatsWake(ReportAllStopped(c.tables, r.workerId, r.stoppedJobs), r.stats, c.clock, jid);
  }

  lemma ApiWakes(c: Cluster, e: Event, jid: string)
    requires Enabled(c, e) && Keyed(c.tables) && JobsCreated(c) && IsStopped(c.tables, jid)
    requires e.ApiCreate? || e.ApiStop? || e.ApiResume? || e.ApiDelete? || e.PollSqs?
    ensures IsStopped(Next(c, e).tables, jid) <==> !Wakes(c, e, jid)
  {
  }

  lemma OtherStepsKeepStopped(c: Cluster, e: Event, jid: string)
    requires Enabled(c, e) && IsStopped(c.tables, jid)
    requires || e.CacheStats? || e.CheckJobs? || e.Lose? || e.RegisterWorker?
             || e.WorkerBeat? || e.SweepWorkers? || e.ExitWorker? || e.Tick?
    ensures IsStopped(Next(c, e).tables, jid)
  {
  }

  /** A stopped job stays stopped in a step exactly when the step does not wake it. */
  lemma StoppedUntilWoken(c: Cluster, e: Event, jid: string)
    requires Enabled(c, e) && Keyed(c.tables) && JobsCreated(c) && IsStopped(c.tables, jid)
    ensures IsStopped(Next(c, e).tables, jid) <==> !Wakes(c, e, jid)
  {
    match e
    case ApiCreate(_, _, _) => ApiWakes(c, e, jid);
    case ApiStop(_, _) => ApiWakes(c, e, jid);
    case ApiResume(_, _) => ApiWakes(c, e, jid);
    case ApiDelete(_) => ApiWakes(c, e, jid);
    case PollSqs(_, _) => ApiWakes(c, e, jid);
    case Schedule(_, _, _, _) => ScheduleWakes(c, e, jid);
    case Deliver(_, _) => DeliverWakes(c, e, jid);
    case _ => OtherStepsKeepStopped(c, e, jid);
  }

  // ----- Whole runs -----

  /** The job is stopped before, between and after the steps. */
  predicate StaysStopped(c: Cluster, es: seq<Event>, jid: string)
    requires Valid(c, es)
    decreases |es|
  {
    IsStopped(c.tables, jid) && (es != [] ==> StaysStopped(Next(c, es[0]), es[1..], jid))
  }

  predicate NeverWoken(c: Cluster, es: seq<Event>, jid: string)
    requires Valid(c, es)
    decreases |es|
  {
    es != [] ==> !Wakes(c, es[0], jid) && NeverWoken(Next(c, es[0]), es[1..], jid)
  }

  lemma {:induction false} StoppedThroughout(c: Cluster, es: seq<Event>, jid: string)
    requires Valid(c, es) && IdsOk(c) && JobsCreated(c) && IsStopped(c.tables, jid)
    ensures StaysStopped(c, es, jid) <==> NeverWoken(c, es, jid)
    decreases |es|
  {
    if es == [] {
    } else {
      IdsOkStep(c, es[0]);
      JobsCreatedStep(c, es[0]);
      StoppedUntilWoken(c, es[0], jid);
      if !Wakes(c, es[0], jid) {
        StoppedThroughout(Next(c, es[0]), es[1..], jid);
      }
    }
  }

  /** From any reachable state a stopped job stays stopped throughout exactly when no step wakes it. */
  lemma StoppedInEveryRun(before: seq<Event>, es: seq<Event>, jid: string)
    requires Valid(Init(), before) && Valid(Run(Init(), before), es) && IsStopped(Run(Init(), before).tables, jid)
    ensures StaysStopped(Run(Init(), before), es, jid) <==> NeverWoken(Run(Init(), before), es, jid)
  {
    JobsCreatedAlways(Init(), before);
    StoppedThroughout(Run(Init(), before), es, jid);
  }
}
