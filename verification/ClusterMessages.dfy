/** No create or resume message is lost, and none waits behind the others. */
module ClusterMessages {
  import opened Sequences
  import opened JobModel
  import opened SchedulerSpec
  import opened Cluster
  import opened ClusterRecords
  import opened ReportFrames
  import Api = ApiServer

  function Key(id: string, stop: bool): LiveJob -> bool {
    (m: LiveJob) => m.id == id && m.stop == stop
  }

  function SettledKey(id: string, stop: bool): Settled -> bool {
    (s: Settled) => s.id == id && s.stop == stop
  }

  /** Every message accepted or delivered a second time is in SQS, in queued_jobs, or settled. */
  ghost predicate Conserved(c: Cluster, id: string, stop: bool) {
    CountBy(c.sent, Key(id, stop)) + CountBy(c.redelivered, Key(id, stop))
    == CountBy(c.sqs, Key(id, stop)) + CountBy(c.tables.queued, Key(id, stop))
       + CountBy(c.settled, SettledKey(id, stop))
  }

  /** Creates and resumes settle only by being launched; stops by being confirmed or discarded. */
  ghost predicate SettledWell(c: Cluster) {
    forall i | 0 <= i < |c.settled| ::
      if c.settled[i].stop then c.settled[i].verdict.StoppedOn? || c.settled[i].verdict.Discarded?
      else c.settled[i].verdict.LaunchedOn?
  }

  lemma SendConserves(c: Cluster, j: LiveJob, sent: bool, id: string, stop: bool)
    requires Conserved(c, id, stop)
    ensures Conserved(WithFront(c, Api.StoreAndSend(Api.Front(c.tables, c.sqs), j, sent)), id, stop)
  {
    if sent {
      CountByPush(c.sqs, j, Key(id, stop));
      CountByPush(c.sent, j, Key(id, stop));
      assert (c.sqs + [j])[|c.sqs|..] == [j];
    } else {
      assert c.sent + c.sqs[|c.sqs|..] == c.sent;
    }
  }

  lemma ApiConserves(c: Cluster, e: Event, id: string, stop: bool)
    requires Enabled(c, e) && (e.ApiCreate? || e.ApiStop? || e.ApiResume? || e.ApiDelete?)
    requires Conserved(c, id, stop)
    ensures Conserved(Next(c, e), id, stop)
  {
    var f := Api.Front(c.tables, c.sqs);
    assert c.sent + c.sqs[|c.sqs|..] == c.sent;
    match e
    case ApiCreate(jid, spec, sendOk) => SendConserves(c, Api.NewJob(jid, spec, c.clock), sendOk, id, stop);
    case ApiStop(jid, sendOk) =>
      if Api.Stoppable(f, jid) {
        SendConserves(c, Api.Asked(c.tables.jobs[jid], true), sendOk, id, stop);
      }
    case ApiResume(jid, sendOk) =>
      if Api.Resumable(f, jid) {
        SendConserves(c, Api.Asked(c.tables.jobs[jid], false), sendOk, id, stop);
      }
    case ApiDelete(_) =>
  }

  lemma PollConserves(c: Cluster, e: Event, id: string, stop: bool)
    requires Enabled(c, e) && e.PollSqs? && Conserved(c, id, stop)
    ensures Conserved(Next(c, e), id, stop)
  {
    var m := c.sqs[e.i];
    CountByPush(c.tables.queued, Polled(m, c.clock), Key(id, stop));
    CountByRemove(c.sqs, e.i, Key(id, stop));
    CountByPush(c.redelivered, m, Key(id, stop));
  }

  /** A scheduling step takes the front message, and puts it at the back unless it is settled. */
  lemma QueueAfter(t: Tables, pick: string, reply: Reply)
    requires t.queued != []
    ensures var m, rest := t.queued[0], t.queued[1..];
            ScheduleOne(t, pick, reply).queued
            == if Decide(t.(queued := rest), m, pick, reply).Rebuffered? then rest + [m] else rest
  {
  }

  lemma ScheduleConserves(c: Cluster, e: Event, id: string, stop: bool)
    requires Enabled(c, e) && e.Schedule? && Conserved(c, id, stop)
    ensures Conserved(Next(c, e), id, stop)
  {
    if c.tables.queued != [] {
      var m, rest := c.tables.queued[0], c.tables.queued[1..];
      var v := VerdictOf(c, e.pick, e.net, e.ok);
      QueueAfter(c.tables, e.pick, ReplyTo(c, e.pick, e.net, e.ok));
      CountByPush(rest, m, Key(id, stop));
      CountByPush(c.settled, Settled(m.id, m.stop, v), SettledKey(id, stop));
    }
  }

  lemma OtherStepsConserve(c: Cluster, e: Event, id: string, stop: bool)
    requires Enabled(c, e) && Conserved(c, id, stop)
    requires || e.CacheStats? || e.CheckJobs? || e.Lose? || e.RegisterWorker?
             || e.WorkerBeat? || e.SweepWorkers? || e.ExitWorker? || e.Tick?
    ensures Conserved(Next(c, e), id, stop)
  {
    var c' := Next(c, e);
    assert c'.sqs == c.sqs && c'.tables.queued == c.tables.queued;
    assert c'.sent == c.sent && c'.redelivered == c.redelivered && c'.settled == c.settled;
  }

  lemma ConservedStep(c: Cluster, e: Event, id: string, stop: bool)
    requires Enabled(c, e) && Conserved(c, id, stop)
    ensures Conserved(Next(c, e), id, stop)
  {
    match e
    case ApiCreate(_, _, _) => ApiConserves(c, e, id, stop);
    case ApiStop(_, _) => ApiConserves(c, e, id, stop);
    case ApiResume(_, _) => ApiConserves(c, e, id, stop);
    case ApiDelete(_) => ApiConserves(c, e, id, stop);
    case PollSqs(_, _) => PollConserves(c, e, id, stop);
    case Schedule(_, _, _, _) => ScheduleConserves(c, e, id, stop);
    case Deliver(i, _) => ReportFrame(c.tables, c.reports[i], c.clock);
    case _ => OtherStepsConserve(c, e, id, stop);
  }

  /** No message is marked for deletion, so no create or resume is dropped unhandled. */
  lemma SettledWellStep(c: Cluster, e: Event)
    requires Enabled(c, e) && RecordsAgree(c) && SettledWell(c)
    ensures SettledWell(Next(c, e))
  {
    if e.Schedule? && c.tables.queued != [] {
      assert MsgIs(c.clock)(c.tables.queued[0]);
    }
  }

  lemma {:induction false} MessagesAlways(c: Cluster, es: seq<Event>, id: string, stop: bool)
    requires Valid(c, es) && RecordsAgree(c) && SettledWell(c) && Conserved(c, id, stop)
    ensures SettledWell(Run(c, es)) && Conserved(Run(c, es), id, stop)
    decreases |es|
  {
    if es == [] {
    } else {
      RecordsAgreeStep(c, es[0]);
      SettledWellStep(c, es[0]);
      ConservedStep(c, es[0], id, stop);
      MessagesAlways(Next(c, es[0]), es[1..], id, stop);
    }
  }

  function LaunchOf(id: string): Settled -> bool {
    (s: Settled) => s.id == id && s.verdict.LaunchedOn?
  }

  lemma {:induction false} LaunchesAreSettled(s: seq<Settled>, id: string)
    requires forall i | 0 <= i < |s| :: s[i].stop <==> !s[i].verdict.LaunchedOn?
    ensures CountBy(s, SettledKey(id, false)) == CountBy(s, LaunchOf(id))
  {
    if s == [] {
    } else {
      LaunchesAreSettled(s[1..], id);
    }
  }

  /** In every run each create or resume ever sent is still in SQS or queued_jobs, or has been launched. */
  lemma NoCreateLost(es: seq<Event>, id: string)
    requires Valid(Init(), es)
    ensures var c := Run(Init(), es);
            CountBy(c.sent, Key(id, false)) + CountBy(c.redelivered, Key(id, false))
            == CountBy(c.sqs, Key(id, false)) + CountBy(c.tables.queued, Key(id, false))
               + CountBy(c.settled, LaunchOf(id))
  {
    MessagesAlways(Init(), es, id, false);
    LaunchesAreSettled(Run(Init(), es).settled, id);
  }

  /**
    A scheduling step that does not put its message back either launches it, storing it as
    running on that worker with one more load entry there; or stores it as stopped without a
    worker; or discards a stop that has no worker or whose worker is gone.
   */
  lemma WhatSettlesAMessage(c: Cluster, e: Event)
    requires Enabled(c, e) && e.Schedule? && c.tables.queued != [] && RecordsAgree(c) && Keyed(c.tables)
    ensures var c', m, v := Next(c, e), c.tables.queued[0], VerdictOf(c, e.pick, e.net, e.ok);
            match v
            case Rebuffered => c'.tables == c.tables.(queued := c.tables.queued[1..] + [m])
            case LaunchedOn(wid) =>
              && !m.stop && wid in c.workers && c'.tables.queued == c.tables.queued[1..]
              && m.id in c'.tables.jobs && c'.tables.jobs[m.id].state == Running
              && c'.tables.jobs[m.id].assignedWorker == wid
              && LoadOf(c'.tables, wid).jobs
                 == LoadOf(c.tables, wid).jobs + [JobLoad(m.id, JOB_CPU_LOAD, JOB_BANDWIDTH_LOAD)]
              && |c'.workers[wid].running| == |c.workers[wid].running| + 1
            case StoppedOn(wid) =>
              && m.stop && wid in c.workers && c'.tables.queued == c.tables.queued[1..]
              && m.id in c'.tables.jobs && c'.tables.jobs[m.id].state == Stopped
              && c'.tables.jobs[m.id].assignedWorker == ""
              && m.id in c.workers[wid].jobs && m.id !in c'.workers[wid].jobs
            case Discarded =>
              && m.stop && (m.assignedWorker == "" || m.assignedWorker !in c.tables.workers)
              && c'.tables == c.tables.(queued := c.tables.queued[1..])
  {
    assert MsgIs(c.clock)(c.tables.queued[0]);
  }

  // ----- Waiting in queued_jobs -----

  /** Scheduling steps that find the queue non-empty. */
  function Turns(c: Cluster, es: seq<Event>): nat
    requires Valid(c, es)
    decreases |es|
  {
    if es == [] then 0
    else (if es[0].Schedule? && c.tables.queued != [] then 1 else 0) + Turns(Next(c, es[0]), es[1..])
  }

  lemma QueueStep(c: Cluster, e: Event, d: nat)
    requires Enabled(c, e) && d < |c.tables.queued|
    requires e.Schedule? ==> d > 0
    ensures var d' := if e.Schedule? then d - 1 else d;
            d' < |Next(c, e).tables.queued| && Next(c, e).tables.queued[d'] == c.tables.queued[d]
  {
    if e.Schedule? {
      QueueAfter(c.tables, e.pick, ReplyTo(c, e.pick, e.net, e.ok));
    } else if e.Deliver? {
      ReportFrame(c.tables, c.reports[e.i], c.clock);
    }
  }

  /**
    A message with d messages before it moves up one place in every scheduling step, unchanged,
    whatever happens to the others; so the (d+1)-th step is the one that takes it.
   */
  lemma {:induction false} BoundedWaiting(c: Cluster, es: seq<Event>, d: nat)
    requires Valid(c, es) && d < |c.tables.queued| && Turns(c, es) <= d
    ensures var c' := Run(c, es);
            d - Turns(c, es) < |c'.tables.queued| && c'.tables.queued[d - Turns(c, es)] == c.tables.queued[d]
    decreases |es|
  {
    if es == [] {
    } else {
      QueueStep(c, es[0], d);
      BoundedWaiting(Next(c, es[0]), es[1..], if es[0].Schedule? then d - 1 else d);
    }
  }
}
