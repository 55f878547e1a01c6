/** The scheduler's handlers and timer bodies, working in place on the shared tables. */
module SchedulerApp {
  import opened JobModel
  import opened SchedulerSpec
  import opened RedisClient
  import opened SchedulerMeaning

  /** Messages in SQS; a message that has been received stays until it is deleted. */
  class SqsQueue {
    var messages: seq<LiveJob>

    constructor ()
      ensures messages == []
    {
      messages := [];
    }
  }

  class Scheduler {
    const redis: Redis

    constructor (redis: Redis)
      ensures this.redis == redis
    {
      this.redis := redis;
    }

    /** Receives the message at position i; deleteOk says whether the SQS delete took effect. */
    method PollJobQueue(sqs: SqsQueue, i: nat, now: int, deleteOk: bool)
      requires i < |sqs.messages|
      modifies redis, sqs
      ensures redis.View() == Poll(old(redis.View()), old(sqs.messages)[i], now)
      ensures sqs.messages == if deleteOk then old(sqs.messages)[..i] + old(sqs.messages)[i + 1..]
                              else old(sqs.messages)
      ensures var m := old(sqs.messages)[i];
              && redis.jobs == (if m.stop then old(redis.jobs) else old(redis.jobs)[m.id := m.(receivedMs := now)])
              && redis.queuedJobs == [if m.stop then m else m.(receivedMs := now)] + old(redis.queuedJobs)
    {
      var job := sqs.messages[i];
      if !job.stop {
        job := job.(receivedMs := now);
        redis.HSetJob(job);
      }
      redis.QPushStruct(job);
      if deleteOk {
        sqs.messages := sqs.messages[..i] + sqs.messages[i + 1..];
      }
    }

    method AddNewJobLoad(w: LiveWorker, jid: string)
      modifies redis
      ensures redis.View() == AddLoad(old(redis.View()), w, jid)
      ensures redis.workers == old(redis.workers)[w.id := w.(status := Loaded)] && redis.jobs == old(redis.jobs)
      ensures redis.queuedJobs == old(redis.queuedJobs)
      ensures var l := if w.id in old(redis.workerLoads) then old(redis.workerLoads)[w.id]
                       else WorkerLoad("", [], 0, 0);
              redis.workerLoads == old(redis.workerLoads)[w.id :=
                WorkerLoad(w.id, l.jobs + [JobLoad(jid, 1000, 20000)], l.cpu + 1000, l.bandwidth + 20000)]
    {
      var load := WorkerLoad("", [], 0, 0);
      if w.id in redis.workerLoads {
        load := redis.workerLoads[w.id];
      }
      var jobLoad := JobLoad(jid, JOB_CPU_LOAD, JOB_BANDWIDTH_LOAD);
      load := WorkerLoad(w.id, load.jobs + [jobLoad], load.cpu + jobLoad.cpu, load.bandwidth + jobLoad.bandwidth);
      redis.workerLoads := redis.workerLoads[w.id := load];
      redis.workers := redis.workers[w.id := w.(status := Loaded)];
    }

    method UpdateWorkerLoad(wid: string, stoppedId: string) returns (ok: bool)
      modifies redis
      ensures redis.View() == SubtractLoad(old(redis.View()), wid, stoppedId)
      ensures ok <==> LoadNames(old(redis.View()), wid, stoppedId)
      ensures redis.jobs == old(redis.jobs) && redis.workers == old(redis.workers)
      ensures redis.queuedJobs == old(redis.queuedJobs)
    {
      if wid !in redis.workerLoads {
        return false;
      }
      var load := redis.workerLoads[wid];
      var index, found := 0, false;
      while index < |load.jobs|
        invariant index <= |load.jobs|
        invariant forall k | 0 <= k < index :: load.jobs[k].id != stoppedId
        invariant !found
      {
        if load.jobs[index].id == stoppedId {
          found := true;
          break;
        }
        index := index + 1;
      }
      if !found {
        assert FirstLoad(load.jobs, stoppedId) == |load.jobs|;
        assert redis.workerLoads == redis.workerLoads[wid := load];
        return false;
      }
      assert FirstLoad(load.jobs, stoppedId) == index;
      var jobLoad := load.jobs[index];
      load := load.(cpu := load.cpu - jobLoad.cpu,
                    bandwidth := load.bandwidth - jobLoad.bandwidth,
                    jobs := load.jobs[..index] + load.jobs[index + 1..]);
      redis.workerLoads := redis.workerLoads[wid := load];
      return true;
    }

    /** What the code does with the worker's answer; ok is false when the caller must buffer the message again. */
    method SendJobToWorker(j: LiveJob, wid: string, reply: Reply) returns (ok: bool)
      requires !j.delete || j.stop
      requires Keyed(redis.View())
      modifies redis
      ensures var t := old(redis.View());
              if wid !in t.workers then !ok && redis.View() == t
              else if !j.stop && reply.Launched? then ok && redis.View() == Apply(t, j, LaunchedOn(wid), reply)
              else if j.stop && reply.StopOk? then ok && redis.View() == Apply(t, j, StoppedOn(wid), reply)
              else !ok && redis.View() == t
      ensures redis.queuedJobs == old(redis.queuedJobs)
      ensures ok <==> wid in old(redis.workers) && (if j.stop then reply.StopOk? else reply.Launched?)
      ensures redis.jobs ==
                if ok && j.stop then old(redis.jobs)[j.id :=
                  j.(state := Stopped, bandwidth := 0, cpu := "", assignedWorker := "", stop := false)]
                else if ok then old(redis.jobs)[reply.job.id := reply.job.(state := Running, assignedWorker := wid)]
                else old(redis.jobs)
    {
      if wid !in redis.workers {
        return false;
      }
      var worker := redis.workers[wid];
      if !j.stop {
        if !reply.Launched? {
          return false;
        }
        redis.HSetJob(reply.job.(assignedWorker := wid, state := Running));
        AddNewJobLoad(worker, reply.job.id);
        return true;
      }
      if !reply.StopOk? {
        return false;
      }
      var job := j.(state := Stopped, bandwidth := 0, cpu := "");
      job := job.(assignedWorker := "", stop := false);
      redis.HSetJob(job);
      return true;
    }

    /** getAllAvailableWorkers over the keys in the order HKEYS returned them. */
    method GetAllAvailableWorkers(keys: seq<string>) returns (available: seq<string>)
      requires forall wid :: wid in keys <==> wid in redis.workers
      ensures forall wid :: wid in available <==> wid in AvailableWorkers(redis.View())
      ensures available == [] ==> AvailableWorkers(redis.View()) == {}
    {
      available := [];
      for i := 0 to |keys|
        invariant forall wid :: wid in available <==> wid in keys[..i] && redis.workers[wid].status != NotAvailable
      {
        if redis.workers[keys[i]].status != NotAvailable {
          available := available + [keys[i]];
        }
      }
      assert keys[..|keys|] == keys;
    }

    /** The checks made once a worker has been picked; a message that is not placed is buffered again. */
    method PlaceJob(j: LiveJob, pick: string, reply: Reply)
      requires !j.stop && !j.delete && Keyed(redis.View()) && pick in AvailableWorkers(redis.View())
      modifies redis
      ensures var t := old(redis.View()); redis.View() == Apply(t, j, Decide(t, j, pick, reply), reply)
      ensures var l := if pick in old(redis.workerLoads) then old(redis.workerLoads)[pick]
                       else WorkerLoad("", [], 0, 0);
              var info := old(redis.workers)[pick].info;
              if l.cpu < info.cpuCapacity && l.bandwidth < info.bandwidthCapacity && reply.Launched? then
                && redis.queuedJobs == old(redis.queuedJobs)
                && redis.jobs == old(redis.jobs)[reply.job.id := reply.job.(state := Running, assignedWorker := pick)]
                && pick in redis.workerLoads
                && redis.workerLoads[pick].jobs == l.jobs + [JobLoad(reply.job.id, 1000, 20000)]
              else redis.queuedJobs == [j] + old(redis.queuedJobs) && redis.jobs == old(redis.jobs)
    {
      var load := WorkerLoad("", [], 0, 0);
      if pick in redis.workerLoads {
        load := redis.workerLoads[pick];
      }
      if load.cpu >= redis.workers[pick].info.cpuCapacity {
        redis.QPushStruct(j);
        return;
      }
      if load.bandwidth >= redis.workers[pick].info.bandwidthCapacity {
        redis.QPushStruct(j);
        return;
      }
      var ok := SendJobToWorker(j, pick, reply);
      if !ok {
        redis.QPushStruct(j);
      }
    }

    method StopAssigned(j: LiveJob, reply: Reply)
      requires j.stop && Keyed(redis.View())
      modifies redis
      ensures var t := old(redis.View()); redis.View() == Apply(t, j, Decide(t, j, "", reply), reply)
      ensures if j.assignedWorker == "" || j.assignedWorker !in old(redis.workers) then
                redis.queuedJobs == old(redis.queuedJobs) && redis.jobs == old(redis.jobs)
              else if reply.StopOk? then
                && redis.queuedJobs == old(redis.queuedJobs)
                && redis.jobs == old(redis.jobs)[j.id :=
                     j.(state := Stopped, bandwidth := 0, cpu := "", assignedWorker := "", stop := false)]
              else redis.queuedJobs == [j] + old(redis.queuedJobs) && redis.jobs == old(redis.jobs)
    {
      if j.assignedWorker == "" {
        return;
      }
      if j.assignedWorker !in redis.workers {
        return;
      }
      var ok := SendJobToWorker(j, j.assignedWorker, reply);
      if !ok {
        redis.QPushStruct(j);
      }
    }

    /**
      One tick of the scheduling timer. rn is the random number; pick is the worker it selects
      for a create or resume message, "" when there is none.
     */
    method ScheduleOneJob(keys: seq<string>, rn: nat, reply: Reply) returns (pick: string)
      requires Keyed(redis.View())
      requires forall wid :: wid in keys <==> wid in redis.workers
      modifies redis
      ensures redis.View() == ScheduleOne(old(redis.View()), pick, reply)
      ensures old(redis.View()).queued != [] && !old(redis.View()).queued[0].stop && !old(redis.View()).queued[0].delete
              && AvailableWorkers(old(redis.View())) != {}
              ==> pick in AvailableWorkers(old(redis.View()))
    {
      pick := "";
      var count := redis.QLen();
      if count <= 0 {
        return;
      }
      var j := redis.QFront();
      var popped := redis.QPop();
      if !(j.stop || j.delete) {
        var available := GetAllAvailableWorkers(keys);
        if |available| == 0 {
          redis.QPushStruct(j);
          return;
        }
        pick := available[rn % |available|];
        assert pick in available;
        PlaceJob(j, pick, reply);
      } else if j.stop {
        StopAssigned(j, reply);
      }
    }

    method HandleStoppedJob(wid: string, jid: string)
      requires Keyed(redis.View())
      modifies redis
      ensures Keyed(redis.View())
      ensures redis.View() == ReportStopped(old(redis.View()), wid, jid)
      ensures redis.jobs.Keys == old(redis.jobs).Keys
      ensures jid in redis.jobs ==> StoppedRow(old(redis.jobs)[jid], redis.jobs[jid])
      ensures forall k | k in redis.jobs && k != jid :: redis.jobs[k] == old(redis.jobs)[k]
    {
      if jid in redis.jobs {
        redis.HSetJob(redis.jobs[jid].(state := Stopped, bandwidth := 0, cpu := ""));
      }
      var ok := UpdateWorkerLoad(wid, jid);
    }

    method HandleJobStats(st: JobStats, now: int)
      requires Keyed(redis.View())
      modifies redis
      ensures Keyed(redis.View())
      ensures redis.View() == ReportStats(old(redis.View()), st, now)
      ensures redis.jobs.Keys == old(redis.jobs).Keys
      ensures forall jid | jid in redis.jobs && jid != st.id :: redis.jobs[jid] == old(redis.jobs)[jid]
      ensures st.id in redis.jobs ==> Updated(old(redis.jobs)[st.id], st, now, redis.jobs[st.id])
    {
      if st.id in redis.jobs {
        var j := redis.jobs[st.id];
        AccountedUpdates(j, st, now);
        var state, bytes, active := Running, j.bytesIngested, j.activeSeconds;
        if st.bandwidth > INGEST_BANDWIDTH_THRESHOLD_KBPS {
          state := Streaming;
        }
        if j.lastReportMs > 0 {
          bytes := bytes + TruncDiv((now - j.lastReportMs) * st.bandwidth, 8);
        }
        if st.bandwidth > INGEST_BANDWIDTH_THRESHOLD_KBPS && j.lastReportMs > 0 {
          active := active + TruncDiv(now - j.lastReportMs, 1000);
        }
        j := j.(state := state, bandwidth := st.bandwidth, cpu := st.cpu, bytesIngested := bytes,
                upSeconds := TruncDiv(now - j.createdMs, 1000), activeSeconds := active);
        assert j.(lastReportMs := now) == Accounted(redis.jobs[st.id], st, now);
        redis.HSetJob(j.(lastReportMs := now));
      }
    }

    /** The jobstatus handler; now is the clock, read once. */
    method HandleJobStatus(report: WorkerJobReport, now: int)
      requires Keyed(redis.View())
      modifies redis
      ensures redis.View() == Report(old(redis.View()), report, now)
      ensures forall jid | jid in old(redis.jobs) ::
                jid in redis.jobs && RowReported(old(redis.jobs)[jid], report, now, redis.jobs[jid])
    {
      ghost var before := redis.View();
      for i := 0 to |report.stoppedJobs|
        invariant Keyed(redis.View())
        invariant redis.View() == ReportAllStopped(before, report.workerId, report.stoppedJobs[..i])
      {
        assert report.stoppedJobs[..i + 1][..i] == report.stoppedJobs[..i];
        HandleStoppedJob(report.workerId, report.stoppedJobs[i]);
      }
      ghost var stopped := redis.View();
      assert report.stoppedJobs[..|report.stoppedJobs|] == report.stoppedJobs;
      for i := 0 to |report.stats|
        invariant Keyed(redis.View())
        invariant redis.View() == ReportAllStats(stopped, report.stats[..i], now)
      {
        assert report.stats[..i + 1][..i] == report.stats[..i];
        HandleJobStats(report.stats[i], now);
      }
      assert report.stats[..|report.stats|] == report.stats;
      forall jid | jid in before.jobs
        ensures jid in redis.jobs && RowReported(before.jobs[jid], report, now, redis.jobs[jid])
      {
        ReportRow(before, report, now, jid);
      }
    }

    /** Marks the jobs in a worker's load as stopped; it does not stop them. */
    method StopWorkerJobs(wid: string)
      requires Keyed(redis.View())
      modifies redis`jobs
      ensures redis.View() == old(redis.View()).(jobs := Removed(old(redis.View()), {wid}).jobs)
      ensures redis.jobs.Keys == old(redis.jobs).Keys
      ensures forall jid | jid in redis.jobs ::
                if wid in redis.workerLoads && Names(redis.workerLoads[wid].jobs, jid)
                then StoppedRow(old(redis.jobs)[jid], redis.jobs[jid]) else redis.jobs[jid] == old(redis.jobs)[jid]
    {
      if wid !in redis.workerLoads {
        assert redis.jobs == Removed(redis.View(), {wid}).jobs;
        return;
      }
      ghost var before := redis.View();
      var loads := redis.workerLoads[wid].jobs;
      assert redis.jobs == HaltListed(before.jobs, loads[..0]);
      for i := 0 to |loads|
        invariant Keyed(redis.View())
        invariant redis.jobs == HaltListed(before.jobs, loads[..i])
      {
        HaltListedPush(before.jobs, loads, i);
        var jid := loads[i].id;
        if jid in redis.jobs {
          var j := redis.jobs[jid];
          j := j.(state := Stopped, bandwidth := 0, cpu := "");
          redis.jobs := redis.jobs[j.id := j];
        }
      }
      assert loads[..|loads|] == loads;
      HaltListedRemoves(before, wid);
    }

    /** stopWorkerJobs followed by removeWorker. */
    method DropWorker(wid: string)
      requires Keyed(redis.View())
      modifies redis
      ensures redis.View() == Removed(old(redis.View()), {wid})
    {
      StopWorkerJobs(wid);
      redis.workers := redis.workers - {wid};
      assert redis.workers == Removed(old(redis.View()), {wid}).workers;
    }

    /** Removes every worker whose last heartbeat is too old; keys are the worker ids in HKEYS order. */
    method CheckWorkerHeartbeat(keys: seq<string>, now: int)
      requires Keyed(redis.View())
      requires forall wid :: wid in keys <==> wid in redis.workers
      requires forall a, b | 0 <= a < b < |keys| :: keys[a] != keys[b]
      modifies redis
      ensures redis.View() == Sweep(old(redis.View()), now)
      ensures forall wid :: wid in redis.workers <==>
                && wid in old(redis.workers)
                && now - old(redis.workers)[wid].lastHeartbeatMs
                   <= TruncDiv(10 * old(redis.workers)[wid].info.heartbeatIntervalNs, 1000000)
      ensures forall wid | wid in redis.workers :: redis.workers[wid] == old(redis.workers)[wid]
    {
      ghost var before := redis.View();
      var rows := [];
      for i := 0 to |keys|
        invariant |rows| == i && forall k | 0 <= k < i :: rows[k] == redis.workers[keys[k]]
      {
        rows := rows + [redis.workers[keys[i]]];
      }
      ghost var gone := {};
      RemovedNone(before);
      for i := 0 to |rows|
        invariant redis.View() == Removed(before, gone)
        invariant forall wid :: wid in gone <==> wid in keys[..i] && Expired(before.workers[wid], now)
      {
        var limitMs := TruncDiv(MAX_MISSING_HEARTBEATS * rows[i].info.heartbeatIntervalNs, 1000000);
        if now - rows[i].lastHeartbeatMs > limitMs {
          RemovedAgain(before, gone, rows[i].id);
          DropWorker(rows[i].id);
          gone := gone + {rows[i].id};
          assert redis.View() == Removed(before, gone);
        }
      }
      assert keys[..|keys|] == keys;
      assert gone == ExpiredWorkers(before, now);
    }

    /** uuid is the fresh random id. */
    method CreateWorker(uuid: string, info: WorkerInfo, now: int)
      modifies redis
      ensures redis.View() == Register(old(redis.View()), uuid, info, now)
      ensures redis.workers == old(redis.workers)[uuid := LiveWorker(uuid, Idle, info, now)]
    {
      redis.workers := redis.workers[uuid := LiveWorker(uuid, Idle, info, now)];
    }

    method HandleHeartbeat(wid: string, sentMs: int) returns (ok: bool)
      requires Keyed(redis.View())
      modifies redis
      ensures ok <==> wid in old(redis.workers)
      ensures redis.View() == Heartbeat(old(redis.View()), wid, sentMs)
      ensures redis.workers == if ok then old(redis.workers)[wid := old(redis.workers)[wid].(lastHeartbeatMs := sentMs)]
                               else old(redis.workers)
    {
      if wid !in redis.workers {
        return false;
      }
      var worker := redis.workers[wid].(lastHeartbeatMs := sentMs);
      redis.workers := redis.workers[worker.id := worker];
      return true;
    }
  }

  /** The job table with every job listed in loads marked as stopped. */
  ghost function HaltListed(jobs: map<string, LiveJob>, loads: seq<JobLoad>): map<string, LiveJob> {
    map jid | jid in jobs :: if Names(loads, jid) then Halted(jobs[jid]) else jobs[jid]
  }

  ghost predicate Names(loads: seq<JobLoad>, jid: string) {
    exists i | 0 <= i < |loads| :: loads[i].id == jid
  }

  lemma HaltListedPush(jobs: map<string, LiveJob>, loads: seq<JobLoad>, i: nat)
    requires i < |loads|
    ensures var was := HaltListed(jobs, loads[..i]);
            var jid := loads[i].id;
            HaltListed(jobs, loads[..i + 1]) == if jid in was then was[jid := Halted(was[jid])] else was
  {
    forall jid
      ensures Names(loads[..i + 1], jid) <==> Names(loads[..i], jid) || jid == loads[i].id
    {
      if Names(loads[..i], jid) {
        var k :| 0 <= k < i && loads[..i][k].id == jid;
        assert loads[..i + 1][k].id == jid;
      }
      assert loads[..i + 1][i] == loads[i];
    }
  }

  lemma HaltListedRemoves(t: Tables, wid: string)
    requires wid in t.loads
    ensures HaltListed(t.jobs, t.loads[wid].jobs) == Removed(t, {wid}).jobs
  {
    forall jid
      ensures Names(t.loads[wid].jobs, jid) <==> ListedIn(t, {wid}, jid)
    {
      assert Names(t.loads[wid].jobs, jid) <==> LoadNames(t, wid, jid);
    }
  }

  lemma RemovedNone(t: Tables)
    ensures Removed(t, {}) == t
  {
    assert Removed(t, {}).workers == t.workers;
    assert Removed(t, {}).jobs == t.jobs;
  }

  /** Removing workers one at a time is the same as removing them together. */
  lemma RemovedAgain(t: Tables, wids: set<string>, wid: string)
    ensures Removed(Removed(t, wids), {wid}) == Removed(t, wids + {wid})
  {
    var a, b := Removed(Removed(t, wids), {wid}), Removed(t, wids + {wid});
    assert a.workers == b.workers;
    assert a.jobs == b.jobs by {
      forall jid | jid in t.jobs
        ensures ListedIn(t, wids + {wid}, jid) <==> ListedIn(t, wids, jid) || ListedIn(Removed(t, wids), {wid}, jid)
      {
        assert LoadNames(Removed(t, wids), wid, jid) == LoadNames(t, wid, jid);
      }
    }
  }
}
