/** The worker daemon: its job map, its running list and its pool of RTMP ports. */
module WorkerSpec {
  import opened Sequences
  import opened JobModel
  import opened SchedulerSpec

  /** A launched transcoder; pid identifies the process, udpPortBase is the base it was given. */
  datatype RunningJob = RunningJob(job: LiveJob, pid: nat, udpPortBase: int)

  /**
    The state of one worker process. released and leaked are history: the processes that took a
    SIGTERM and so gave their port back, and the ports of entries reaped without that.
   */
  datatype Worker = Worker(id: string, udpPortBase: int, jobs: map<string, LiveJob>, running: seq<RunningJob>,
                           freePorts: seq<int>, released: set<nat>, leaked: seq<int>)

  const RTMP_PORT_BASE := 1935
  const MAX_RTMP_PORTS := 15

  function InitialPorts(): seq<int> {
    seq(MAX_RTMP_PORTS, i => RTMP_PORT_BASE + i)
  }

  function NewWorker(id: string, udpPortBase: int): Worker {
    Worker(id, udpPortBase, map[], [], InitialPorts(), {}, [])
  }

  /** Renditions of all the running jobs. */
  function TotalOutputs(running: seq<RunningJob>): nat {
    if running == [] then 0
    else
      var spec := running[|running| - 1].job.spec;
      TotalOutputs(running[..|running| - 1]) + |spec.videoOutputs| + |spec.audioOutputs|
  }

  /** With no free port the error is ignored and the job keeps the port number it arrived with. */
  function PortFor(w: Worker, m: LiveJob): int {
    if w.freePorts != [] && w.freePorts[0] >= 0 then w.freePorts[0] else m.rtmpPort
  }

  function WithPort(w: Worker, m: LiveJob): LiveJob {
    m.(rtmpPort := PortFor(w, m))
  }

  function Post(w: Worker, m: LiveJob, pid: nat, started: bool): Worker {
    w.(freePorts := if w.freePorts != [] then w.freePorts[1..] else [],
       running := w.running + [RunningJob(WithPort(w, m), pid, w.udpPortBase + TotalOutputs(w.running))],
       jobs := if started then w.jobs[m.id := WithPort(w, m)] else w.jobs - {m.id})
  }

  function PostReply(w: Worker, m: LiveJob, started: bool): Reply {
    if started then Launched(WithPort(w, m)) else ServerError
  }

  /** The first running entry of a job. */
  function FirstRunning(running: seq<RunningJob>, jid: string): (i: nat)
    ensures i <= |running|
    ensures forall k | 0 <= k < i :: running[k].job.id != jid
    ensures i < |running| ==> running[i].job.id == jid
  {
    if running == [] then 0
    else if running[0].job.id == jid then 0
    else 1 + FirstRunning(running[1..], jid)
  }

  predicate CanSignal(w: Worker, jid: string) {
    jid in w.jobs && FirstRunning(w.running, jid) < |w.running|
  }

  function Stop(w: Worker, jid: string, signalled: bool): Worker {
    if CanSignal(w, jid) && signalled then
      var e := w.running[FirstRunning(w.running, jid)];
      w.(freePorts := w.freePorts + [e.job.rtmpPort], jobs := w.jobs - {jid}, released := w.released + {e.pid})
    else w
  }

  function StopReply(w: Worker, jid: string, signalled: bool): Reply {
    if !CanSignal(w, jid) then JobNotFound else if signalled then StopOk else ServerError
  }

  function Answers(alive: set<nat>): RunningJob -> bool {
    (e: RunningJob) => e.pid in alive
  }

  function Dead(alive: set<nat>): RunningJob -> bool {
    (e: RunningJob) => e.pid !in alive
  }

  function Unreleased(released: set<nat>): RunningJob -> bool {
    (e: RunningJob) => e.pid !in released
  }

  function JobIdOf(): RunningJob -> string {
    (e: RunningJob) => e.job.id
  }

  function PortOf(): RunningJob -> int {
    (e: RunningJob) => e.job.rtmpPort
  }

  function StatsIdOf(): JobStats -> string {
    (st: JobStats) => st.id
  }

  /** The readings cached for a job, zero when the job map has no entry. */
  function CachedStats(jobs: map<string, LiveJob>): RunningJob -> JobStats {
    (e: RunningJob) =>
      if e.job.id in jobs then JobStats(e.job.id, jobs[e.job.id].bandwidth, jobs[e.job.id].cpu)
      else JobStats(e.job.id, 0, "")
  }

  function Check(w: Worker, alive: set<nat>): Worker {
    w.(running := Filter(w.running, Answers(alive)),
       leaked := w.leaked + Map(Filter(Filter(w.running, Dead(alive)), Unreleased(w.released)), PortOf()))
  }

  function CheckReport(w: Worker, alive: set<nat>): WorkerJobReport {
    WorkerJobReport(w.id, Map(Filter(w.running, Dead(alive)), JobIdOf()),
                    Map(Filter(w.running, Answers(alive)), CachedStats(w.jobs)))
  }

  function CacheStats(w: Worker, jid: string, bandwidth: int, cpu: string): Worker {
    if jid in w.jobs then w.(jobs := w.jobs[jid := w.jobs[jid].(bandwidth := bandwidth, cpu := cpu)]) else w
  }
}

module WorkerApp {
  import opened Sequences
  import opened JobModel
  import opened SchedulerSpec
  import opened WorkerSpec

  class WorkerApp {
    const id: string
    const udpPortBase: int
    var jobs: map<string, LiveJob>
    var runningJobs: seq<RunningJob>
    var availableRtmpPorts: seq<int>
    ghost var released: set<nat>
    ghost var leaked: seq<int>

    constructor (id: string, udpPortBase: int)
      ensures View() == NewWorker(id, udpPortBase)
      ensures |availableRtmpPorts| == 15 && forall i | 0 <= i < 15 :: availableRtmpPorts[i] == 1935 + i
    {
      this.id, this.udpPortBase := id, udpPortBase;
      jobs, runningJobs := map[], [];
      released, leaked := {}, [];
      availableRtmpPorts := [];
      new;
      var p := RTMP_PORT_BASE;
      while p < RTMP_PORT_BASE + MAX_RTMP_PORTS
        invariant RTMP_PORT_BASE <= p <= RTMP_PORT_BASE + MAX_RTMP_PORTS
        invariant availableRtmpPorts == seq(p - RTMP_PORT_BASE, i => RTMP_PORT_BASE + i)
        invariant jobs == map[] && runningJobs == [] && released == {} && leaked == []
      {
        availableRtmpPorts := availableRtmpPorts + [p];
        p := p + 1;
      }
    }

    ghost function View(): Worker
      reads this
    {
      Worker(id, udpPortBase, jobs, runningJobs, availableRtmpPorts, released, leaked)
    }

    /** Takes the port at the front of the list, -1 when the list is empty. */
    method AllocateRtmpIngestPort() returns (port: int)
      modifies this`availableRtmpPorts
      ensures old(availableRtmpPorts) == [] ==> port == -1 && availableRtmpPorts == []
      ensures old(availableRtmpPorts) != [] ==> [port] + availableRtmpPorts == old(availableRtmpPorts)
    {
      if availableRtmpPorts != [] {
        port := availableRtmpPorts[0];
        availableRtmpPorts := availableRtmpPorts[1..];
      } else {
        port := -1;
      }
    }

    method ReleaseRtmpPort(port: int)
      modifies this`availableRtmpPorts
      ensures availableRtmpPorts == old(availableRtmpPorts) + [port]
    {
      availableRtmpPorts := availableRtmpPorts + [port];
    }

    method CreateIngestUrl(job: LiveJob)
      modifies this`availableRtmpPorts, this`jobs
      ensures availableRtmpPorts == if old(availableRtmpPorts) != [] then old(availableRtmpPorts)[1..] else []
      ensures jobs == old(jobs)[job.id := WithPort(old(View()), job)]
      ensures var free := old(availableRtmpPorts) != [] && old(availableRtmpPorts)[0] >= 0;
              jobs == old(jobs)[job.id := if free then job.(rtmpPort := old(availableRtmpPorts)[0]) else job]
    {
      var port := AllocateRtmpIngestPort();
      var j := job;
      if port >= 0 {
        j := j.(rtmpPort := port);
      }
      jobs := jobs[j.id := j];
    }

    /** pid is the new process; started says whether it was still running after 100 ms. */
    method LaunchJob(j: LiveJob, pid: nat, started: bool) returns (ok: bool)
      modifies this`runningJobs
      ensures runningJobs == old(runningJobs) + [RunningJob(j, pid, udpPortBase + TotalOutputs(old(runningJobs)))]
      ensures ok == started
    {
      var totalOutputs := 0;
      for i := 0 to |runningJobs|
        invariant totalOutputs == TotalOutputs(runningJobs[..i])
      {
        assert runningJobs[..i + 1][..i] == runningJobs[..i];
        totalOutputs := totalOutputs + |runningJobs[i].job.spec.videoOutputs|;
        totalOutputs := totalOutputs + |runningJobs[i].job.spec.audioOutputs|;
      }
      assert runningJobs[..|runningJobs|] == runningJobs;
      runningJobs := runningJobs + [RunningJob(j, pid, udpPortBase + totalOutputs)];
      ok := started;
    }

    /** The POST handler. */
    method HandlePost(job: LiveJob, pid: nat, started: bool) returns (reply: Reply)
      modifies this`jobs, this`runningJobs, this`availableRtmpPorts
      ensures View() == Post(old(View()), job, pid, started)
      ensures reply == PostReply(old(View()), job, started)
      ensures var free := old(availableRtmpPorts) != [] && old(availableRtmpPorts)[0] >= 0;
              var j := if free then job.(rtmpPort := old(availableRtmpPorts)[0]) else job;
              && availableRtmpPorts == (if old(availableRtmpPorts) != [] then old(availableRtmpPorts)[1..] else [])
              && |runningJobs| == |old(runningJobs)| + 1 && runningJobs[..|old(runningJobs)|] == old(runningJobs)
              && runningJobs[|old(runningJobs)|].job == j && runningJobs[|old(runningJobs)|].pid == pid
              && jobs == (if started then old(jobs)[job.id := j] else old(jobs) - {job.id})
              && reply == if started then Launched(j) else ServerError
    {
      ghost var j0 := WithPort(View(), job);
      jobs := jobs[job.id := job];
      CreateIngestUrl(job);
      assert jobs == old(jobs)[job.id := j0];
      var j := jobs[job.id];
      var ok := LaunchJob(j, pid, started);
      if !ok {
        jobs := jobs - {job.id};
        assert jobs == old(jobs) - {job.id};
        return ServerError;
      }
      return Launched(j);
    }

    /** signalled says whether the process accepted SIGTERM. */
    method StopJob(jid: string, signalled: bool) returns (reply: Reply)
      modifies this
      ensures View() == Stop(old(View()), jid, signalled)
      ensures reply == StopReply(old(View()), jid, signalled)
      ensures var i := FirstRunning(old(runningJobs), jid);
              && runningJobs == old(runningJobs)
              && if jid !in old(jobs) || i == |old(runningJobs)| then
                   reply == JobNotFound && jobs == old(jobs) && availableRtmpPorts == old(availableRtmpPorts)
                 else if signalled then
                   && reply == StopOk && jobs == old(jobs) - {jid}
                   && availableRtmpPorts == old(availableRtmpPorts) + [old(runningJobs)[i].job.rtmpPort]
                 else reply == ServerError && jobs == old(jobs) && availableRtmpPorts == old(availableRtmpPorts)
    {
      if jid !in jobs {
        return JobNotFound;
      }
      var jobFound, stopped := false, false;
      var e := 0;
      while e < |runningJobs|
        invariant e <= |runningJobs| && !jobFound && !stopped
        invariant forall k | 0 <= k < e :: runningJobs[k].job.id != jid
        invariant View() == old(View())
      {
        if runningJobs[e].job.id != jid {
          e := e + 1;
          continue;
        }
        jobFound := true;
        if signalled {
          ReleaseRtmpPort(runningJobs[e].job.rtmpPort);
          jobs := jobs - {jid};
          released := released + {runningJobs[e].pid};
          stopped := true;
        }
        break;
      }
      assert e == FirstRunning(runningJobs, jid);
      if !jobFound {
        return JobNotFound;
      }
      return if stopped then StopOk else ServerError;
    }

    /**
      The first loop of checkJobStatus. It removes an element only when the cursor has moved past
      it, so the cursor never stands on a removed element; prev is the position of the element
      before the cursor, and a removal moves the cursor back by one.
     */
    method RemoveStoppedJobs(alive: set<nat>) returns (stoppedJobs: seq<string>)
      modifies this`runningJobs
      ensures runningJobs == Filter(old(runningJobs), Answers(alive))
      ensures stoppedJobs == Map(Filter(old(runningJobs), Dead(alive)), JobIdOf())
    {
      ghost var all := runningJobs;
      stoppedJobs := [];
      var prev, prevAlive, e := -1, true, 0;
      ghost var n := 0;
      while e < |runningJobs|
        invariant 0 <= n <= |all| && e == prev + 1
        invariant Walked(all, alive, n, prev, prevAlive, runningJobs, stoppedJobs)
        decreases |all| - n
      {
        var removed;
        removed, stoppedJobs := DropBehind(prev, prevAlive, stoppedJobs, all, alive, n);
        if removed {
          e := e - 1;
        }
        VisitNext(all, alive, n, runningJobs, stoppedJobs);
        prevAlive := runningJobs[e].pid in alive;
        prev := e;
        e := e + 1;
        n := n + 1;
      }
      var removed;
      WalkedAll(all, alive, n, prev, prevAlive, runningJobs, stoppedJobs);
      removed, stoppedJobs := DropBehind(prev, prevAlive, stoppedJobs, all, alive, n);
      FilteredAll(all, alive, runningJobs, stoppedJobs);
    }

    /** Removes the entry at prev, and lists its job, if there is one and its process does not answer. */
    method DropBehind(prev: int, prevAlive: bool, stopped: seq<string>,
                      ghost all: seq<RunningJob>, ghost alive: set<nat>, ghost n: nat)
      returns (removed: bool, stopped': seq<string>)
      requires Walked(all, alive, n, prev, prevAlive, runningJobs, stopped)
      modifies this`runningJobs
      ensures removed <==> prev != -1 && !prevAlive
      ensures Filtered(all, alive, n, runningJobs, stopped')
      ensures |Filter(all[..n], Answers(alive))| == if removed then prev else prev + 1
    {
      WalkOn(all, alive, n, prev, prevAlive, runningJobs, stopped);
      removed, stopped' := prev != -1 && !prevAlive, stopped;
      if removed {
        stopped' := stopped + [runningJobs[prev].job.id];
        runningJobs := runningJobs[..prev] + runningJobs[prev + 1..];
      }
    }

    /** The second loop of checkJobStatus: the cached readings of the jobs still running. */
    method CollectStats() returns (stats: seq<JobStats>)
      ensures stats == Map(runningJobs, CachedStats(jobs))
    {
      stats := [];
      for i := 0 to |runningJobs|
        invariant stats == Map(runningJobs[..i], CachedStats(jobs))
      {
        var jid := runningJobs[i].job.id;
        var st := JobStats(jid, 0, "");
        if jid in jobs {
          st := JobStats(jid, jobs[jid].bandwidth, jobs[jid].cpu);
        }
        assert runningJobs[..i + 1] == runningJobs[..i] + [runningJobs[i]];
        MapPush(runningJobs[..i], runningJobs[i], CachedStats(jobs));
        stats := stats + [st];
      }
      assert runningJobs[..|runningJobs|] == runningJobs;
    }

    method CheckJobStatus(alive: set<nat>) returns (report: WorkerJobReport)
      modifies this`runningJobs, this`leaked
      ensures View() == Check(old(View()), alive)
      ensures report == CheckReport(old(View()), alive)
      ensures report.workerId == id && |report.stats| == |runningJobs|
      ensures forall i | 0 <= i < |runningJobs| ::
                var jid := runningJobs[i].job.id;
                report.stats[i] == if jid in jobs then JobStats(jid, jobs[jid].bandwidth, jobs[jid].cpu)
                                   else JobStats(jid, 0, "")
    {
      var stoppedJobs := RemoveStoppedJobs(alive);
      leaked := leaked + Map(Filter(Filter(old(runningJobs), Dead(alive)), Unreleased(released)), PortOf());
      var stats := CollectStats();
      report := WorkerJobReport(id, stoppedJobs, stats);
    }
  }

  /**
    After n entries of the list have been visited: the entries before the last visited one have
    been filtered, and prev is the position of that one, whose process may or may not answer.
   */
  ghost predicate Walked(all: seq<RunningJob>, alive: set<nat>, n: nat, prev: int, prevAlive: bool,
                         running: seq<RunningJob>, stopped: seq<string>)
  {
    && n <= |all|
    && if n == 0 then prev == -1 && running == all && stopped == [] && prevAlive
       else
         && prev == |Filter(all[..n - 1], Answers(alive))| && prevAlive == (all[n - 1].pid in alive)
         && running == Filter(all[..n - 1], Answers(alive)) + all[n - 1..]
         && stopped == Map(Filter(all[..n - 1], Dead(alive)), JobIdOf())
  }

  ghost predicate Filtered(all: seq<RunningJob>, alive: set<nat>, n: nat,
                           running: seq<RunningJob>, stopped: seq<string>)
  {
    && n <= |all|
    && running == Filter(all[..n], Answers(alive)) + all[n..]
    && stopped == Map(Filter(all[..n], Dead(alive)), JobIdOf())
  }

  lemma VisitNext(all: seq<RunningJob>, alive: set<nat>, n: nat, running: seq<RunningJob>, stopped: seq<string>)
    requires Filtered(all, alive, n, running, stopped) && n < |all|
    ensures var e := |Filter(all[..n], Answers(alive))|;
            e < |running| && Walked(all, alive, n + 1, e, running[e].pid in alive, running, stopped)
  {
    assert running[|Filter(all[..n], Answers(alive))|] == all[n];
  }

  lemma FilteredAll(all: seq<RunningJob>, alive: set<nat>, running: seq<RunningJob>, stopped: seq<string>)
    requires Filtered(all, alive, |all|, running, stopped)
    ensures running == Filter(all, Answers(alive)) && stopped == Map(Filter(all, Dead(alive)), JobIdOf())
  {
    assert all[..|all|] == all;
  }

  lemma WalkedAll(all: seq<RunningJob>, alive: set<nat>, n: nat, prev: int, prevAlive: bool,
                  running: seq<RunningJob>, stopped: seq<string>)
    requires Walked(all, alive, n, prev, prevAlive, running, stopped) && prev + 1 >= |running|
    ensures n == |all|
  {
  }

  lemma CutAt<T>(front: seq<T>, x: T, rest: seq<T>)
    ensures var s := front + ([x] + rest); s[|front|] == x && s[..|front|] + s[|front| + 1..] == front + rest
  {
  }

  /** Removing the last visited entry, if its process does not answer, filters all the visited entries. */
  lemma WalkOn(all: seq<RunningJob>, alive: set<nat>, n: nat, prev: int, prevAlive: bool,
               running: seq<RunningJob>, stopped: seq<string>)
    requires Walked(all, alive, n, prev, prevAlive, running, stopped)
    ensures prev != -1 && !prevAlive ==>
              && 0 <= prev < |running|
              && Filtered(all, alive, n, running[..prev] + running[prev + 1..], stopped + [running[prev].job.id])
              && |Filter(all[..n], Answers(alive))| == prev
    ensures prev == -1 || prevAlive ==>
              Filtered(all, alive, n, running, stopped) && |Filter(all[..n], Answers(alive))| == prev + 1
  {
    if n == 0 {
    } else {
      var front, x, rest := Filter(all[..n - 1], Answers(alive)), all[n - 1], all[n..];
      SplitLast(all, n, alive);
      assert all[n - 1..] == [x] + rest;
      if x.pid in alive {
        ConcatAssociates(front, [x], rest);
      } else {
        CutAt(front, x, rest);
      }
    }
  }

  lemma SplitLast(all: seq<RunningJob>, n: nat, alive: set<nat>)
    requires 0 < n <= |all|
    ensures Filter(all[..n], Answers(alive))
         == Filter(all[..n - 1], Answers(alive)) + (if all[n - 1].pid in alive then [all[n - 1]] else [])
    ensures Map(Filter(all[..n], Dead(alive)), JobIdOf())
         == Map(Filter(all[..n - 1], Dead(alive)), JobIdOf())
            + (if all[n - 1].pid in alive then [] else [all[n - 1].job.id])
  {
    assert all[..n] == all[..n - 1] + [all[n - 1]];
    FilterPush(all[..n - 1], all[n - 1], Answers(alive));
    FilterPush(all[..n - 1], all[n - 1], Dead(alive));
    if all[n - 1].pid !in alive {
      MapPush(Filter(all[..n - 1], Dead(alive)), all[n - 1], JobIdOf());
    }
  }
}
