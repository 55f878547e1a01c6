/** What the worker's list algorithms guarantee over whole runs of one worker process. */
module WorkerProofs {
  import opened Sequences
  import opened JobModel
  import opened WorkerSpec

  // ----- checkJobStatus -----

  /** A filter and its complement split a sequence, whatever is read off the elements. */
  lemma {:induction false} FilterSplits<T, U>(s: seq<T>, p: T -> bool, q: T -> bool, f: T -> U)
    requires forall x :: q(x) <==> !p(x)
    ensures multiset(Map(Filter(s, p), f)) + multiset(Map(Filter(s, q), f)) == multiset(Map(s, f))
  {
    if s == [] {
    } else {
      FilterSplits(s[1..], p, q, f);
      MapFilterHead(s, p, f);
      MapFilterHead(s, q, f);
      assert Map(s, f) == [f(s[0])] + Map(s[1..], f);
    }
  }

  lemma MapFilterHead<T, U>(s: seq<T>, p: T -> bool, f: T -> U)
    requires s != []
    ensures Map(Filter(s, p), f) == (if p(s[0]) then [f(s[0])] else []) + Map(Filter(s[1..], p), f)
  {
    if p(s[0]) {
      assert Filter(s, p)[1..] == Filter(s[1..], p);
    } else {
      assert Filter(s, p) == Filter(s[1..], p);
    }
  }

  /** Every entry that was running is reported exactly once, as stopped or with its stats. */
  lemma ReportCoversRunning(w: Worker, alive: set<nat>)
    ensures var r := CheckReport(w, alive);
            multiset(r.stoppedJobs) + multiset(Map(r.stats, StatsIdOf())) == multiset(Map(w.running, JobIdOf()))
    ensures Map(CheckReport(w, alive).stats, StatsIdOf()) == Map(Check(w, alive).running, JobIdOf())
  {
    FilterSplits(w.running, Answers(alive), Dead(alive), JobIdOf());
    StatsKeepIds(Filter(w.running, Answers(alive)), w.jobs);
  }

  lemma StatsKeepIds(running: seq<RunningJob>, jobs: map<string, LiveJob>)
    ensures Map(Map(running, CachedStats(jobs)), StatsIdOf()) == Map(running, JobIdOf())
  {
    var stats := Map(running, CachedStats(jobs));
    forall i | 0 <= i < |running|
      ensures Map(stats, StatsIdOf())[i] == Map(running, JobIdOf())[i]
    {
      assert stats[i] == CachedStats(jobs)(running[i]);
    }
  }

  // ----- The RTMP port pool -----

  /** The ports of running entries whose process has not taken a SIGTERM. */
  function Held(w: Worker): seq<int> {
    HeldPorts(w.running, w.released)
  }

  function HeldPorts(running: seq<RunningJob>, released: set<nat>): seq<int> {
    Map(Filter(running, Unreleased(released)), PortOf())
  }

  lemma HeldHead(running: seq<RunningJob>, released: set<nat>)
    requires running != []
    ensures HeldPorts(running, released)
         == (if running[0].pid !in released then [running[0].job.rtmpPort] else []) + HeldPorts(running[1..], released)
  {
    MapFilterHead(running, Unreleased(released), PortOf());
  }

  /** Every port of the pool is free, held, or leaked by a reap, and is so exactly once. */
  ghost predicate Partition(w: Worker) {
    multiset(w.freePorts) + multiset(Held(w)) + multiset(w.leaked) == multiset(InitialPorts())
  }

  ghost predicate DistinctPids(w: Worker) {
    forall i, j | 0 <= i < j < |w.running| :: w.running[i].pid != w.running[j].pid
  }

  datatype Op =
    | OpPost(job: LiveJob, pid: nat, started: bool)
    | OpStop(jid: string, signalled: bool)
    | OpCheck(alive: set<nat>)
    | OpCache(jid: string, bandwidth: int, cpu: string)

  function Do(w: Worker, op: Op): Worker {
    match op
    case OpPost(m, pid, started) => Post(w, m, pid, started)
    case OpStop(jid, signalled) => Stop(w, jid, signalled)
    case OpCheck(alive) => Check(w, alive)
    case OpCache(jid, bandwidth, cpu) => CacheStats(w, jid, bandwidth, cpu)
  }

  /** A new process is none of those the worker knows. */
  ghost predicate FreshPid(w: Worker, op: Op) {
    op.OpPost? ==> op.pid !in w.released && forall i | 0 <= i < |w.running| :: w.running[i].pid != op.pid
  }

  /** The operation finds a free port, and signals no process that has already taken a SIGTERM. */
  ghost predicate Careful(w: Worker, op: Op) {
    match op
    case OpPost(_, _, _) => w.freePorts != []
    case OpStop(jid, signalled) =>
      CanSignal(w, jid) && signalled ==> w.running[FirstRunning(w.running, jid)].pid !in w.released
    case _ => true
  }

  lemma InitialPortsMembers()
    ensures forall p :: multiset(InitialPorts())[p]
                        == if RTMP_PORT_BASE <= p < RTMP_PORT_BASE + MAX_RTMP_PORTS then 1 else 0
    ensures |InitialPorts()| == MAX_RTMP_PORTS
  {
    var s := InitialPorts();
    forall p
      ensures multiset(s)[p] == if RTMP_PORT_BASE <= p < RTMP_PORT_BASE + MAX_RTMP_PORTS then 1 else 0
    {
      if RTMP_PORT_BASE <= p < RTMP_PORT_BASE + MAX_RTMP_PORTS {
        var i := p - RTMP_PORT_BASE;
        assert s == s[..i] + [s[i]] + s[i + 1..];
        assert p !in s[..i] && p !in s[i + 1..];
      } else {
        assert p !in s;
      }
    }
  }

  lemma FreePortInPool(w: Worker)
    requires Partition(w) && w.freePorts != []
    ensures RTMP_PORT_BASE <= w.freePorts[0] < RTMP_PORT_BASE + MAX_RTMP_PORTS
  {
    InitialPortsMembers();
    assert multiset(w.freePorts)[w.freePorts[0]] > 0;
    assert multiset(InitialPorts())[w.freePorts[0]] > 0;
  }

  lemma PostHolds(w: Worker, m: LiveJob, pid: nat, started: bool)
    requires pid !in w.released
    ensures Held(Post(w, m, pid, started)) == Held(w) + [PortFor(w, m)]
  {
    var e := RunningJob(WithPort(w, m), pid, w.udpPortBase + TotalOutputs(w.running));
    FilterPush(w.running, e, Unreleased(w.released));
    MapPush(Filter(w.running, Unreleased(w.released)), e, PortOf());
  }

  lemma MovePort(free: seq<int>, p: int, rest: seq<int>, held: seq<int>, leaked: seq<int>)
    requires free == [p] + rest
    ensures multiset(free) + multiset(held) + multiset(leaked)
         == multiset(rest) + multiset(held + [p]) + multiset(leaked)
  {
  }

  lemma ExtraPort(free: seq<int>, held: seq<int>, leaked: seq<int>, p: int)
    ensures multiset(free) + multiset(held) + multiset(leaked)
         != multiset(free) + multiset(held + [p]) + multiset(leaked)
  {
    var was := multiset(free) + multiset(held) + multiset(leaked);
    var now := multiset(free) + multiset(held + [p]) + multiset(leaked);
    assert now[p] == was[p] + 1;
  }

  lemma PostKeepsPartition(w: Worker, op: Op)
    requires op.OpPost? && Partition(w) && FreshPid(w, op)
    ensures Partition(Do(w, op)) <==> Careful(w, op)
  {
    var p := PortFor(w, op.job);
    PostHolds(w, op.job, op.pid, op.started);
    if w.freePorts != [] {
      FreePortInPool(w);
      MovePort(w.freePorts, p, w.freePorts[1..], Held(w), w.leaked);
    } else {
      ExtraPort(w.freePorts, Held(w), w.leaked, p);
    }
  }

  lemma HeldConcat(a: seq<RunningJob>, b: seq<RunningJob>, released: set<nat>)
    ensures HeldPorts(a + b, released) == HeldPorts(a, released) + HeldPorts(b, released)
  {
    FilterConcat(a, b, Unreleased(released));
    MapConcat(Filter(a, Unreleased(released)), Filter(b, Unreleased(released)), PortOf());
  }

  lemma HeldAround(running: seq<RunningJob>, released: set<nat>, i: nat)
    requires i < |running|
    ensures HeldPorts(running, released)
         == HeldPorts(running[..i], released)
            + (if running[i].pid !in released then [running[i].job.rtmpPort] else [])
            + HeldPorts(running[i + 1..], released)
  {
    assert running == running[..i] + running[i..];
    HeldConcat(running[..i], running[i..], released);
    HeldHead(running[i..], released);
    assert running[i..][1..] == running[i + 1..];
  }

  /** Marking the process of entry i as released takes exactly its port out of the held ones. */
  lemma ReleaseOne(running: seq<RunningJob>, released: set<nat>, i: nat)
    requires i < |running|
    requires forall a, b | 0 <= a < b < |running| :: running[a].pid != running[b].pid
    requires running[i].pid !in released
    ensures multiset(HeldPorts(running, released + {running[i].pid})) + multiset{running[i].job.rtmpPort}
         == multiset(HeldPorts(running, released))
  {
    var more := released + {running[i].pid};
    HeldAround(running, released, i);
    HeldAround(running, more, i);
    SameFilter(running[..i], Unreleased(more), Unreleased(released));
    SameFilter(running[i + 1..], Unreleased(more), Unreleased(released));
  }

  lemma {:induction false} SameFilter<T>(s: seq<T>, p: T -> bool, q: T -> bool)
    requires forall i | 0 <= i < |s| :: p(s[i]) == q(s[i])
    ensures Filter(s, p) == Filter(s, q)
  {
    if s == [] {
    } else {
      assert s[1..] == s[1..] && forall i | 0 <= i < |s[1..]| :: s[1..][i] == s[i + 1];
      SameFilter(s[1..], p, q);
    }
  }

  lemma StopKeepsPartition(w: Worker, op: Op)
    requires op.OpStop? && Partition(w) && DistinctPids(w)
    ensures Partition(Do(w, op)) <==> Careful(w, op)
  {
    var w' := Do(w, op);
    if CanSignal(w, op.jid) && op.signalled {
      var i := FirstRunning(w.running, op.jid);
      var e := w.running[i];
      if e.pid !in w.released {
        ReleaseOne(w.running, w.released, i);
      } else {
        assert w'.released == w.released;
        assert |multiset(w'.freePorts) + multiset(Held(w')) + multiset(w'.leaked)|
            == |multiset(w.freePorts) + multiset(Held(w)) + multiset(w.leaked)| + 1;
      }
    }
  }

  /** Filters can be applied in either order. */
  lemma {:induction false} FiltersCommute<T>(s: seq<T>, p: T -> bool, q: T -> bool)
    ensures Filter(Filter(s, p), q) == Filter(Filter(s, q), p)
  {
    if s == [] {
    } else {
      FiltersCommute(s[1..], p, q);
      if p(s[0]) {
        assert Filter(s, p)[1..] == Filter(s[1..], p);
      } else {
        assert Filter(s, p) == Filter(s[1..], p);
      }
      if q(s[0]) {
        assert Filter(s, q)[1..] == Filter(s[1..], q);
      } else {
        assert Filter(s, q) == Filter(s[1..], q);
      }
    }
  }

  lemma CheckKeepsPartition(w: Worker, alive: set<nat>)
    requires Partition(w)
    ensures Partition(Check(w, alive))
  {
    var held := Filter(w.running, Unreleased(w.released));
    FilterSplits(held, Answers(alive), Dead(alive), PortOf());
    FiltersCommute(w.running, Answers(alive), Unreleased(w.released));
    FiltersCommute(w.running, Dead(alive), Unreleased(w.released));
  }

  lemma {:induction false} FilterKeepsDistinct(running: seq<RunningJob>, p: RunningJob -> bool)
    requires forall i, j | 0 <= i < j < |running| :: running[i].pid != running[j].pid
    ensures forall i, j | 0 <= i < j < |Filter(running, p)| :: Filter(running, p)[i].pid != Filter(running, p)[j].pid
  {
    if running == [] {
    } else {
      FilterKeepsDistinct(running[1..], p);
      FilterMembers(running[1..], p);
      var f := Filter(running[1..], p);
      forall j | 0 <= j < |f| ensures f[j].pid != running[0].pid {
        assert f[j] in running[1..];
      }
    }
  }

  lemma DoKeepsDistinct(w: Worker, op: Op)
    requires DistinctPids(w) && FreshPid(w, op)
    ensures DistinctPids(Do(w, op))
  {
    if op.OpCheck? {
      FilterKeepsDistinct(w.running, Answers(op.alive));
    }
  }

  /** One operation keeps the partition exactly when it is careful. */
  lemma StepKeepsPartition(w: Worker, op: Op)
    requires Partition(w) && DistinctPids(w) && FreshPid(w, op)
    ensures Partition(Do(w, op)) <==> Careful(w, op)
  {
    match op
    case OpPost(_, _, _) => PostKeepsPartition(w, op);
    case OpStop(_, _) => StopKeepsPartition(w, op);
    case OpCheck(alive) => CheckKeepsPartition(w, alive);
    case OpCache(_, _, _) =>
  }

  function Run(w: Worker, ops: seq<Op>): Worker
    decreases |ops|
  {
    if ops == [] then w else Run(Do(w, ops[0]), ops[1..])
  }

  ghost predicate FreshRun(w: Worker, ops: seq<Op>)
    decreases |ops|
  {
    ops != [] ==> FreshPid(w, ops[0]) && FreshRun(Do(w, ops[0]), ops[1..])
  }

  ghost predicate CarefulRun(w: Worker, ops: seq<Op>)
    decreases |ops|
  {
    ops != [] ==> Careful(w, ops[0]) && CarefulRun(Do(w, ops[0]), ops[1..])
  }

  /** The partition holds before, between and after the operations. */
  ghost predicate AlwaysPartition(w: Worker, ops: seq<Op>)
    decreases |ops|
  {
    Partition(w) && (ops != [] ==> AlwaysPartition(Do(w, ops[0]), ops[1..]))
  }

  lemma {:induction false} PartitionOverRuns(w: Worker, ops: seq<Op>)
    requires Partition(w) && DistinctPids(w) && FreshRun(w, ops)
    ensures AlwaysPartition(w, ops) <==> CarefulRun(w, ops)
    decreases |ops|
  {
    if ops == [] {
    } else {
      StepKeepsPartition(w, ops[0]);
      DoKeepsDistinct(w, ops[0]);
      if Careful(w, ops[0]) {
        PartitionOverRuns(Do(w, ops[0]), ops[1..]);
      }
    }
  }

  lemma {:induction false} RunKeeps(w: Worker, ops: seq<Op>)
    requires AlwaysPartition(w, ops) && DistinctPids(w) && FreshRun(w, ops)
    ensures Partition(Run(w, ops)) && DistinctPids(Run(w, ops))
    decreases |ops|
  {
    if ops == [] {
    } else {
      DoKeepsDistinct(w, ops[0]);
      RunKeeps(Do(w, ops[0]), ops[1..]);
    }
  }

  lemma HeldIndex(running: seq<RunningJob>, released: set<nat>, i: nat)
    requires i < |running| && running[i].pid !in released
    ensures multiset(HeldPorts(running, released))[running[i].job.rtmpPort] > 0
  {
    HeldAround(running, released, i);
  }

  lemma HeldInPool(w: Worker, i: nat)
    requires Partition(w) && i < |w.running| && w.running[i].pid !in w.released
    ensures var p := w.running[i].job.rtmpPort;
            && p !in w.freePorts && RTMP_PORT_BASE <= p < RTMP_PORT_BASE + MAX_RTMP_PORTS
            && multiset(Held(w))[p] == 1
  {
    var p := w.running[i].job.rtmpPort;
    InitialPortsMembers();
    HeldIndex(w.running, w.released, i);
    assert multiset(w.freePorts)[p] + multiset(Held(w))[p] + multiset(w.leaked)[p] == multiset(InitialPorts())[p];
  }

  lemma HeldApart(w: Worker, i: nat, j: nat)
    requires Partition(w) && DistinctPids(w) && i < |w.running| && j < |w.running| && i != j
    requires w.running[i].pid !in w.released && w.running[j].pid !in w.released
    ensures w.running[i].job.rtmpPort != w.running[j].job.rtmpPort
  {
    HeldInPool(w, i);
    ReleaseOne(w.running, w.released, i);
    HeldIndex(w.running, w.released + {w.running[i].pid}, j);
  }

  /** In a careful run from a new worker, no two unreleased entries share a port and none holds a free port. */
  lemma PortsExclusive(id: string, base: int, ops: seq<Op>, i: nat, j: nat)
    requires FreshRun(NewWorker(id, base), ops) && CarefulRun(NewWorker(id, base), ops)
    requires var w := Run(NewWorker(id, base), ops);
             i < |w.running| && j < |w.running| && i != j
             && w.running[i].pid !in w.released && w.running[j].pid !in w.released
    ensures var w := Run(NewWorker(id, base), ops);
            && w.running[i].job.rtmpPort != w.running[j].job.rtmpPort
            && w.running[i].job.rtmpPort !in w.freePorts
            && RTMP_PORT_BASE <= w.running[i].job.rtmpPort < RTMP_PORT_BASE + MAX_RTMP_PORTS
  {
    var w0 := NewWorker(id, base);
    assert Partition(w0) by {
      assert Held(w0) == [];
    }
    PartitionOverRuns(w0, ops);
    RunKeeps(w0, ops);
    HeldInPool(Run(w0, ops), i);
    HeldApart(Run(w0, ops), i, j);
  }

  lemma RunOfFour(w: Worker, a: Op, b: Op, c: Op, d: Op)
    ensures Run(w, [a, b, c, d]) == Do(Do(Do(Do(w, a), b), c), d)
  {
    var w1, w2, w3 := Do(w, a), Do(Do(w, a), b), Do(Do(Do(w, a), b), c);
    assert [a, b, c, d][1..] == [b, c, d] && [b, c, d][1..] == [c, d] && [c, d][1..] == [d] && [d][1..] == [];
    assert Run(w3, [d]) == Do(w3, d);
    assert Run(w2, [c, d]) == Run(w3, [d]);
    assert Run(w1, [b, c, d]) == Run(w2, [c, d]);
  }

  /** A process signalled twice gives its port back twice. */
  lemma DoubleSigtermExample(m: LiveJob)
    ensures var ops := [OpPost(m, 1, true), OpStop(m.id, true), OpPost(m, 2, true), OpStop(m.id, true)];
            var w := Run(NewWorker("w", 10001), ops);
            !Partition(w) && multiset(w.freePorts)[RTMP_PORT_BASE] == 2
  {
    var w0 := NewWorker("w", 10001);
    RunOfFour(w0, OpPost(m, 1, true), OpStop(m.id, true), OpPost(m, 2, true), OpStop(m.id, true));
    var w1 := Post(w0, m, 1, true);
    var w2 := Stop(w1, m.id, true);
    var w3 := Post(w2, m, 2, true);
    var w4 := Stop(w3, m.id, true);
    StopReturnsPort(w1, m.id);
    StopReturnsPort(w3, m.id);
    assert InitialPorts()[1..][1..] == InitialPorts()[2..];
    assert w1.running[0].job.rtmpPort == w3.running[0].job.rtmpPort == RTMP_PORT_BASE;
    assert w2.freePorts == InitialPorts()[1..] + [RTMP_PORT_BASE];
    assert w3.freePorts == InitialPorts()[2..] + [RTMP_PORT_BASE];
    assert w4.freePorts == InitialPorts()[2..] + [RTMP_PORT_BASE, RTMP_PORT_BASE];
    BaseAgainTwice();
    PortTwiceFree(w4);
  }

  lemma PortTwiceFree(w: Worker)
    requires multiset(w.freePorts)[RTMP_PORT_BASE] >= 2
    ensures !Partition(w)
  {
    InitialPortsMembers();
    assert (multiset(w.freePorts) + multiset(Held(w)) + multiset(w.leaked))[RTMP_PORT_BASE] >= 2;
  }

  lemma BaseAgainTwice()
    ensures multiset(InitialPorts()[2..] + [RTMP_PORT_BASE, RTMP_PORT_BASE])[RTMP_PORT_BASE] == 2
  {
    var s := InitialPorts();
    InitialPortsMembers();
    assert s == [s[0]] + s[1..2] + s[2..];
    assert multiset(s) == multiset{s[0]} + multiset(s[1..2]) + multiset(s[2..]);
    assert multiset(s[2..])[RTMP_PORT_BASE] == 0;
  }

  lemma StopReturnsPort(w: Worker, jid: string)
    requires w.running != [] && w.running[0].job.id == jid && jid in w.jobs
    ensures var e := w.running[0];
            Stop(w, jid, true)
            == w.(freePorts := w.freePorts + [e.job.rtmpPort], jobs := w.jobs - {jid}, released := w.released + {e.pid})
  {
  }

  // ----- Order in which ports are reused -----

  function Posts(ops: seq<Op>): nat {
    if ops == [] then 0 else (if ops[0].OpPost? then 1 else 0) + Posts(ops[1..])
  }

  /** A free port at depth d is handed out by exactly the (d+1)-th launch, whatever else happens. */
  lemma {:induction false} PortsReusedInOrder(w: Worker, ops: seq<Op>, d: nat)
    requires d < |w.freePorts| && Posts(ops) <= d
    ensures var w' := Run(w, ops);
            d - Posts(ops) < |w'.freePorts| && w'.freePorts[d - Posts(ops)] == w.freePorts[d]
    decreases |ops|
  {
    if ops == [] {
    } else {
      var next := if ops[0].OpPost? then d - 1 else d;
      assert Do(w, ops[0]).freePorts[next] == w.freePorts[d];
      PortsReusedInOrder(Do(w, ops[0]), ops[1..], next);
    }
  }
}
