/** The UDP ports between ffmpeg, the packager and ffprobe, within one job and across the jobs of a worker. */
module PortPlanSpec {
  import opened JobModel

  const FFPROBE_DISTANCE := 1000

  /** Audio ports start after the last video index, which stays 0 when there is no video. */
  function AudioOffset(spec: LiveJobSpec): nat {
    if spec.videoOutputs == [] then 1 else |spec.videoOutputs|
  }

  /** The port of each rendition, video renditions first. */
  function RenditionPorts(spec: LiveJobSpec, base: int): seq<int> {
    seq(|spec.videoOutputs|, n => base + n) + seq(|spec.audioOutputs|, k => base + AudioOffset(spec) + k)
  }

  function FfprobePort(base: int): int {
    base + FFPROBE_DISTANCE
  }

  function OrDefault(s: string, default: string): string {
    if s == "" then default else s
  }

  function IntOrDefault(n: int, default: int): int {
    if n == 0 then default else n
  }

  function DetectionOutput(d: Detection): VideoOutput {
    VideoOutput(OrDefault(d.codec, "h264"), if d.frameRate == 0.0 then 10.0 else d.frameRate,
                IntOrDefault(d.width, 180), IntOrDefault(d.height, 320),
                OrDefault(d.bitrate, "150k"), OrDefault(d.maxBitrate, "250k"), OrDefault(d.bufSize, "250k"),
                OrDefault(d.preset, "veryfast"), IntOrDefault(d.crf, 25), 0)
  }

  predicate HasDetectionOutput(spec: LiveJobSpec) {
    exists i | 0 <= i < |spec.videoOutputs| :: spec.videoOutputs[i].bitrate == spec.detection.bitrate
  }

  /** The spec the transcoder works on when object detection is configured. */
  function WithDetectionOutput(spec: LiveJobSpec): LiveJobSpec {
    if HasDetectionOutput(spec) then spec
    else spec.(videoOutputs := spec.videoOutputs + [DetectionOutput(spec.detection)])
  }

  /** The spec from which the transcoder builds its command lines. */
  function Transcoded(spec: LiveJobSpec): LiveJobSpec {
    if NeedObjectDetection(spec) then WithDetectionOutput(spec) else spec
  }

  predicate HasAv1Output(spec: LiveJobSpec) {
    exists i | 0 <= i < |spec.videoOutputs| :: spec.videoOutputs[i].codec == "av1"
  }

  predicate AllAv1(spec: LiveJobSpec) {
    forall i | 0 <= i < |spec.videoOutputs| :: spec.videoOutputs[i].codec == "av1"
  }

  /** The rendition ports a job uses. With an AV1 output ffmpeg runs without the packager and sends to none. */
  function UsedPorts(spec: LiveJobSpec, base: int): seq<int> {
    if HasAv1Output(spec) then [] else RenditionPorts(Transcoded(spec), base)
  }

  /** All ports a job's ffmpeg sends to. On its own, it is given no output unless every video output is AV1. */
  function SentPorts(spec: LiveJobSpec, base: int): seq<int> {
    if HasAv1Output(spec) then (if AllAv1(Transcoded(spec)) then [FfprobePort(base)] else [])
    else RenditionPorts(Transcoded(spec), base) + [FfprobePort(base)]
  }
}

module PortPlanApp {
  import opened JobModel
  import opened PortPlanSpec

  /** The output ports in the order JobSpecToFFmpegArgs appends them; the last is ffprobe's. */
  method FFmpegPorts(spec: LiveJobSpec, portBase: int) returns (ports: seq<int>)
    ensures ports == RenditionPorts(spec, portBase) + [FfprobePort(portBase)]
  {
    ports := [];
    var i := 0;
    for n := 0 to |spec.videoOutputs|
      invariant i == if n == 0 then 0 else n - 1
      invariant ports == seq(n, x => portBase + x)
    {
      i := n;
      ports := ports + [portBase + i];
    }
    ghost var video := ports;
    assert video == seq(|spec.videoOutputs|, x => portBase + x);
    for k := 0 to |spec.audioOutputs|
      invariant ports == video + seq(k, x => portBase + AudioOffset(spec) + x)
    {
      ports := ports + [portBase + i + 1 + k];
    }
    ports := ports + [portBase + FFPROBE_DISTANCE];
  }

  /** The input ports in the order JobSpecToShakaPackagerArgs appends them. */
  method PackagerPorts(spec: LiveJobSpec, portBase: int) returns (ports: seq<int>)
    ensures ports == RenditionPorts(spec, portBase)
  {
    ports := [];
    var i := 0;
    for n := 0 to |spec.videoOutputs|
      invariant i == if n == 0 then 0 else n - 1
      invariant ports == seq(n, x => portBase + x)
    {
      i := n;
      ports := ports + [portBase + i];
    }
    ghost var video := ports;
    assert video == seq(|spec.videoOutputs|, x => portBase + x);
    for k := 0 to |spec.audioOutputs|
      invariant ports == video + seq(k, x => portBase + AudioOffset(spec) + x)
    {
      ports := ports + [portBase + i + 1 + k];
    }
  }

  /** The output ports of JobSpecToEncoderArgs, which returns at the first video output that is not AV1. */
  method EncoderPorts(spec: LiveJobSpec, portBase: int) returns (ports: seq<int>)
    ensures ports == if AllAv1(spec) then [FfprobePort(portBase)] else []
  {
    for i := 0 to |spec.videoOutputs|
      invariant forall k | 0 <= k < i :: spec.videoOutputs[k].codec == "av1"
    {
      if spec.videoOutputs[i].codec != "av1" {
        return [];
      }
    }
    return [portBase + FFPROBE_DISTANCE];
  }

  /** The spec held by a transcoder process before it builds its command lines. */
  class TranscoderSpec {
    var spec: LiveJobSpec

    constructor (j: LiveJobSpec)
      ensures spec == j
    {
      spec := j;
    }

    method HasAV1Output() returns (r: bool)
      ensures r <==> HasAv1Output(spec)
    {
      r := false;
      for i := 0 to |spec.videoOutputs|
        invariant r <==> exists k | 0 <= k < i :: spec.videoOutputs[k].codec == "av1"
      {
        if spec.videoOutputs[i].codec == "av1" {
          r := true;
          break;
        }
      }
    }

    /** The choice main makes: the AV1 test comes before the detection output is added. */
    method OutputPorts(portBase: int) returns (ports: seq<int>)
      modifies this
      ensures ports == SentPorts(old(spec), portBase) && spec == Transcoded(old(spec))
    {
      var ffmpegAlone := HasAV1Output();
      if NeedObjectDetection(spec) {
        AddDetectionVideoOutput();
      }
      if !ffmpegAlone {
        ports := FFmpegPorts(spec, portBase);
      } else {
        ports := EncoderPorts(spec, portBase);
      }
    }

    method AddDetectionVideoOutput()
      modifies this
      ensures spec == WithDetectionOutput(old(spec))
      ensures var d, n := old(spec).detection, |old(spec).videoOutputs|;
              if exists i | 0 <= i < n :: old(spec).videoOutputs[i].bitrate == d.bitrate then spec == old(spec)
              else
                && |spec.videoOutputs| == n + 1 && spec.videoOutputs[..n] == old(spec).videoOutputs
                && spec.(videoOutputs := []) == old(spec).(videoOutputs := [])
                && var v := spec.videoOutputs[n];
                   && v.codec == (if d.codec != "" then d.codec else "h264")
                   && v.framerate == (if d.frameRate != 0.0 then d.frameRate else 10.0)
                   && v.width == (if d.width != 0 then d.width else 180)
                   && v.height == (if d.height != 0 then d.height else 320)
                   && v.bitrate == (if d.bitrate != "" then d.bitrate else "150k")
                   && v.maxBitrate == (if d.maxBitrate != "" then d.maxBitrate else "250k")
                   && v.bufSize == (if d.bufSize != "" then d.bufSize else "250k")
                   && v.preset == (if d.preset != "" then d.preset else "veryfast")
                   && v.crf == (if d.crf != 0 then d.crf else 25)
    {
      var found := false;
      for i := 0 to |spec.videoOutputs|
        invariant found <==> exists k | 0 <= k < i :: spec.videoOutputs[k].bitrate == spec.detection.bitrate
      {
        if spec.videoOutputs[i].bitrate == spec.detection.bitrate {
          found := true;
        }
      }
      if !found {
        var d := spec.detection;
        var framerate, height, width, crf := d.frameRate, d.height, d.width, d.crf;
        var bitrate, maxBitrate, bufSize, codec, preset := d.bitrate, d.maxBitrate, d.bufSize, d.codec, d.preset;
        if framerate == 0.0 {
          framerate := 10.0;
        }
        if height == 0 {
          height := 320;
        }
        if width == 0 {
          width := 180;
        }
        if bitrate == "" {
          bitrate := "150k";
        }
        if maxBitrate == "" {
          maxBitrate := "250k";
        }
        if bufSize == "" {
          bufSize := "250k";
        }
        if codec == "" {
          codec := "h264";
        }
        if preset == "" {
          preset := "veryfast";
        }
        if crf == 0 {
          crf := 25;
        }
        var v := VideoOutput(codec, framerate, width, height, bitrate, maxBitrate, bufSize, preset, crf, 0);
        spec := spec.(videoOutputs := spec.videoOutputs + [v]);
      }
    }
  }
}

module PortPlanProofs {
  import opened Sequences
  import opened JobModel
  import opened WorkerSpec
  import opened PortPlanSpec
  import opened ValidatorSpec
  import WorkerProofs

  /** No port is used twice, and every rendition has one of the first ports above the base. */
  lemma RenditionPortsDistinct(spec: LiveJobSpec, base: int, a: nat, b: nat)
    requires a < b < |RenditionPorts(spec, base)|
    ensures RenditionPorts(spec, base)[a] != RenditionPorts(spec, base)[b]
    ensures base <= RenditionPorts(spec, base)[a] < base + AudioOffset(spec) + |spec.audioOutputs|
  {
  }

  /** For a validated spec, with the detection output added or not, ffprobe's port is not a rendition's. */
  lemma FfprobePortFree(j: LiveJobSpec, p: Parsers, base: int)
    requires Acceptable(j, p)
    ensures FfprobePort(base) !in RenditionPorts(Normalised(j), base)
    ensures FfprobePort(base) !in RenditionPorts(WithDetectionOutput(Normalised(j)), base)
  {
  }

  /** The detection output comes last, so the ports of the other video renditions do not move. */
  lemma DetectionKeepsVideoPorts(spec: LiveJobSpec, base: int, n: nat)
    requires n < |spec.videoOutputs|
    ensures RenditionPorts(WithDetectionOutput(spec), base)[n] == RenditionPorts(spec, base)[n]
  {
  }

  /** A validated AV1 job whose detection output has to be added is given no output at all. */
  lemma DetectionEmptiesAv1Job(j: LiveJobSpec, p: Parsers, base: int)
    requires Acceptable(j, p) && HasAv1Output(j)
    requires NeedObjectDetection(j) && !HasDetectionOutput(j)
    ensures SentPorts(Normalised(j), base) == []
  {
    var n := Normalised(j);
    var t := Transcoded(n);
    assert t.videoOutputs[|n.videoOutputs|] == DetectionOutput(n.detection);
    assert t.videoOutputs[|n.videoOutputs|].codec != "av1";
  }

  // ----- Across the jobs of a worker -----

  function Outputs(spec: LiveJobSpec): nat {
    |spec.videoOutputs| + |spec.audioOutputs|
  }

  /** Every entry's base is the worker's base plus the renditions of the entries before it. */
  ghost predicate Stacked(w: Worker) {
    forall k | 0 <= k < |w.running| :: w.running[k].udpPortBase == w.udpPortBase + TotalOutputs(w.running[..k])
  }

  ghost predicate LaunchOnly(ops: seq<WorkerProofs.Op>) {
    forall i | 0 <= i < |ops| :: ops[i].OpPost? || ops[i].OpCache?
  }

  lemma PostKeepsStacked(w: Worker, m: LiveJob, pid: nat, started: bool)
    requires Stacked(w)
    ensures Stacked(Post(w, m, pid, started))
  {
    var w' := Post(w, m, pid, started);
    assert w'.running[..|w.running|] == w.running;
    forall k | 0 <= k < |w'.running|
      ensures w'.running[k].udpPortBase == w'.udpPortBase + TotalOutputs(w'.running[..k])
    {
      assert w'.running[..k] == w.running[..k];
      assert w.running[..|w.running|] == w.running;
    }
  }

  lemma {:induction false} StackedAlways(w: Worker, ops: seq<WorkerProofs.Op>)
    requires Stacked(w) && LaunchOnly(ops)
    ensures Stacked(WorkerProofs.Run(w, ops))
    decreases |ops|
  {
    if ops == [] {
    } else {
      assert forall i | 0 <= i < |ops[1..]| :: ops[1..][i] == ops[i + 1];
      if ops[0].OpPost? {
        PostKeepsStacked(w, ops[0].job, ops[0].pid, ops[0].started);
      }
      StackedAlways(WorkerProofs.Do(w, ops[0]), ops[1..]);
    }
  }

  lemma {:induction false} TotalGrows(running: seq<RunningJob>, a: nat, b: nat)
    requires a < b <= |running|
    ensures TotalOutputs(running[..a]) + Outputs(running[a].job.spec) <= TotalOutputs(running[..b])
    decreases b
  {
    assert running[..b][..b - 1] == running[..b - 1];
    if a < b - 1 {
      TotalGrows(running, a, b - 1);
    }
  }

  /** The ports a job uses are those from the first on, up to but not including the end. */
  function FirstPort(spec: LiveJobSpec, base: int): int {
    if !HasAv1Output(spec) && Transcoded(spec).videoOutputs == [] then base + 1 else base
  }

  function EndPort(spec: LiveJobSpec, base: int): int {
    if HasAv1Output(spec) then base else base + Outputs(spec) + (if Overhangs(spec) then 1 else 0)
  }

  /**
    The job uses one port more than the worker counts for it: the transcoder adds a detection
    output, or there is only audio, which starts one above the base.
   */
  predicate Overhangs(spec: LiveJobSpec) {
    && !HasAv1Output(spec)
    && (Transcoded(spec) != spec || (spec.videoOutputs == [] && spec.audioOutputs != []))
  }

  predicate StartsAtBase(spec: LiveJobSpec) {
    !HasAv1Output(spec) && Transcoded(spec).videoOutputs != []
  }

  lemma UsedPortsAre(spec: LiveJobSpec, base: int)
    ensures forall port :: port in UsedPorts(spec, base) <==> FirstPort(spec, base) <= port < EndPort(spec, base)
  {
    var used, first := UsedPorts(spec, base), FirstPort(spec, base);
    forall port | first <= port < EndPort(spec, base)
      ensures port in used
    {
      assert used[port - first] == port;
    }
  }

  /** The job's ffmpeg also sends to ffprobe, which it does not when its arguments end early. */
  predicate Probes(spec: LiveJobSpec) {
    HasAv1Output(spec) ==> AllAv1(Transcoded(spec))
  }

  lemma SentPortsAre(spec: LiveJobSpec, base: int)
    ensures forall port :: port in SentPorts(spec, base) <==>
              (FirstPort(spec, base) <= port < EndPort(spec, base) || (Probes(spec) && port == FfprobePort(base)))
  {
    UsedPortsAre(spec, base);
    assert SentPorts(spec, base) == UsedPorts(spec, base) + if Probes(spec) then [FfprobePort(base)] else [];
  }

  /** No rendition port of one is a rendition port of the other. */
  predicate RenditionsApart(s: LiveJobSpec, b: int, s': LiveJobSpec, b': int) {
    || FirstPort(s, b) >= EndPort(s, b)
    || FirstPort(s', b') >= EndPort(s', b')
    || EndPort(s, b) <= FirstPort(s', b')
    || EndPort(s', b') <= FirstPort(s, b)
  }

  /** And two jobs that probe have different bases, and neither probes at a rendition port of the other. */
  predicate Apart(s: LiveJobSpec, b: int, s': LiveJobSpec, b': int) {
    && RenditionsApart(s, b, s', b')
    && (Probes(s) && Probes(s') ==> b != b')
    && (Probes(s) ==> !(FirstPort(s', b') <= FfprobePort(b) < EndPort(s', b')))
    && (Probes(s') ==> !(FirstPort(s, b) <= FfprobePort(b') < EndPort(s, b)))
  }

  /** The rendition ports a running job uses. */
  function PortsOf(e: RunningJob): seq<int> {
    UsedPorts(e.job.spec, e.udpPortBase)
  }

  /** All ports its ffmpeg sends to. */
  function SentBy(e: RunningJob): seq<int> {
    SentPorts(e.job.spec, e.udpPortBase)
  }

  ghost predicate ShareRendition(e: RunningJob, f: RunningJob) {
    exists port :: port in PortsOf(e) && port in PortsOf(f)
  }

  ghost predicate Share(e: RunningJob, f: RunningJob) {
    exists port :: port in SentBy(e) && port in SentBy(f)
  }

  lemma ShareRenditionExactly(e: RunningJob, f: RunningJob)
    ensures ShareRendition(e, f) <==> !RenditionsApart(e.job.spec, e.udpPortBase, f.job.spec, f.udpPortBase)
  {
    var s, b, s', b' := e.job.spec, e.udpPortBase, f.job.spec, f.udpPortBase;
    UsedPortsAre(s, b);
    UsedPortsAre(s', b');
    if !RenditionsApart(s, b, s', b') {
      var port := if FirstPort(s, b) >= FirstPort(s', b') then FirstPort(s, b) else FirstPort(s', b');
      assert port in PortsOf(e) && port in PortsOf(f);
    }
  }

  lemma ShareExactly(e: RunningJob, f: RunningJob)
    ensures Share(e, f) <==> !Apart(e.job.spec, e.udpPortBase, f.job.spec, f.udpPortBase)
  {
    var s, b, s', b' := e.job.spec, e.udpPortBase, f.job.spec, f.udpPortBase;
    SentPortsAre(s, b);
    SentPortsAre(s', b');
    if !Apart(s, b, s', b') {
      var port :=
        if !RenditionsApart(s, b, s', b') then
          if FirstPort(s, b) >= FirstPort(s', b') then FirstPort(s, b) else FirstPort(s', b')
        else if Probes(s) && (FirstPort(s', b') <= FfprobePort(b) < EndPort(s', b') || (Probes(s') && b == b'))
        then FfprobePort(b) else FfprobePort(b');
      assert port in SentBy(e) && port in SentBy(f);
    }
  }

  // ----- Launches alone -----

  /** No job between the two has a rendition of its own. */
  predicate NothingBetween(running: seq<RunningJob>, a: nat, b: nat)
    requires b <= |running|
  {
    forall k | a < k < b :: Outputs(running[k].job.spec) == 0
  }

  lemma {:induction false} NextBase(running: seq<RunningJob>, a: nat, b: nat)
    requires a < b <= |running|
    ensures TotalOutputs(running[..a]) + Outputs(running[a].job.spec) == TotalOutputs(running[..b])
            <==> NothingBetween(running, a, b)
    decreases b
  {
    assert running[..b][..b - 1] == running[..b - 1];
    if a < b - 1 {
      TotalGrows(running, a, b - 1);
      NextBase(running, a, b - 1);
    }
  }

  /** In a run of launches the bases are spaced by the renditions in between. */
  lemma BasesInRun(id: string, udpBase: int, ops: seq<WorkerProofs.Op>, a: nat, b: nat)
    requires LaunchOnly(ops)
    requires a < b < |WorkerProofs.Run(NewWorker(id, udpBase), ops).running|
    ensures var r := WorkerProofs.Run(NewWorker(id, udpBase), ops).running;
            && udpBase <= r[a].udpPortBase
            && r[a].udpPortBase + Outputs(r[a].job.spec) <= r[b].udpPortBase
            && (r[a].udpPortBase + Outputs(r[a].job.spec) == r[b].udpPortBase <==> NothingBetween(r, a, b))
            && r[b].udpPortBase + Outputs(r[b].job.spec) <= udpBase + TotalOutputs(r)
  {
    var w0 := NewWorker(id, udpBase);
    var r := WorkerProofs.Run(w0, ops).running;
    StackedAlways(w0, ops);
    SameBase(w0, ops);
    TotalGrows(r, a, b);
    TotalGrows(r, b, |r|);
    NextBase(r, a, b);
    assert r[..|r|] == r;
  }

  lemma ShareNext(e: RunningJob, f: RunningJob)
    requires e.udpPortBase + Outputs(e.job.spec) <= f.udpPortBase
    ensures ShareRendition(e, f) <==>
              && Overhangs(e.job.spec) && StartsAtBase(f.job.spec)
              && e.udpPortBase + Outputs(e.job.spec) == f.udpPortBase
    ensures f.udpPortBase + Outputs(f.job.spec) < e.udpPortBase + FFPROBE_DISTANCE ==>
              (Share(e, f) <==>
                (ShareRendition(e, f) || (Probes(e.job.spec) && Probes(f.job.spec) && e.udpPortBase == f.udpPortBase)))
  {
    ShareRenditionExactly(e, f);
    ShareExactly(e, f);
  }

  /** The later job is given the base where the share of the earlier one ends. */
  predicate Adjacent(running: seq<RunningJob>, a: nat, b: nat)
    requires a < b < |running|
  {
    Overhangs(running[a].job.spec) && StartsAtBase(running[b].job.spec) && NothingBetween(running, a, b)
  }

  /** Both jobs probe, and the worker counts no rendition for the earlier one or any between. */
  predicate SameProbe(running: seq<RunningJob>, a: nat, b: nat)
    requires a < b < |running|
  {
    && Probes(running[a].job.spec) && Probes(running[b].job.spec)
    && Outputs(running[a].job.spec) == 0 && NothingBetween(running, a, b)
  }

  /**
    While jobs are only launched, the earlier of two jobs shares a rendition port with the later
    exactly when it uses one port more than the worker counted for it, the later starts at its
    base and nothing lies between. With fewer than 1000 renditions counted, the only other port
    they can share is ffprobe's, of jobs without counted renditions.
   */
  lemma LaunchOnlyDisjoint(id: string, udpBase: int, ops: seq<WorkerProofs.Op>, a: nat, b: nat)
    requires LaunchOnly(ops)
    requires a < b < |WorkerProofs.Run(NewWorker(id, udpBase), ops).running|
    ensures var r := WorkerProofs.Run(NewWorker(id, udpBase), ops).running;
            && (ShareRendition(r[a], r[b]) <==> Adjacent(r, a, b))
            && (TotalOutputs(r) < FFPROBE_DISTANCE ==> (Share(r[a], r[b]) <==> Adjacent(r, a, b) || SameProbe(r, a, b)))
  {
    var r := WorkerProofs.Run(NewWorker(id, udpBase), ops).running;
    BasesInRun(id, udpBase, ops, a, b);
    ShareNext(r[a], r[b]);
  }

  /** Which validated jobs use one port more than the worker counts for them. */
  lemma ValidatedDoNotOverhang(j: LiveJobSpec, p: Parsers)
    requires Acceptable(j, p)
    ensures Overhangs(Normalised(j)) <==> NeedObjectDetection(j) && !HasDetectionOutput(j) && !HasAv1Output(j)
  {
  }

  lemma {:induction false} SameBase(w: Worker, ops: seq<WorkerProofs.Op>)
    ensures WorkerProofs.Run(w, ops).udpPortBase == w.udpPortBase
    decreases |ops|
  {
    if ops == [] {
    } else {
      SameBase(WorkerProofs.Do(w, ops[0]), ops[1..]);
    }
  }

  // ----- Any run -----

  /** A relation between two specs with their bases, such as Apart. */
  type Relation = (LiveJobSpec, int, LiveJobSpec, int) -> bool

  function AllApart(): Relation {
    (s: LiveJobSpec, b: int, s': LiveJobSpec, b': int) => Apart(s, b, s', b')
  }

  function AllRenditionsApart(): Relation {
    (s: LiveJobSpec, b: int, s': LiveJobSpec, b': int) => RenditionsApart(s, b, s', b')
  }

  predicate Related(apart: Relation, e: RunningJob, f: RunningJob) {
    apart(e.job.spec, e.udpPortBase, f.job.spec, f.udpPortBase)
  }

  predicate Pairwise(running: seq<RunningJob>, apart: Relation) {
    forall i, j | 0 <= i < j < |running| :: Related(apart, running[i], running[j])
  }

  /** The job would stand in the relation to every running entry at the base the worker would give it. */
  predicate RangeFree(w: Worker, m: LiveJob, apart: Relation) {
    forall k | 0 <= k < |w.running| ::
      apart(w.running[k].job.spec, w.running[k].udpPortBase, m.spec, w.udpPortBase + TotalOutputs(w.running))
  }

  lemma PostKeepsPairwise(w: Worker, m: LiveJob, pid: nat, started: bool, apart: Relation)
    requires Pairwise(w.running, apart)
    ensures Pairwise(Post(w, m, pid, started).running, apart) <==> RangeFree(w, m, apart)
  {
    var running := Post(w, m, pid, started).running;
    var n := |w.running|;
    assert forall k | 0 <= k < n :: running[k] == w.running[k];
    if Pairwise(running, apart) {
      assert forall k | 0 <= k < n :: Related(apart, running[k], running[n]);
    }
  }

  lemma {:induction false} FilterKeepsPairwise(running: seq<RunningJob>, p: RunningJob -> bool, apart: Relation)
    requires Pairwise(running, apart)
    ensures Pairwise(Filter(running, p), apart)
  {
    if running == [] {
    } else {
      var rest, f := running[1..], Filter(running[1..], p);
      assert forall i, j | 0 <= i < j < |rest| :: rest[i] == running[i + 1] && rest[j] == running[j + 1];
      FilterKeepsPairwise(rest, p, apart);
      FilterMembers(rest, p);
      forall j | 0 <= j < |f| ensures Related(apart, running[0], f[j]) {
        assert f[j] in rest;
      }
    }
  }

  lemma StepKeepsPairwise(w: Worker, op: WorkerProofs.Op, apart: Relation)
    requires Pairwise(w.running, apart)
    ensures Pairwise(WorkerProofs.Do(w, op).running, apart) <==> (op.OpPost? ==> RangeFree(w, op.job, apart))
  {
    match op
    case OpPost(m, pid, started) => PostKeepsPairwise(w, m, pid, started, apart);
    case OpCheck(alive) => FilterKeepsPairwise(w.running, Answers(alive), apart);
    case OpStop(_, _) =>
    case OpCache(_, _, _) =>
  }

  ghost predicate PortsDisjoint(running: seq<RunningJob>) {
    forall i, j | 0 <= i < j < |running| :: !Share(running[i], running[j])
  }

  ghost predicate RenditionsDisjoint(running: seq<RunningJob>) {
    forall i, j | 0 <= i < j < |running| :: !ShareRendition(running[i], running[j])
  }

  lemma DisjointIsPairwise(running: seq<RunningJob>)
    ensures PortsDisjoint(running) <==> Pairwise(running, AllApart())
    ensures RenditionsDisjoint(running) <==> Pairwise(running, AllRenditionsApart())
  {
    forall i, j | 0 <= i < j < |running|
      ensures !Share(running[i], running[j]) <==> Related(AllApart(), running[i], running[j])
      ensures !ShareRendition(running[i], running[j]) <==> Related(AllRenditionsApart(), running[i], running[j])
    {
      ShareExactly(running[i], running[j]);
      ShareRenditionExactly(running[i], running[j]);
    }
  }

  /** One operation keeps the ports of all jobs apart exactly when, if it launches a job, that job's ports are free. */
  lemma StepKeepsDisjoint(w: Worker, op: WorkerProofs.Op)
    ensures PortsDisjoint(w.running) ==>
              (PortsDisjoint(WorkerProofs.Do(w, op).running) <==> (op.OpPost? ==> RangeFree(w, op.job, AllApart())))
    ensures RenditionsDisjoint(w.running) ==>
              (RenditionsDisjoint(WorkerProofs.Do(w, op).running)
               <==> (op.OpPost? ==> RangeFree(w, op.job, AllRenditionsApart())))
  {
    DisjointIsPairwise(w.running);
    DisjointIsPairwise(WorkerProofs.Do(w, op).running);
    if PortsDisjoint(w.running) {
      StepKeepsPairwise(w, op, AllApart());
    }
    if RenditionsDisjoint(w.running) {
      StepKeepsPairwise(w, op, AllRenditionsApart());
    }
  }

  /** No two jobs share a port before, between and after the operations. */
  ghost predicate AlwaysDisjoint(w: Worker, ops: seq<WorkerProofs.Op>)
    decreases |ops|
  {
    PortsDisjoint(w.running) && (ops != [] ==> AlwaysDisjoint(WorkerProofs.Do(w, ops[0]), ops[1..]))
  }

  ghost predicate AlwaysRenditionsDisjoint(w: Worker, ops: seq<WorkerProofs.Op>)
    decreases |ops|
  {
    && RenditionsDisjoint(w.running)
    && (ops != [] ==> AlwaysRenditionsDisjoint(WorkerProofs.Do(w, ops[0]), ops[1..]))
  }

  predicate EveryRangeFree(w: Worker, ops: seq<WorkerProofs.Op>, apart: Relation)
    decreases |ops|
  {
    ops != [] ==>
      && (ops[0].OpPost? ==> RangeFree(w, ops[0].job, apart))
      && EveryRangeFree(WorkerProofs.Do(w, ops[0]), ops[1..], apart)
  }

  /** Over any run no two jobs ever share a port exactly when every launch finds all its ports free. */
  lemma {:induction false} DisjointOverRuns(w: Worker, ops: seq<WorkerProofs.Op>)
    requires PortsDisjoint(w.running)
    ensures AlwaysDisjoint(w, ops) <==> EveryRangeFree(w, ops, AllApart())
    decreases |ops|
  {
    if ops == [] {
    } else {
      StepKeepsDisjoint(w, ops[0]);
      if ops[0].OpPost? ==> RangeFree(w, ops[0].job, AllApart()) {
        DisjointOverRuns(WorkerProofs.Do(w, ops[0]), ops[1..]);
      }
    }
  }

  /** And no two ever share a rendition port exactly when every launch finds its rendition ports free. */
  lemma {:induction false} RenditionsDisjointOverRuns(w: Worker, ops: seq<WorkerProofs.Op>)
    requires RenditionsDisjoint(w.running)
    ensures AlwaysRenditionsDisjoint(w, ops) <==> EveryRangeFree(w, ops, AllRenditionsApart())
    decreases |ops|
  {
    if ops == [] {
    } else {
      StepKeepsDisjoint(w, ops[0]);
      if ops[0].OpPost? ==> RangeFree(w, ops[0].job, AllRenditionsApart()) {
        RenditionsDisjointOverRuns(WorkerProofs.Do(w, ops[0]), ops[1..]);
      }
    }
  }

  /**
    Next to a single job at the worker's base, rendition ports are free unless that job overhangs
    into them; with fewer than 1000 renditions the ffprobe ports differ too, unless the first job has
    no counted rendition.
   */
  lemma SecondLaunch(w: Worker, m: LiveJob)
    requires |w.running| == 1 && w.running[0].udpPortBase == w.udpPortBase
    ensures var s := w.running[0].job.spec;
            && (RangeFree(w, m, AllRenditionsApart()) <==> !(Overhangs(s) && StartsAtBase(m.spec)))
            && (Outputs(s) + Outputs(m.spec) < FFPROBE_DISTANCE ==>
                  (RangeFree(w, m, AllApart())
                   <==> (RangeFree(w, m, AllRenditionsApart()) && !(Outputs(s) == 0 && Probes(s) && Probes(m.spec)))))
  {
    TotalOfOne(w.running);
  }

  lemma OnlySecondStays(running: seq<RunningJob>)
    requires |running| == 2 && running[0].pid == 1 && running[1].pid == 2
    ensures Filter(running, Answers({2})) == [running[1]]
  {
    assert running[1..] == [running[1]] && running[1..][1..] == [];
    assert Filter(running[1..], Answers({2})) == [running[1]];
  }

  /** Once a job has been reaped the next launch can be given the ports of a running one. */
  lemma OverlapAfterReap(first: LiveJob, second: LiveJob, third: LiveJob)
    requires first.spec == second.spec == third.spec && first.spec.videoOutputs != [] && !HasAv1Output(first.spec)
    ensures var ops := [WorkerProofs.OpPost(first, 1, true), WorkerProofs.OpPost(second, 2, true),
                        WorkerProofs.OpCheck({2}), WorkerProofs.OpPost(third, 3, true)];
            var r := WorkerProofs.Run(NewWorker("w", 10001), ops).running;
            |r| == 2 && PortsOf(r[0]) == PortsOf(r[1]) != []
  {
    LaunchedAfterReap(first, second, third);
    assert RenditionPorts(Transcoded(first.spec), 10001 + Outputs(first.spec))[0] == 10001 + Outputs(first.spec);
  }

  lemma LaunchedAfterReap(first: LiveJob, second: LiveJob, third: LiveJob)
    requires first.spec == second.spec == third.spec
    ensures var ops := [WorkerProofs.OpPost(first, 1, true), WorkerProofs.OpPost(second, 2, true),
                        WorkerProofs.OpCheck({2}), WorkerProofs.OpPost(third, 3, true)];
            var r, base := WorkerProofs.Run(NewWorker("w", 10001), ops).running, 10001 + Outputs(first.spec);
            |r| == 2 && r[0].job.spec == r[1].job.spec == first.spec && r[0].udpPortBase == r[1].udpPortBase == base
  {
    var w0 := NewWorker("w", 10001);
    WorkerProofs.RunOfFour(w0, WorkerProofs.OpPost(first, 1, true), WorkerProofs.OpPost(second, 2, true),
                           WorkerProofs.OpCheck({2}), WorkerProofs.OpPost(third, 3, true));
    var w1 := Post(w0, first, 1, true);
    var w2 := Post(w1, second, 2, true);
    var w3 := Check(w2, {2});
    var n := Outputs(first.spec);
    TotalOfOne(w1.running);
    OnlySecondStays(w2.running);
    TotalOfOne(w3.running);
    assert w2.running[1].udpPortBase == 10001 + n;
    assert Post(w3, third, 3, true).running == [w2.running[1], RunningJob(WithPort(w3, third), 3, 10001 + n)];
  }

  lemma TotalOfOne(running: seq<RunningJob>)
    requires |running| == 1
    ensures TotalOutputs(running) == Outputs(running[0].job.spec)
  {
    assert running[..0] == [];
  }

  function ExampleOutput(codec: string, preset: string): VideoOutput {
    VideoOutput(codec, 25.0, 640, 360, "500k", "500k", "500k", preset, 25, 2)
  }

  function ExampleJob(detection: Detection, output: VideoOutput): LiveJobSpec {
    LiveJobSpec("hls", "fmp4", 4, 1, 0, Drm(0, "", ""), detection, "bucket", [output], [])
  }

  /** A job of one 500 kbps rendition with detection at another bitrate. */
  function DetectionJob(): LiveJobSpec {
    ExampleJob(Detection(0.0, 0, 0, "150k", "", "", "h264", "veryfast", 25), ExampleOutput("h264", "veryfast"))
  }

  /** The validator accepts that job as it is, and two of them launched on a new worker share a port. */
  lemma OverhangExample(first: LiveJob, second: LiveJob, p: Parsers)
    requires p.float("500") == Some(Finite(500.0)) && first.spec == second.spec == DetectionJob()
    ensures Acceptable(DetectionJob(), p) && Normalised(DetectionJob()) == DetectionJob()
    ensures var w := Post(Post(NewWorker("w", 10001), first, 1, true), second, 2, true);
            10002 in PortsOf(w.running[0]) && 10002 in PortsOf(w.running[1])
  {
    assert "500k"[3..] == "k" && "500k"[..3] == "500";
    var w1 := Post(NewWorker("w", 10001), first, 1, true);
    TotalOfOne(w1.running);
    UsedPortsAre(DetectionJob(), 10001);
    UsedPortsAre(DetectionJob(), 10002);
  }

  /** A job of one 500 kbps AV1 rendition. */
  function Av1Job(): LiveJobSpec {
    ExampleJob(NO_DETECTION, ExampleOutput("av1", "12"))
  }

  /** The validator accepts that job; after a reap two of them share no rendition port and the ffprobe port. */
  lemma Av1OverlapExample(first: LiveJob, second: LiveJob, third: LiveJob, p: Parsers)
    requires p.float("500") == Some(Finite(500.0)) && p.integer("12") == Some(12)
    requires first.spec == second.spec == third.spec == Av1Job()
    ensures Acceptable(Av1Job(), p) && Normalised(Av1Job()) == Av1Job()
    ensures var ops := [WorkerProofs.OpPost(first, 1, true), WorkerProofs.OpPost(second, 2, true),
                        WorkerProofs.OpCheck({2}), WorkerProofs.OpPost(third, 3, true)];
            var r := WorkerProofs.Run(NewWorker("w", 10001), ops).running;
            |r| == 2 && PortsOf(r[0]) == PortsOf(r[1]) == [] && SentBy(r[0]) == SentBy(r[1]) == [11002]
  {
    assert "500k"[3..] == "k" && "500k"[..3] == "500";
    LaunchedAfterReap(first, second, third);
    assert Av1Job().videoOutputs[0].codec == "av1";
  }
}
