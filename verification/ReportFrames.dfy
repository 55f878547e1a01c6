/** What a worker's report leaves alone in the scheduler's tables. */
module ReportFrames {
  import opened JobModel
  import opened SchedulerSpec

  lemma {:induction false} StoppedFrame(t: Tables, wid: string, jids: seq<string>)
    ensures var t' := ReportAllStopped(t, wid, jids);
            && t'.workers == t.workers && t'.loads.Keys == t.loads.Keys && t'.queued == t.queued
            && (Keyed(t) ==> Keyed(t') && t'.jobs.Keys == t.jobs.Keys)
    decreases |jids|
  {
    if jids == [] {
    } else {
      StoppedFrame(t, wid, jids[..|jids| - 1]);
    }
  }

  lemma {:induction false} StatsFrame(t: Tables, stats: seq<JobStats>, now: int)
    ensures var t' := ReportAllStats(t, stats, now);
            && t'.workers == t.workers && t'.loads == t.loads && t'.queued == t.queued
            && (Keyed(t) ==> Keyed(t') && t'.jobs.Keys == t.jobs.Keys)
    decreases |stats|
  {
    if stats == [] {
    } else {
      StatsFrame(t, stats[..|stats| - 1], now);
    }
  }

  /** A report changes no worker row and no message, removes no row, and changes loads only by its stopped jobs. */
  lemma ReportFrame(t: Tables, r: WorkerJobReport, now: int)
    ensures var t' := Report(t, r, now);
            && t'.workers == t.workers && t'.loads.Keys == t.loads.Keys && t'.queued == t.queued
            && t'.loads == ReportAllStopped(t, r.workerId, r.stoppedJobs).loads
            && (Keyed(t) ==> Keyed(t') && t'.jobs.Keys == t.jobs.Keys)
  {
    StoppedFrame(t, r.workerId, r.stoppedJobs);
    StatsFrame(ReportAllStopped(t, r.workerId, r.stoppedJobs), r.stats, now);
  }
}
