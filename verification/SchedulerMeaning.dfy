/** What the scheduler's functions on the tables come to, field by field and in numbers. */
module SchedulerMeaning {
  import opened JobModel
  import opened SchedulerSpec

  // ----- Integer division -----

  /** Division truncates: the quotient's multiple is within one divisor of the dividend, on the side of zero. */
  lemma TruncDivIs(a: int, b: int)
    requires b > 0
    ensures a >= 0 ==> TruncDiv(a, b) * b <= a < TruncDiv(a, b) * b + b && TruncDiv(a, b) >= 0
    ensures a < 0 ==> TruncDiv(a, b) * b - b < a <= TruncDiv(a, b) * b && TruncDiv(a, b) <= 0
  {
    DivisionIs(if a >= 0 then a else -a, b);
  }

  lemma DivisionIs(a: nat, b: int)
    requires b > 0
    ensures (a / b) * b <= a < (a / b) * b + b && a / b >= 0
  {
    assert a == b * (a / b) + a % b;
  }

  // ----- Stats -----

  /**
    What a stats entry makes of a record: streaming above 10 kbps and running below, the readings
    and the time of the report, and the totals. Between two reports the bytes grow by what the
    reading amounts to, and the active seconds by the whole seconds if it is above 10 kbps; on the
    first report neither total grows. Everything else stays.
   */
  predicate Updated(j: LiveJob, st: JobStats, now: int, j': LiveJob) {
    var ms := now - j.lastReportMs;
    && j'.state == (if st.bandwidth > 10 then Streaming else Running)
    && j'.bandwidth == st.bandwidth && j'.cpu == st.cpu && j'.lastReportMs == now
    && WholePart(now - j.createdMs, 1000, j'.upSeconds)
    && (if j.lastReportMs > 0 then WholePart(ms * st.bandwidth, 8, j'.bytesIngested - j.bytesIngested)
        else j'.bytesIngested == j.bytesIngested)
    && (if j.lastReportMs > 0 && st.bandwidth > 10 then WholePart(ms, 1000, j'.activeSeconds - j.activeSeconds)
        else j'.activeSeconds == j.activeSeconds)
    && j'.id == j.id && j'.rtmpPort == j.rtmpPort && j'.spec == j.spec && j'.createdMs == j.createdMs
    && j'.receivedMs == j.receivedMs && j'.assignedWorker == j.assignedWorker
    && j'.stop == j.stop && j'.delete == j.delete
  }

  /** q is a divided by b, the remainder being dropped. */
  predicate WholePart(a: int, b: int, q: int) {
    if a >= 0 then q >= 0 && b * q <= a < b * q + b else q <= 0 && b * q - b < a <= b * q
  }

  lemma TruncDivWhole(a: int, b: int)
    requires b > 0
    ensures WholePart(a, b, TruncDiv(a, b))
  {
    TruncDivIs(a, b);
  }

  lemma AccountedUpdates(j: LiveJob, st: JobStats, now: int)
    ensures Updated(j, st, now, Accounted(j, st, now))
  {
    TruncDivWhole((now - j.lastReportMs) * st.bandwidth, 8);
    TruncDivWhole(now - j.createdMs, 1000);
    TruncDivWhole(now - j.lastReportMs, 1000);
  }

  // ----- Reports -----

  /** The last stats entry of a job in a report. */
  predicate LastStats(stats: seq<JobStats>, jid: string, i: nat) {
    i < |stats| && stats[i].id == jid && forall k | i < k < |stats| :: stats[k].id != jid
  }

  predicate HasStats(stats: seq<JobStats>, jid: string) {
    exists i | 0 <= i < |stats| :: stats[i].id == jid
  }

  /** The record of a stopped job: its state and its stats are reset. */
  predicate StoppedRow(j: LiveJob, j': LiveJob) {
    j' == j.(state := Stopped, bandwidth := 0, cpu := "")
  }

  lemma StoppedOnce(t: Tables, wid: string, id: string)
    requires Keyed(t)
    ensures Keyed(ReportStopped(t, wid, id))
    ensures ReportStopped(t, wid, id).jobs
         == if id in t.jobs then t.jobs[id := t.jobs[id].(state := Stopped, bandwidth := 0, cpu := "")] else t.jobs
  {
  }

  lemma {:induction false} StoppedRows(t: Tables, wid: string, jids: seq<string>, jid: string)
    requires Keyed(t) && jid in t.jobs
    ensures var t' := ReportAllStopped(t, wid, jids);
            && Keyed(t') && jid in t'.jobs
            && (if jid in jids then StoppedRow(t.jobs[jid], t'.jobs[jid]) else t'.jobs[jid] == t.jobs[jid])
    decreases |jids|
  {
    if jids == [] {
    } else {
      var front, id := jids[..|jids| - 1], jids[|jids| - 1];
      StoppedRows(t, wid, front, jid);
      StoppedOnce(ReportAllStopped(t, wid, front), wid, id);
      assert jids == front + [id];
    }
  }

  /** The readings of a record are those of the stats entry, and its report time is now. */
  predicate Reads(j: LiveJob, st: JobStats, now: int, createdMs: int) {
    && j.state == (if st.bandwidth > 10 then Streaming else Running)
    && j.bandwidth == st.bandwidth && j.cpu == st.cpu
    && j.lastReportMs == now && WholePart(now - createdMs, 1000, j.upSeconds)
  }

  /** The row is unchanged when no entry names the job, and otherwise reads as the last entry that does. */
  ghost predicate RowRead(j: LiveJob, stats: seq<JobStats>, now: int, j': LiveJob) {
    && j'.createdMs == j.createdMs
    && (!HasStats(stats, j.id) ==> j' == j)
    && (forall i: nat | i < |stats| && LastStats(stats, j.id, i) :: Reads(j', stats[i], now, j.createdMs))
  }

  lemma OtherStats(j: LiveJob, stats: seq<JobStats>, st: JobStats, now: int, j': LiveJob)
    requires RowRead(j, stats, now, j') && st.id != j.id
    ensures RowRead(j, stats + [st], now, j')
  {
    var all := stats + [st];
    if HasStats(stats, j.id) {
      var i :| 0 <= i < |stats| && stats[i].id == j.id;
      assert all[i].id == j.id;
    }
    forall i: nat | i < |all| && LastStats(all, j.id, i)
      ensures Reads(j', all[i], now, j.createdMs)
    {
      assert all[i] == stats[i];
      assert forall k | i < k < |stats| :: stats[k] == all[k];
      assert LastStats(stats, j.id, i);
    }
  }

  lemma OwnStats(j: LiveJob, stats: seq<JobStats>, st: JobStats, now: int, j1: LiveJob)
    requires st.id == j.id && j1.createdMs == j.createdMs
    ensures RowRead(j, stats + [st], now, Accounted(j1, st, now))
  {
    var all := stats + [st];
    AccountedUpdates(j1, st, now);
    assert all[|stats|].id == j.id;
    forall i: nat | i < |all| && LastStats(all, j.id, i)
      ensures Reads(Accounted(j1, st, now), all[i], now, j.createdMs)
    {
      assert i == |stats|;
    }
  }

  lemma StatsOnce(t: Tables, st: JobStats, now: int)
    requires Keyed(t)
    ensures Keyed(ReportStats(t, st, now))
    ensures ReportStats(t, st, now).jobs
         == if st.id in t.jobs then t.jobs[st.id := Accounted(t.jobs[st.id], st, now)] else t.jobs
  {
  }

  lemma {:induction false} StatsRows(t: Tables, stats: seq<JobStats>, now: int, jid: string)
    requires Keyed(t) && jid in t.jobs
    ensures var t' := ReportAllStats(t, stats, now);
            Keyed(t') && jid in t'.jobs && RowRead(t.jobs[jid], stats, now, t'.jobs[jid])
    decreases |stats|
  {
    if stats == [] {
    } else {
      var front, st := stats[..|stats| - 1], stats[|stats| - 1];
      StatsRows(t, front, now, jid);
      var t1 := ReportAllStats(t, front, now);
      assert stats == front + [st];
      StatsOnce(t1, st, now);
      if st.id == jid {
        OwnStats(t.jobs[jid], front, st, now, t1.jobs[jid]);
      } else {
        OtherStats(t.jobs[jid], front, st, now, t1.jobs[jid]);
      }
    }
  }

  /**
    What a report does to the row of a job: unchanged when it names the job nowhere, stopped when
    it names it among the stopped jobs only, and otherwise as its last stats entry says.
   */
  ghost predicate RowReported(j: LiveJob, r: WorkerJobReport, now: int, j': LiveJob) {
    && (j.id !in r.stoppedJobs && !HasStats(r.stats, j.id) ==> j' == j)
    && (j.id in r.stoppedJobs && !HasStats(r.stats, j.id) ==> StoppedRow(j, j'))
    && (forall i: nat | i < |r.stats| && LastStats(r.stats, j.id, i) :: Reads(j', r.stats[i], now, j.createdMs))
  }

  lemma ReportRow(t: Tables, r: WorkerJobReport, now: int, jid: string)
    requires Keyed(t) && jid in t.jobs
    ensures jid in Report(t, r, now).jobs && RowReported(t.jobs[jid], r, now, Report(t, r, now).jobs[jid])
  {
    StoppedRows(t, r.workerId, r.stoppedJobs, jid);
    StatsRows(ReportAllStopped(t, r.workerId, r.stoppedJobs), r.stats, now, jid);
  }
}
