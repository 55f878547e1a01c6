/**
  The Redis keys the servers share: three hash tables and the queued_jobs list. LPUSH adds at
  the left end, QFront reads the right end with LRANGE -1 -1 and RPOP removes it, so read from
  the right the list is a first-in first-out queue.
 */
module RedisClient {
  import opened Sequences
  import opened JobModel
  import opened SchedulerSpec

  class Redis {
    var jobs: map<string, LiveJob>
    var workers: map<string, LiveWorker>
    var workerLoads: map<string, WorkerLoad>
    var queuedJobs: seq<LiveJob>

    constructor ()
      ensures View() == Tables(map[], map[], map[], [])
    {
      jobs, workers, workerLoads, queuedJobs := map[], map[], map[], [];
    }

    ghost function View(): Tables
      reads this
    {
      Tables(jobs, workers, workerLoads, Reverse(queuedJobs))
    }

    method HSetJob(j: LiveJob)
      modifies this
      ensures View() == PutJob(old(View()), j)
      ensures jobs == old(jobs)[j.id := j] && queuedJobs == old(queuedJobs)
      ensures workers == old(workers) && workerLoads == old(workerLoads)
    {
      jobs := jobs[j.id := j];
    }

    method HDelJob(jid: string)
      modifies this
      ensures View() == old(View()).(jobs := old(View()).jobs - {jid})
      ensures jobs == old(jobs) - {jid}
    {
      jobs := jobs - {jid};
    }

    method QPushStruct(j: LiveJob)
      modifies this
      ensures View() == Buffer(old(View()), j)
      ensures queuedJobs == [j] + old(queuedJobs)
      ensures jobs == old(jobs) && workers == old(workers) && workerLoads == old(workerLoads)
    {
      queuedJobs := [j] + queuedJobs;
      assert queuedJobs[0] == j && queuedJobs[1..] == old(queuedJobs);
    }

    /** The code takes the first element of LRANGE's answer, so the list must not be empty. */
    method QFront() returns (j: LiveJob)
      requires queuedJobs != []
      ensures View().queued != [] && j == View().queued[0]
    {
      var elements := queuedJobs[|queuedJobs| - 1..];
      j := elements[0];
    }

    /** None is the error RPOP gives on an empty list. */
    method QPop() returns (j: Option<LiveJob>)
      modifies this
      ensures old(View()).queued == [] ==> j == None && View() == old(View())
      ensures old(View()).queued != [] ==>
                j == Some(old(View()).queued[0]) && View() == old(View()).(queued := old(View()).queued[1..])
      ensures old(queuedJobs) != [] ==> j.Some? && queuedJobs + [j.value] == old(queuedJobs)
      ensures jobs == old(jobs) && workers == old(workers) && workerLoads == old(workerLoads)
    {
      if queuedJobs == [] {
        return None;
      }
      j := Some(queuedJobs[|queuedJobs| - 1]);
      queuedJobs := queuedJobs[..|queuedJobs| - 1];
      assert Reverse(queuedJobs) == Reverse(old(queuedJobs))[1..];
    }

    method QLen() returns (n: nat)
      ensures n == |View().queued|
    {
      n := |queuedJobs|;
    }
  }
}
