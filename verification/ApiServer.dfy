/** The API server: each request edits one row of the jobs table and may send that record to SQS. */
module ApiServer {
  import opened JobModel
  import opened SchedulerSpec
  import opened RedisClient
  import opened SchedulerApp

  datatype Status = Success | Forbidden | NotFound | InternalError

  /** What an API request can change. */
  datatype Front = Front(tables: Tables, sqs: seq<LiveJob>)

  function NewJob(id: string, spec: LiveJobSpec, now: int): LiveJob {
    LiveJob(id, Created, 0, 0, "", 0, 0, 0, 0, spec, now, 0, "", false, false)
  }

  function Asked(j: LiveJob, stop: bool): LiveJob {
    j.(stop := stop)
  }

  function StoreAndSend(f: Front, j: LiveJob, sent: bool): Front {
    Front(PutJob(f.tables, j), if sent then f.sqs + [j] else f.sqs)
  }

  predicate Stoppable(f: Front, jid: string) {
    jid in f.tables.jobs && f.tables.jobs[jid].state != Stopped
  }

  predicate Resumable(f: Front, jid: string) {
    jid in f.tables.jobs && (f.tables.jobs[jid].state == Created || f.tables.jobs[jid].state == Stopped)
  }

  function Create(f: Front, id: string, spec: LiveJobSpec, now: int, sent: bool): Front {
    StoreAndSend(f, NewJob(id, spec, now), sent)
  }

  function Stop(f: Front, jid: string, sent: bool): Front {
    if Stoppable(f, jid) then StoreAndSend(f, Asked(f.tables.jobs[jid], true), sent) else f
  }

  function Resume(f: Front, jid: string, sent: bool): Front {
    if Resumable(f, jid) then StoreAndSend(f, Asked(f.tables.jobs[jid], false), sent) else f
  }

  function Delete(f: Front, jid: string): Front {
    if jid in f.tables.jobs && f.tables.jobs[jid].state == Stopped
    then f.(tables := f.tables.(jobs := f.tables.jobs - {jid}))
    else f
  }

  class ApiServer {
    const redis: Redis
    const sqs: SqsQueue

    constructor (redis: Redis, sqs: SqsQueue)
      ensures this.redis == redis && this.sqs == sqs
    {
      this.redis, this.sqs := redis, sqs;
    }

    ghost function View(): Front
      reads redis, sqs
    {
      Front(redis.View(), sqs.messages)
    }

    /** sendOk says whether SQS took the message. */
    method SendMsg(j: LiveJob, sendOk: bool) returns (status: Status)
      modifies sqs
      ensures sqs.messages == if sendOk then old(sqs.messages) + [j] else old(sqs.messages)
      ensures status == if sendOk then Success else InternalError
    {
      if sendOk {
        sqs.messages := sqs.messages + [j];
        return Success;
      }
      return InternalError;
    }

    method CreateJob(uuid: string, spec: LiveJobSpec, now: int, sendOk: bool) returns (status: Status)
      modifies redis, sqs
      ensures View() == Create(old(View()), uuid, spec, now, sendOk)
      ensures var m := LiveJob(uuid, Created, 0, 0, "", 0, 0, 0, 0, spec, now, 0, "", false, false);
              && redis.jobs == old(redis.jobs)[uuid := m]
              && sqs.messages == old(sqs.messages) + (if sendOk then [m] else [])
              && status == if sendOk then Success else InternalError
    {
      var j := LiveJob(uuid, Created, 0, 0, "", 0, 0, 0, 0, spec, now, 0, "", false, false);
      redis.HSetJob(j);
      status := SendMsg(j, sendOk);
    }

    method StopJob(jid: string, sendOk: bool) returns (status: Status)
      requires Keyed(redis.View())
      modifies redis, sqs
      ensures View() == Stop(old(View()), jid, sendOk)
      ensures status == NotFound <==> jid !in old(redis.jobs)
      ensures status == Forbidden <==> jid in old(redis.jobs) && old(redis.jobs)[jid].state == Stopped
      ensures if jid in old(redis.jobs) && old(redis.jobs)[jid].state != Stopped then
                var m := old(redis.jobs)[jid].(stop := true);
                && m.id == jid && redis.jobs == old(redis.jobs)[jid := m]
                && sqs.messages == old(sqs.messages) + (if sendOk then [m] else [])
                && status == if sendOk then Success else InternalError
              else redis.jobs == old(redis.jobs) && sqs.messages == old(sqs.messages)
    {
      if jid !in redis.jobs {
        return NotFound;
      }
      var j := redis.jobs[jid];
      if j.state == Stopped {
        return Forbidden;
      }
      j := j.(stop := true);
      redis.HSetJob(j);
      status := SendMsg(j, sendOk);
    }

    method ResumeJob(jid: string, sendOk: bool) returns (status: Status)
      requires Keyed(redis.View())
      modifies redis, sqs
      ensures View() == Resume(old(View()), jid, sendOk)
      ensures status == NotFound <==> jid !in old(redis.jobs)
      ensures status == Forbidden <==> jid in old(redis.jobs) && old(redis.jobs)[jid].state in {Running, Streaming}
      ensures if jid in old(redis.jobs) && old(redis.jobs)[jid].state !in {Running, Streaming} then
                var m := old(redis.jobs)[jid].(stop := false);
                && m.id == jid && redis.jobs == old(redis.jobs)[jid := m]
                && sqs.messages == old(sqs.messages) + (if sendOk then [m] else [])
                && status == if sendOk then Success else InternalError
              else redis.jobs == old(redis.jobs) && sqs.messages == old(sqs.messages)
    {
      if jid !in redis.jobs {
        return NotFound;
      }
      var j := redis.jobs[jid];
      if j.state == Running || j.state == Streaming {
        return Forbidden;
      }
      j := j.(stop := false);
      redis.HSetJob(j);
      status := SendMsg(j, sendOk);
    }

    method DeleteJob(jid: string) returns (status: Status)
      requires Keyed(redis.View())
      modifies redis
      ensures View() == Delete(old(View()), jid)
      ensures status == Success <==> jid in old(redis.jobs) && old(redis.jobs)[jid].state == Stopped
      ensures redis.jobs == if status == Success then old(redis.jobs) - {jid} else old(redis.jobs)
    {
      if jid !in redis.jobs {
        return NotFound;
      }
      if redis.jobs[jid].state != Stopped {
        return Forbidden;
      }
      redis.HDelJob(jid);
      return Success;
    }
  }
}
