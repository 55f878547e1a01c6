/** What becomes of each item on the upload list in one pass, one by one, whatever else is listed. */
module UploadFates {
  import opened UploadSpec
  import UploadProofs

  /** Where an item ends: at a place in the log, or at a place in the new list. */
  datatype End = StoredAt(n: nat) | DroppedAt(n: nat) | ListedAt(pos: nat)

  /** The places in the log of an item's failures, in order, and its end. */
  datatype Fate = Fate(failures: seq<nat>, end: End)

  /** Follows item i of those still to be visited: a failed item goes to the end of the list. */
  function FateOf(p: Pass, table: map<string, UploadItem>, env: Env, i: nat): Fate
    requires ItemsOk(p.todo) && TableOk(table) && i < |p.todo|
    decreases if p.attempts <= MAX_CONCURRENT_UPLOADS then MAX_CONCURRENT_UPLOADS - p.attempts else 0, |p.todo|
  {
    if Finished(p, env) then Fate([], ListedAt(|p.kept| + i))
    else
      var next := PassStep(p, table, env);
      if i > 0 then FateOf(next, table, env, i - 1)
      else if !Ready(p.todo[0], env.now(p.visits)) then Fate([], ListedAt(|p.kept|))
      else if p.todo[0].retried >= MAX_UPLOAD_RETRIES then Fate([], DroppedAt(|p.log|))
      else if env.stores(p.attempts) then Fate([], StoredAt(|p.log|))
      else
        var later := FateOf(next, table, env, |next.todo| - 1);
        Fate([|p.log|] + later.failures, later.end)
  }

  function Retried(it: UploadItem, n: nat): UploadItem {
    it.(retried := it.retried + n)
  }

  /** The log and the new list show the fate: every failure, and the end with the retries it came to. */
  ghost predicate Shows(it: UploadItem, f: Fate, list: seq<UploadItem>, log: seq<LogEntry>) {
    var k := |f.failures|;
    && (forall m | 0 <= m < k :: f.failures[m] < |log| && log[f.failures[m]] == Failed(Retried(it, m)))
    && (forall a, b | 0 <= a < b < k :: f.failures[a] < f.failures[b])
    && match f.end
       case StoredAt(n) => n < |log| && log[n] == Stored(Retried(it, k)) && it.retried + k < 3
       case DroppedAt(n) => n < |log| && log[n] == Dropped(Retried(it, k)) && it.retried + k >= 3
       case ListedAt(pos) => pos < |list| && list[pos] == Retried(it, k)
  }

  /** No place in the log is before n, and no place in the list before m. */
  predicate From(f: Fate, n: nat, m: nat) {
    && (forall i | 0 <= i < |f.failures| :: f.failures[i] >= n)
    && match f.end case StoredAt(at) => at >= n case DroppedAt(at) => at >= n case ListedAt(pos) => pos >= m
  }

  function Final(p: Pass, table: map<string, UploadItem>, env: Env): seq<UploadItem>
    requires ItemsOk(p.todo) && TableOk(table)
  {
    RunPass(p, table, env).kept + RunPass(p, table, env).todo
  }

  /** A pass keeps what it has kept and logged. */
  lemma {:induction false} PassExtends(p: Pass, table: map<string, UploadItem>, env: Env)
    requires ItemsOk(p.todo) && TableOk(table)
    ensures p.kept <= RunPass(p, table, env).kept && p.log <= RunPass(p, table, env).log
    decreases if p.attempts <= MAX_CONCURRENT_UPLOADS then MAX_CONCURRENT_UPLOADS - p.attempts else 0, |p.todo|
  {
    if Finished(p, env) {
    } else {
      PassExtends(PassStep(p, table, env), table, env);
    }
  }

  function FirstEntry(f: UploadItem, storeOk: bool): LogEntry {
    if f.retried >= MAX_UPLOAD_RETRIES then Dropped(f) else if storeOk then Stored(f) else Failed(f)
  }

  /** Visiting the first item shifts the others, and adds only to the ends of the log and of the kept items. */
  lemma StepPlaces(p: Pass, table: map<string, UploadItem>, env: Env)
    requires !Finished(p, env) && ItemsOk(p.todo) && TableOk(table)
    ensures var f, q := p.todo[0], PassStep(p, table, env);
            && |q.todo| >= |p.todo| - 1 && (forall i | 0 < i < |p.todo| :: q.todo[i - 1] == p.todo[i])
            && |q.kept| >= |p.kept| && |q.log| >= |p.log|
            && (if Ready(f, env.now(p.visits)) then
                  && |q.log| > |p.log| && q.kept == p.kept
                  && q.log[|p.log|] == FirstEntry(f, env.stores(p.attempts))
                  && (f.retried < MAX_UPLOAD_RETRIES && !env.stores(p.attempts) ==>
                        q.todo == p.todo[1..] + [Retried(f, 1)])
                else q.kept == p.kept + [f] && q.log == p.log)
  {
    if Ready(p.todo[0], env.now(p.visits)) {
      StepOnReady(p, table, env);
    } else {
      StepOnUnready(p, table, env);
    }
  }

  lemma {:induction false} FateShows(p: Pass, table: map<string, UploadItem>, env: Env, i: nat)
    requires ItemsOk(p.todo) && TableOk(table) && i < |p.todo|
    ensures Shows(p.todo[i], FateOf(p, table, env, i), Final(p, table, env), RunPass(p, table, env).log)
    ensures From(FateOf(p, table, env, i), |p.log|, |p.kept|)
    decreases if p.attempts <= MAX_CONCURRENT_UPLOADS then MAX_CONCURRENT_UPLOADS - p.attempts else 0, |p.todo|
  {
    if Finished(p, env) {
    } else {
      var next := PassStep(p, table, env);
      StepPlaces(p, table, env);
      if i > 0 {
        FateShows(next, table, env, i - 1);
      } else {
        FirstFateShows(p, table, env);
      }
    }
  }

  predicate Fails(p: Pass, env: Env) {
    && p.todo != [] && Ready(p.todo[0], env.now(p.visits))
    && p.todo[0].retried < MAX_UPLOAD_RETRIES && !env.stores(p.attempts)
  }

  lemma {:induction false} FirstFateShows(p: Pass, table: map<string, UploadItem>, env: Env)
    requires !Finished(p, env) && ItemsOk(p.todo) && TableOk(table)
    ensures Shows(p.todo[0], FateOf(p, table, env, 0), Final(p, table, env), RunPass(p, table, env).log)
    ensures From(FateOf(p, table, env, 0), |p.log|, |p.kept|)
    decreases if p.attempts <= MAX_CONCURRENT_UPLOADS then MAX_CONCURRENT_UPLOADS - p.attempts else 0, |p.todo|, 0
  {
    var next := PassStep(p, table, env);
    StepPlaces(p, table, env);
    PassExtends(next, table, env);
    if Fails(p, env) {
      var later, last := FateOf(next, table, env, |next.todo| - 1), RunPass(next, table, env);
      FateShows(next, table, env, |next.todo| - 1);
      InLaterLog(|p.log|, next.log, last.log);
      FailedThenShows(p.todo[0], |p.log|, later, last.kept + last.todo, last.log, |p.log|, |p.kept|);
    } else {
      EndedShows(p, next, RunPass(next, table, env), table, env);
    }
  }

  lemma InLaterLog<T>(at: nat, log: seq<T>, later: seq<T>)
    requires at < |log| && log <= later
    ensures at < |later| && later[at] == log[at]
  {
  }

  /** An item that does not fail has its end in this step. */
  lemma EndedShows(p: Pass, next: Pass, last: Pass, table: map<string, UploadItem>, env: Env)
    requires !Finished(p, env) && ItemsOk(p.todo) && TableOk(table) && !Fails(p, env)
    requires next == PassStep(p, table, env) && next.kept <= last.kept && next.log <= last.log
    ensures Shows(p.todo[0], FateOf(p, table, env, 0), last.kept + last.todo, last.log)
    ensures From(FateOf(p, table, env, 0), |p.log|, |p.kept|)
  {
    var f := p.todo[0];
    StepPlaces(p, table, env);
    assert Retried(f, 0) == f;
    if Ready(f, env.now(p.visits)) {
      InLaterLog(|p.log|, next.log, last.log);
    } else {
      InLaterLog(|p.kept|, next.kept, last.kept);
    }
  }

  lemma FailedThenShows(it: UploadItem, at: nat, later: Fate, list: seq<UploadItem>, log: seq<LogEntry>, n: nat, m: nat)
    requires at < |log| && log[at] == Failed(it) && Shows(Retried(it, 1), later, list, log)
    requires n <= at && From(later, at + 1, m)
    ensures Shows(it, Fate([at] + later.failures, later.end), list, log)
    ensures From(Fate([at] + later.failures, later.end), n, m)
  {
    var k := |later.failures|;
    assert forall r: nat :: Retried(Retried(it, 1), r) == Retried(it, r + 1);
    forall r | 0 <= r < k + 1
      ensures ([at] + later.failures)[r] < |log| && log[([at] + later.failures)[r]] == Failed(Retried(it, r))
      ensures ([at] + later.failures)[r] >= n
    {
      if r > 0 {
        assert ([at] + later.failures)[r] == later.failures[r - 1];
      } else {
        assert Retried(it, 0) == it;
      }
    }
  }

  /** Two fates with no place in common. */
  predicate Distinct(f: Fate, g: Fate) {
    && f.end != g.end
    && (forall i, j | 0 <= i < |f.failures| && 0 <= j < |g.failures| :: f.failures[i] != g.failures[j])
  }

  /** The first item's fate differs from one whose places all come later. */
  lemma FirstDistinct(p: Pass, next: Pass, table: map<string, UploadItem>, env: Env, g: Fate)
    requires !Finished(p, env) && ItemsOk(p.todo) && TableOk(table)
    requires next == PassStep(p, table, env) && ItemsOk(next.todo) && From(g, |next.log|, |next.kept|)
    requires Fails(p, env) ==> next.todo != [] && Distinct(g, FateOf(next, table, env, |next.todo| - 1))
    ensures Distinct(FateOf(p, table, env, 0), g)
  {
    StepPlaces(p, table, env);
    if Fails(p, env) {
      var later := FateOf(next, table, env, |next.todo| - 1);
      assert FateOf(p, table, env, 0) == Fate([|p.log|] + later.failures, later.end);
    }
  }

  lemma {:induction false} FatesDiffer(p: Pass, table: map<string, UploadItem>, env: Env, i: nat, j: nat)
    requires ItemsOk(p.todo) && TableOk(table) && i < j < |p.todo|
    ensures Distinct(FateOf(p, table, env, i), FateOf(p, table, env, j))
    decreases if p.attempts <= MAX_CONCURRENT_UPLOADS then MAX_CONCURRENT_UPLOADS - p.attempts else 0, |p.todo|
  {
    if Finished(p, env) {
    } else {
      var next := PassStep(p, table, env);
      StepItemsOk(p, table, env);
      StepPlaces(p, table, env);
      if i > 0 {
        FatesDiffer(next, table, env, i - 1, j - 1);
      } else {
        FateShows(next, table, env, j - 1);
        if Fails(p, env) {
          FatesDiffer(next, table, env, j - 1, |next.todo| - 1);
        }
        FirstDistinct(p, next, table, env, FateOf(next, table, env, j - 1));
      }
    }
  }

  /**
    In one pass every item listed at the start is stored with retries left, or dropped with none
    left, or listed with its retry count raised by its failures; and no two items, however alike,
    have a failure, an end in the log or a place in the new list in common.
   */
  lemma EveryItemHasItsFate(s: Uploads, env: Env) returns (fates: seq<Fate>)
    requires Valid(s)
    ensures |fates| == |s.list|
    ensures forall i | 0 <= i < |s.list| :: Shows(s.list[i], fates[i], DoPass(s, env).list, DoPass(s, env).log)
    ensures forall i | 0 <= i < |s.list| :: From(fates[i], |s.log|, 0)
    ensures forall i, j | 0 <= i < j < |s.list| :: Distinct(fates[i], fates[j])
  {
    var p := StartPass(s);
    fates := seq(|s.list|, i requires 0 <= i < |p.todo| => FateOf(p, s.table, env, i));
    forall i | 0 <= i < |s.list|
      ensures Shows(s.list[i], fates[i], DoPass(s, env).list, DoPass(s, env).log) && From(fates[i], |s.log|, 0)
    {
      FateShows(p, s.table, env, i);
    }
    forall i, j | 0 <= i < j < |s.list| ensures Distinct(fates[i], fates[j]) {
      FatesDiffer(p, s.table, env, i, j);
    }
  }

  // ----- Which items are tried -----

  /** The item is more than 200 ms old whenever the pass looks at it. */
  ghost predicate OldEnough(it: UploadItem, env: Env) {
    forall v :: env.now(v) - it.createdMs > 200
  }

  ghost predicate TooYoung(it: UploadItem, env: Env) {
    forall v :: env.now(v) - it.createdMs <= 200
  }

  lemma {:induction false} YoungStays(p: Pass, table: map<string, UploadItem>, env: Env, i: nat)
    requires ItemsOk(p.todo) && TableOk(table) && i < |p.todo| && TooYoung(p.todo[i], env)
    ensures FateOf(p, table, env, i).failures == [] && FateOf(p, table, env, i).end.ListedAt?
    decreases if p.attempts <= MAX_CONCURRENT_UPLOADS then MAX_CONCURRENT_UPLOADS - p.attempts else 0, |p.todo|
  {
    if Finished(p, env) {
    } else {
      StepPlaces(p, table, env);
      assert env.now(p.visits) - p.todo[i].createdMs <= 200;
      if i > 0 {
        YoungStays(PassStep(p, table, env), table, env, i - 1);
      }
    }
  }

  lemma {:induction false} OldIsTried(p: Pass, table: map<string, UploadItem>, env: Env, i: nat)
    requires ItemsOk(p.todo) && TableOk(table) && i < |p.todo| && OldEnough(p.todo[i], env)
    ensures var f := FateOf(p, table, env, i);
            f.failures == [] && f.end.ListedAt? ==> RunPass(p, table, env).attempts >= 5
    decreases if p.attempts <= MAX_CONCURRENT_UPLOADS then MAX_CONCURRENT_UPLOADS - p.attempts else 0, |p.todo|
  {
    if Finished(p, env) {
      assert env.now(p.visits) - p.todo[i].createdMs > 200;
    } else {
      StepPlaces(p, table, env);
      assert env.now(p.visits) - p.todo[i].createdMs > 200;
      if i > 0 {
        OldIsTried(PassStep(p, table, env), table, env, i - 1);
      }
    }
  }

  /**
    In one pass an item that stays at most 200 ms old is left alone; and one that is older is tried
    or dropped, unless the pass has made its five attempts.
   */
  lemma ReadyItemsAreTried(s: Uploads, env: Env, i: nat)
    requires Valid(s) && i < |s.list|
    ensures var f := FateOf(StartPass(s), s.table, env, i);
            && Shows(s.list[i], f, DoPass(s, env).list, DoPass(s, env).log)
            && (TooYoung(s.list[i], env) ==> f.failures == [] && f.end.ListedAt?)
            && (OldEnough(s.list[i], env) && f.failures == [] && f.end.ListedAt? ==>
                  RunPass(StartPass(s), s.table, env).attempts == 5)
  {
    var p := StartPass(s);
    FateShows(p, s.table, env, i);
    UploadProofs.AttemptLimit(p, s.table, env);
    if TooYoung(s.list[i], env) {
      YoungStays(p, s.table, env, i);
    }
    if OldEnough(s.list[i], env) {
      OldIsTried(p, s.table, env, i);
    }
  }
}
