/** What a pass over the upload list, and any run of adds and passes, guarantees. */
module UploadProofs {
  import opened Sequences
  import opened Paths
  import opened Strings
  import opened UploadSpec

  // ----- Conservation -----

  /** What stays the same about an item while it is retried. */
  datatype ItemKey = ItemKey(path: string, createdMs: int, remote: string)

  function KeyOf(it: UploadItem): ItemKey {
    ItemKey(it.path, it.createdMs, it.remote)
  }

  function HasKey(k: ItemKey): UploadItem -> bool {
    (it: UploadItem) => KeyOf(it) == k
  }

  function RetriesOf(k: ItemKey): UploadItem -> int {
    (it: UploadItem) => if KeyOf(it) == k then it.retried else 0
  }

  function IsStored(k: ItemKey): LogEntry -> bool {
    (x: LogEntry) => x.Stored? && KeyOf(x.item) == k
  }

  function IsFailed(k: ItemKey): LogEntry -> bool {
    (x: LogEntry) => x.Failed? && KeyOf(x.item) == k
  }

  function IsDropped(k: ItemKey): LogEntry -> bool {
    (x: LogEntry) => x.Dropped? && KeyOf(x.item) == k
  }

  function IsInitQueued(k: ItemKey): LogEntry -> bool {
    (x: LogEntry) => x.InitQueued? && KeyOf(x.item) == k
  }

  /** How much an entry changes the number of items with key k that have left the list. */
  function Gone(k: ItemKey): LogEntry -> int {
    (x: LogEntry) =>
      if KeyOf(x.item) != k then 0
      else match x case Stored(_) => 1 case Dropped(_) => 1 case InitQueued(_) => -1 case Failed(_) => 0
  }

  /** The same for the retries those items had used up. */
  function GoneRetries(k: ItemKey): LogEntry -> int {
    (x: LogEntry) =>
      if KeyOf(x.item) != k then 0
      else
        match x
        case Stored(it) => it.retried
        case Dropped(it) => it.retried
        case InitQueued(it) => 0 - it.retried
        case Failed(_) => -1
  }

  function Items(list: seq<UploadItem>, log: seq<LogEntry>, k: ItemKey): int {
    CountBy(list, HasKey(k)) + SumBy(log, Gone(k))
  }

  function Retries(list: seq<UploadItem>, log: seq<LogEntry>, k: ItemKey): int {
    SumBy(list, RetriesOf(k)) + SumBy(log, GoneRetries(k))
  }

  lemma HandlingConserves(table: map<string, UploadItem>, f: UploadItem, storeOk: bool, k: ItemKey)
    requires Sliceable(f.path)
    ensures CountBy(Appended(table, f, storeOk), HasKey(k)) + SumBy(Logged(table, f, storeOk), Gone(k))
         == if KeyOf(f) == k then 1 else 0
    ensures SumBy(Appended(table, f, storeOk), RetriesOf(k)) + SumBy(Logged(table, f, storeOk), GoneRetries(k))
         == if KeyOf(f) == k then f.retried else 0
  {
    if f.retried < MAX_UPLOAD_RETRIES && storeOk && InitFor(table, f.path) != [] {
      var it := InitFor(table, f.path)[0];
      SumByConcat([Stored(f)], [InitQueued(it)], Gone(k));
      SumByConcat([Stored(f)], [InitQueued(it)], GoneRetries(k));
    }
  }

  lemma StepConserves(p: Pass, table: map<string, UploadItem>, env: Env, k: ItemKey)
    requires !Finished(p, env) && ItemsOk(p.todo)
    ensures var q := PassStep(p, table, env);
            && Items(q.kept + q.todo, q.log, k) == Items(p.kept + p.todo, p.log, k)
            && Retries(q.kept + q.todo, q.log, k) == Retries(p.kept + p.todo, p.log, k)
  {
    var f, rest := p.todo[0], p.todo[1..];
    if Ready(f, env.now(p.visits)) {
      StepOnReady(p, table, env);
      var storeOk := env.stores(p.attempts);
      var a, l := Appended(table, f, storeOk), Logged(table, f, storeOk);
      HandlingConserves(table, f, storeOk, k);
      CountByConcat(p.kept, p.todo, HasKey(k));
      CountByConcat(p.kept, rest + a, HasKey(k));
      CountByConcat(rest, a, HasKey(k));
      SumByConcat(p.kept, p.todo, RetriesOf(k));
      SumByConcat(p.kept, rest + a, RetriesOf(k));
      SumByConcat(rest, a, RetriesOf(k));
      SumByConcat(p.log, l, Gone(k));
      SumByConcat(p.log, l, GoneRetries(k));
    } else {
      assert p.kept + p.todo == (p.kept + [f]) + rest;
    }
  }

  lemma {:induction false} PassConserves(p: Pass, table: map<string, UploadItem>, env: Env, k: ItemKey)
    requires ItemsOk(p.todo) && TableOk(table)
    ensures var q := RunPass(p, table, env);
            && Items(q.kept + q.todo, q.log, k) == Items(p.kept + p.todo, p.log, k)
            && Retries(q.kept + q.todo, q.log, k) == Retries(p.kept + p.todo, p.log, k)
    decreases if p.attempts <= MAX_CONCURRENT_UPLOADS then MAX_CONCURRENT_UPLOADS - p.attempts else 0, |p.todo|
  {
    if Finished(p, env) {
    } else {
      StepConserves(p, table, env, k);
      PassConserves(PassStep(p, table, env), table, env, k);
    }
  }

  lemma {:induction false} GoneIs(log: seq<LogEntry>, k: ItemKey)
    ensures SumBy(log, Gone(k))
         == CountBy(log, IsStored(k)) + CountBy(log, IsDropped(k)) - CountBy(log, IsInitQueued(k))
  {
    if log == [] {
    } else {
      GoneIs(log[1..], k);
    }
  }

  function StoredRetries(k: ItemKey): LogEntry -> int {
    (x: LogEntry) => if x.Stored? && KeyOf(x.item) == k then x.item.retried else 0
  }

  function DroppedRetries(k: ItemKey): LogEntry -> int {
    (x: LogEntry) => if x.Dropped? && KeyOf(x.item) == k then x.item.retried else 0
  }

  function InitRetries(k: ItemKey): LogEntry -> int {
    (x: LogEntry) => if x.InitQueued? && KeyOf(x.item) == k then x.item.retried else 0
  }

  lemma {:induction false} GoneRetriesIs(log: seq<LogEntry>, k: ItemKey)
    ensures SumBy(log, GoneRetries(k))
         == SumBy(log, StoredRetries(k)) + SumBy(log, DroppedRetries(k))
            - SumBy(log, InitRetries(k)) - CountBy(log, IsFailed(k))
  {
    if log == [] {
    } else {
      GoneRetriesIs(log[1..], k);
    }
  }

  /**
    In one pass, for every file: the items it had and those queued for it are stored, dropped or
    still listed, and the retries left over are those it came with plus one for every failure.
   */
  lemma OnePassConserves(s: Uploads, env: Env, k: ItemKey)
    requires Valid(s) && s.log == []
    ensures var s' := DoPass(s, env);
            && CountBy(s.list, HasKey(k)) + CountBy(s'.log, IsInitQueued(k))
               == CountBy(s'.log, IsStored(k)) + CountBy(s'.log, IsDropped(k)) + CountBy(s'.list, HasKey(k))
            && SumBy(s.list, RetriesOf(k)) + CountBy(s'.log, IsFailed(k)) + SumBy(s'.log, InitRetries(k))
               == SumBy(s'.log, StoredRetries(k)) + SumBy(s'.log, DroppedRetries(k)) + SumBy(s'.list, RetriesOf(k))
  {
    PassConserves(StartPass(s), s.table, env, k);
    assert [] + s.list == s.list;
    GoneIs(DoPass(s, env).log, k);
    GoneRetriesIs(DoPass(s, env).log, k);
  }

  // ----- Limits -----

  function IsAttempt(): LogEntry -> bool {
    (x: LogEntry) => x.Stored? || x.Failed?
  }

  lemma {:induction false} AttemptLimit(p: Pass, table: map<string, UploadItem>, env: Env)
    requires ItemsOk(p.todo) && TableOk(table) && p.attempts <= MAX_CONCURRENT_UPLOADS
    ensures var q := RunPass(p, table, env);
            && q.attempts <= MAX_CONCURRENT_UPLOADS
            && CountBy(q.log, IsAttempt()) - CountBy(p.log, IsAttempt()) == q.attempts - p.attempts
            && (q.todo != [] ==> q.attempts == MAX_CONCURRENT_UPLOADS)
    decreases MAX_CONCURRENT_UPLOADS - p.attempts, |p.todo|
  {
    if Finished(p, env) {
    } else {
      if Ready(p.todo[0], env.now(p.visits)) {
        StepOnReady(p, table, env);
        var l := Logged(table, p.todo[0], env.stores(p.attempts));
        CountByConcat(p.log, l, IsAttempt());
        AttemptsLogged(table, p.todo[0], env.stores(p.attempts));
      }
      AttemptLimit(PassStep(p, table, env), table, env);
    }
  }

  lemma AttemptsLogged(table: map<string, UploadItem>, f: UploadItem, storeOk: bool)
    requires Sliceable(f.path)
    ensures CountBy(Logged(table, f, storeOk), IsAttempt()) == if f.retried < MAX_UPLOAD_RETRIES then 1 else 0
  {
    if f.retried < MAX_UPLOAD_RETRIES && storeOk && InitFor(table, f.path) != [] {
      CountByConcat([Stored(f)], [InitQueued(InitFor(table, f.path)[0])], IsAttempt());
    }
  }

  /** A pass makes at most five upload attempts, and stops early only after five. */
  lemma OnePassAttempts(s: Uploads, env: Env)
    requires Valid(s) && s.log == []
    ensures CountBy(DoPass(s, env).log, IsAttempt()) <= 5
    ensures RunPass(StartPass(s), s.table, env).todo != [] ==> CountBy(DoPass(s, env).log, IsAttempt()) == 5
  {
    AttemptLimit(StartPass(s), s.table, env);
  }

  // ----- Order -----

  function NotReadyBy(t: int): UploadItem -> bool {
    (it: UploadItem) => !Ready(it, t)
  }

  /** The init segments queued so far, in order. */
  function InitsQueued(log: seq<LogEntry>): seq<UploadItem> {
    if log == [] then []
    else InitsQueued(log[..|log| - 1]) + (if log[|log| - 1].InitQueued? then [log[|log| - 1].item] else [])
  }

  lemma {:induction false} InitsQueuedConcat(a: seq<LogEntry>, b: seq<LogEntry>)
    ensures InitsQueued(a + b) == InitsQueued(a) + InitsQueued(b)
    decreases |b|
  {
    if b == [] {
      assert a + b == a;
    } else {
      assert (a + b)[..|a + b| - 1] == a + b[..|b| - 1];
      InitsQueuedConcat(a, b[..|b| - 1]);
    }
  }

  /** The listed items that will not be ready by time t, and the queued init segments of which that holds. */
  function Waiting(p: Pass, t: int): seq<UploadItem> {
    Filter(p.kept + p.todo, NotReadyBy(t))
  }

  function WaitingInits(log: seq<LogEntry>, t: int): seq<UploadItem> {
    Filter(InitsQueued(log), NotReadyBy(t))
  }

  function StepLog(p: Pass, table: map<string, UploadItem>, env: Env): seq<LogEntry>
    requires !Finished(p, env) && ItemsOk(p.todo)
  {
    if Ready(p.todo[0], env.now(p.visits)) then Logged(table, p.todo[0], env.stores(p.attempts)) else []
  }

  /** Among items that are not ready at the end of the pass, a step only appends init segments. */
  lemma StepKeepsOrder(p: Pass, table: map<string, UploadItem>, env: Env, t: int)
    requires !Finished(p, env) && ItemsOk(p.todo) && env.now(p.visits) <= t
    ensures var q := PassStep(p, table, env);
            && q.log == p.log + StepLog(p, table, env)
            && Waiting(q, t) == Waiting(p, t) + WaitingInits(StepLog(p, table, env), t)
  {
    var f, rest := p.todo[0], p.todo[1..];
    if Ready(f, env.now(p.visits)) {
      StepOnReady(p, table, env);
      var a := Appended(table, f, env.stores(p.attempts));
      assert p.todo == [f] + rest;
      FilterReplaces(p.kept, f, rest, a, NotReadyBy(t));
      HandlingKeepsOrder(table, f, env.stores(p.attempts), t);
    } else {
      StepOnUnready(p, table, env);
      assert p.kept + p.todo == (p.kept + [f]) + rest;
    }
  }

  lemma FilterSkips<T>(f: T, rest: seq<T>, p: T -> bool)
    requires !p(f)
    ensures Filter([f] + rest, p) == Filter(rest, p)
  {
    assert ([f] + rest)[1..] == rest;
  }

  lemma FilterReplaces<T>(kept: seq<T>, f: T, rest: seq<T>, added: seq<T>, p: T -> bool)
    requires !p(f)
    ensures Filter(kept + (rest + added), p) == Filter(kept + ([f] + rest), p) + Filter(added, p)
  {
    FilterSkips(f, rest, p);
    FilterConcat(kept, rest + added, p);
    FilterConcat(rest, added, p);
    FilterConcat(kept, [f] + rest, p);
    ConcatAssociates(Filter(kept, p), Filter(rest, p), Filter(added, p));
  }

  lemma HandlingKeepsOrder(table: map<string, UploadItem>, f: UploadItem, storeOk: bool, t: int)
    requires Sliceable(f.path) && Ready(f, t)
    ensures Filter(Appended(table, f, storeOk), NotReadyBy(t)) == WaitingInits(Logged(table, f, storeOk), t)
  {
    var a, l := Appended(table, f, storeOk), Logged(table, f, storeOk);
    assert l[..0] == [] && InitsQueued(l[..1]) == [];
    if |l| == 2 {
      assert InitsQueued(l) == [l[1].item] == a;
    } else {
      assert l[..1] == l;
      assert a == [] || (|a| == 1 && Ready(a[0], t) && a[1..] == []);
    }
  }

  lemma {:induction false} PassKeepsOrder(p: Pass, table: map<string, UploadItem>, env: Env, t: int)
    returns (l: seq<LogEntry>)
    requires ItemsOk(p.todo) && TableOk(table) && forall v :: env.now(v) <= t
    ensures var q := RunPass(p, table, env); q.log == p.log + l && Waiting(q, t) == Waiting(p, t) + WaitingInits(l, t)
    decreases if p.attempts <= MAX_CONCURRENT_UPLOADS then MAX_CONCURRENT_UPLOADS - p.attempts else 0, |p.todo|
  {
    if Finished(p, env) {
      l := [];
    } else {
      StepKeepsOrder(p, table, env, t);
      var l1 := StepLog(p, table, env);
      var l2 := PassKeepsOrder(PassStep(p, table, env), table, env, t);
      l := l1 + l2;
      WaitingInitsConcat(l1, l2, t);
      ConcatAssociates(p.log, l1, l2);
      ConcatAssociates(Waiting(p, t), WaitingInits(l1, t), WaitingInits(l2, t));
    }
  }

  lemma WaitingInitsConcat(a: seq<LogEntry>, b: seq<LogEntry>, t: int)
    ensures WaitingInits(a + b, t) == WaitingInits(a, t) + WaitingInits(b, t)
  {
    InitsQueuedConcat(a, b);
    FilterConcat(InitsQueued(a), InitsQueued(b), NotReadyBy(t));
  }

  /** Items that are not ready by the end of a pass stay listed in their order, followed by new init segments. */
  lemma OnePassKeepsOrder(s: Uploads, env: Env, t: int)
    requires Valid(s) && s.log == [] && forall v :: env.now(v) <= t
    ensures var s' := DoPass(s, env);
            Filter(s'.list, NotReadyBy(t)) == Filter(s.list, NotReadyBy(t)) + Filter(InitsQueued(s'.log), NotReadyBy(t))
  {
    var l := PassKeepsOrder(StartPass(s), s.table, env, t);
    assert [] + s.list == s.list;
    assert [] + l == l;
  }

  // ----- Invariants of every step -----

  /** By its name, a finished first segment: of the packager, of ffmpeg, or of the detector. */
  predicate NamedFirst(path: string) {
    && (Contains(path, ".ts") || Contains(path, ".m4s")) && !Contains(path, ".tmp")
    && (Contains(path, "seg_00000.") || Contains(path, "seg_1.") || Contains(path, "segment_1."))
  }

  /** An earlier entry stored the first data segment of the same rendition. */
  ghost predicate Earned(log: seq<LogEntry>, path: string)
    requires Sliceable(path)
  {
    exists n | 0 <= n < |log| ::
      && log[n].Stored? && Sliceable(log[n].item.path) && NamedFirst(log[n].item.path)
      && RenditionForUpload(log[n].item.path) == RenditionForUpload(path)
  }

  /** An item to be uploaded has retries left, and if it is an init segment its data came first. */
  ghost predicate ItemFits(it: UploadItem, log: seq<LogEntry>) {
    && Sliceable(it.path) && it.retried <= MAX_UPLOAD_RETRIES
    && (IsFmp4InitSegment(it.path) ==> Earned(log, it.path))
  }

  ghost predicate ItemsFit(items: seq<UploadItem>, log: seq<LogEntry>) {
    forall i | 0 <= i < |items| :: ItemFits(items[i], log)
  }

  /** An attempted item has retries left, a dropped one has none, and every item fitted when it was handled. */
  ghost predicate EntryFits(x: LogEntry, before: seq<LogEntry>) {
    && ItemFits(x.item, before)
    && (x.Stored? || x.Failed? ==> x.item.retried < MAX_UPLOAD_RETRIES)
    && (x.Dropped? ==> x.item.retried == MAX_UPLOAD_RETRIES)
    && (x.InitQueued? ==> x.item.retried == 0)
  }

  ghost predicate LogFits(log: seq<LogEntry>) {
    forall n | 0 <= n < |log| :: EntryFits(log[n], log[..n])
  }

  /** Waiting init segments are new, and kept under the rendition they are uploaded to. */
  ghost predicate TableFits(table: map<string, UploadItem>) {
    forall r | r in table ::
      && Sliceable(table[r].path) && IsFmp4InitSegment(table[r].path)
      && table[r].retried == 0 && RenditionForUpload(table[r].path) == r
  }

  lemma ItemFitsLater(it: UploadItem, log: seq<LogEntry>, more: seq<LogEntry>)
    requires ItemFits(it, log)
    ensures ItemFits(it, log + more)
  {
    if IsFmp4InitSegment(it.path) {
      var n :| 0 <= n < |log| && log[n].Stored? && Sliceable(log[n].item.path) && NamedFirst(log[n].item.path)
               && RenditionForUpload(log[n].item.path) == RenditionForUpload(it.path);
      assert (log + more)[n] == log[n];
    }
  }

  lemma LogFitsPush(log: seq<LogEntry>, x: LogEntry)
    requires LogFits(log) && EntryFits(x, log)
    ensures LogFits(log + [x])
  {
    forall n | 0 <= n < |log + [x]|
      ensures EntryFits((log + [x])[n], (log + [x])[..n])
    {
      assert (log + [x])[..n] == log[..n];
      assert log[..|log|] == log;
    }
  }

  lemma QueuedInitFits(log: seq<LogEntry>, table: map<string, UploadItem>, f: UploadItem)
    requires ItemFits(f, log) && TableFits(table) && InitFor(table, f.path) != []
    ensures ItemFits(InitFor(table, f.path)[0], log + [Stored(f)])
  {
    assert (log + [Stored(f)])[|log|] == Stored(f);
  }

  lemma StoredWithInitFits(log: seq<LogEntry>, table: map<string, UploadItem>, f: UploadItem)
    requires LogFits(log + [Stored(f)]) && ItemFits(f, log) && TableFits(table) && InitFor(table, f.path) != []
    ensures var it := InitFor(table, f.path)[0];
            LogFits((log + [Stored(f)]) + [InitQueued(it)]) && ItemFits(it, (log + [Stored(f)]) + [InitQueued(it)])
  {
    var it, stored := InitFor(table, f.path)[0], log + [Stored(f)];
    QueuedInitFits(log, table, f);
    LogFitsPush(stored, InitQueued(it));
    ItemFitsLater(it, stored, [InitQueued(it)]);
  }

  lemma HandlingFits(log: seq<LogEntry>, table: map<string, UploadItem>, f: UploadItem, storeOk: bool)
    requires LogFits(log) && ItemFits(f, log) && TableFits(table)
    ensures var l := Logged(table, f, storeOk);
            LogFits(log + l) && ItemsFit(Appended(table, f, storeOk), log + l)
  {
    var l := Logged(table, f, storeOk);
    LogFitsPush(log, l[0]);
    if f.retried >= MAX_UPLOAD_RETRIES {
      assert l == [Dropped(f)];
    } else if !storeOk {
      assert l == [Failed(f)];
      ItemFitsLater(f, log, l);
    } else if InitFor(table, f.path) == [] {
      assert l == [Stored(f)];
    } else {
      StoredWithInitFits(log, table, f);
      ConcatAssociates(log, [Stored(f)], [InitQueued(InitFor(table, f.path)[0])]);
      assert l == [Stored(f)] + [InitQueued(InitFor(table, f.path)[0])];
    }
  }

  lemma ItemsFitLater(items: seq<UploadItem>, log: seq<LogEntry>, more: seq<LogEntry>)
    requires ItemsFit(items, log)
    ensures ItemsFit(items, log + more)
  {
    forall i | 0 <= i < |items| ensures ItemFits(items[i], log + more) {
      ItemFitsLater(items[i], log, more);
    }
  }

  ghost predicate PassFits(p: Pass) {
    LogFits(p.log) && ItemsFit(p.kept, p.log) && ItemsFit(p.todo, p.log)
  }

  lemma StepFits(p: Pass, table: map<string, UploadItem>, env: Env)
    requires !Finished(p, env) && PassFits(p) && TableFits(table)
    ensures PassFits(PassStep(p, table, env))
  {
    assert ItemFits(p.todo[0], p.log);
    if Ready(p.todo[0], env.now(p.visits)) {
      StepOnReady(p, table, env);
      var storeOk := env.stores(p.attempts);
      HandlingFits(p.log, table, p.todo[0], storeOk);
      ItemsFitLater(p.kept, p.log, Logged(table, p.todo[0], storeOk));
      ItemsFitLater(p.todo[1..], p.log, Logged(table, p.todo[0], storeOk));
    } else {
      StepOnUnready(p, table, env);
    }
  }

  lemma {:induction false} PassKeepsFit(p: Pass, table: map<string, UploadItem>, env: Env)
    requires ItemsOk(p.todo) && TableOk(table) && PassFits(p) && TableFits(table)
    ensures PassFits(RunPass(p, table, env))
    decreases if p.attempts <= MAX_CONCURRENT_UPLOADS then MAX_CONCURRENT_UPLOADS - p.attempts else 0, |p.todo|
  {
    if Finished(p, env) {
    } else {
      StepFits(p, table, env);
      PassKeepsFit(PassStep(p, table, env), table, env);
    }
  }

  // ----- Runs of adds and passes -----

  datatype Op = OpAdd(path: string, now: int, remote: string) | OpPass(env: Env)

  ghost predicate Fits(s: Uploads) {
    ItemsFit(s.list, s.log) && LogFits(s.log) && TableFits(s.table)
  }

  predicate Allowed(op: Op) {
    op.OpAdd? ==> Sliceable(op.path)
  }

  function Do(s: Uploads, op: Op): Uploads
    requires ItemsOk(s.list) && TableOk(s.table)
  {
    match op
    case OpAdd(path, now, remote) => Add(s, path, now, remote)
    case OpPass(env) => DoPass(s, env)
  }

  lemma DoFits(s: Uploads, op: Op)
    requires Fits(s) && Allowed(op)
    ensures Valid(s) && Fits(Do(s, op))
  {
    assert Valid(s);
    match op
    case OpAdd(path, now, remote) =>
      RenditionsAgree(path);
    case OpPass(env) =>
      PassKeepsFit(StartPass(s), s.table, env);
  }

  ghost predicate Runs(s: Uploads, ops: seq<Op>, s': Uploads)
    decreases |ops|
  {
    if ops == [] then s' == s else Valid(s) && Allowed(ops[0]) && Runs(Do(s, ops[0]), ops[1..], s')
  }

  lemma {:induction false} FitsAlways(s: Uploads, ops: seq<Op>, s': Uploads)
    requires Fits(s) && Runs(s, ops, s')
    ensures Fits(s')
    decreases |ops|
  {
    if ops == [] {
    } else {
      DoFits(s, ops[0]);
      FitsAlways(Do(s, ops[0]), ops[1..], s');
    }
  }

  /**
    In every run an fMP4 init segment is on the upload list, or was tried, only after the first
    data segment uploaded to the same directory was stored.
   */
  lemma InitAfterData(ops: seq<Op>, s: Uploads)
    requires Runs(Uploads([], map[], []), ops, s)
    ensures forall i | 0 <= i < |s.list| && Contains(s.list[i].path, ".mp4") && !Contains(s.list[i].path, ".tmp") ::
              Sliceable(s.list[i].path) && Earned(s.log, s.list[i].path)
    ensures forall n | 0 <= n < |s.log| && Contains(s.log[n].item.path, ".mp4")
                       && !Contains(s.log[n].item.path, ".tmp") ::
              Sliceable(s.log[n].item.path) && Earned(s.log[..n], s.log[n].item.path)
  {
    FitsAlways(Uploads([], map[], []), ops, s);
    forall i | 0 <= i < |s.list| && IsFmp4InitSegment(s.list[i].path)
      ensures Sliceable(s.list[i].path) && Earned(s.log, s.list[i].path)
    {
      assert ItemFits(s.list[i], s.log);
    }
    forall n | 0 <= n < |s.log| && IsFmp4InitSegment(s.log[n].item.path)
      ensures Sliceable(s.log[n].item.path) && Earned(s.log[..n], s.log[n].item.path)
    {
      assert EntryFits(s.log[n], s.log[..n]);
    }
  }

  // ----- First data segments are followed by their init segments -----

  /** The log entry at n stores a first segment of the rendition. */
  ghost predicate StoresFirst(log: seq<LogEntry>, n: nat, rendition: string) {
    n < |log| && log[n].Stored? && FirstOfRendition(log[n].item.path) && RenditionOfPath(log[n].item.path) == rendition
  }

  /** The next entry says that an fMP4 init segment of the rendition was put on the list. */
  predicate QueuesNext(log: seq<LogEntry>, n: nat, rendition: string) {
    && n + 1 < |log| && log[n + 1].InitQueued?
    && Contains(log[n + 1].item.path, ".mp4") && !Contains(log[n + 1].item.path, ".tmp")
    && RenditionOfPath(log[n + 1].item.path) == rendition
  }

  ghost predicate Followed(log: seq<LogEntry>, from: nat, rendition: string) {
    forall n: nat | from <= n < |log| && StoresFirst(log, n, rendition) :: QueuesNext(log, n, rendition)
  }

  /** Init segments wait under the rendition of their own path. */
  predicate TableHolds(table: map<string, UploadItem>) {
    forall r | r in table ::
      RenditionOfPath(table[r].path) == r && Contains(table[r].path, ".mp4") && !Contains(table[r].path, ".tmp")
  }

  lemma HandlingFollowed(log: seq<LogEntry>, table: map<string, UploadItem>, f: UploadItem, storeOk: bool,
                         from: nat, r: string)
    requires Sliceable(f.path) && TableHolds(table) && r != "" && r in table && Followed(log, from, r)
    ensures Followed(log + Logged(table, f, storeOk), from, r)
  {
    var l, at := Logged(table, f, storeOk), |log|;
    var log' := log + l;
    if f.retried < MAX_UPLOAD_RETRIES && storeOk && FirstOfRendition(f.path) && RenditionOfPath(f.path) == r {
      FirstIsRecognised(f.path);
      RenditionsAgree(f.path);
      assert l == [Stored(f), InitQueued(table[r])];
      assert log'[at + 1] == InitQueued(table[r]);
    }
    forall n: nat | from <= n < |log'| && StoresFirst(log', n, r)
      ensures QueuesNext(log', n, r)
    {
      if n < at {
        assert StoresFirst(log, n, r) && log'[n + 1] == log[n + 1];
      } else {
        assert log'[n] == l[n - at] && n == at;
      }
    }
  }

  lemma {:induction false} PassFollowed(p: Pass, table: map<string, UploadItem>, env: Env, from: nat, r: string)
    requires ItemsOk(p.todo) && TableOk(table) && TableHolds(table) && r != "" && r in table && Followed(p.log, from, r)
    ensures Followed(RunPass(p, table, env).log, from, r)
    decreases if p.attempts <= MAX_CONCURRENT_UPLOADS then MAX_CONCURRENT_UPLOADS - p.attempts else 0, |p.todo|
  {
    if Finished(p, env) {
    } else {
      StepItemsOk(p, table, env);
      if Ready(p.todo[0], env.now(p.visits)) {
        StepOnReady(p, table, env);
        HandlingFollowed(p.log, table, p.todo[0], env.stores(p.attempts), from, r);
      } else {
        StepOnUnready(p, table, env);
      }
      PassFollowed(PassStep(p, table, env), table, env, from, r);
    }
  }

  lemma AddHolds(s: Uploads, path: string, now: int, remote: string)
    requires TableHolds(s.table)
    ensures var s' := Add(s, path, now, remote);
            TableHolds(s'.table) && s.table.Keys <= s'.table.Keys && s'.log == s.log
  {
  }

  lemma {:induction false} RunFollowed(s: Uploads, ops: seq<Op>, s': Uploads, from: nat, r: string)
    requires Runs(s, ops, s') && TableHolds(s.table) && r != "" && r in s.table && Followed(s.log, from, r)
    ensures Followed(s'.log, from, r)
    decreases |ops|
  {
    if ops == [] {
    } else {
      match ops[0] {
        case OpAdd(path, now, remote) => AddHolds(s, path, now, remote);
        case OpPass(env) => PassFollowed(StartPass(s), s.table, env, from, r);
      }
      RunFollowed(Do(s, ops[0]), ops[1..], s', from, r);
    }
  }

  lemma {:induction false} TableHoldsAlways(s: Uploads, ops: seq<Op>, s': Uploads)
    requires Runs(s, ops, s') && TableHolds(s.table)
    ensures TableHolds(s'.table)
    decreases |ops|
  {
    if ops == [] {
    } else {
      match ops[0] {
        case OpAdd(path, now, remote) => AddHolds(s, path, now, remote);
        case OpPass(_) =>
      }
      TableHoldsAlways(Do(s, ops[0]), ops[1..], s');
    }
  }

  /**
    In every run, once an init segment of a rendition has been added, each first data segment of
    the rendition that is stored is followed in the log by an init segment of it being queued.
   */
  lemma InitFollowsData(before: seq<Op>, mid: Uploads, path: string, now: int, remote: string,
                        after: seq<Op>, s: Uploads)
    requires Runs(Uploads([], map[], []), before, mid) && Valid(mid)
    requires Contains(path, ".mp4") && !Contains(path, ".tmp") && RenditionOfPath(path) != ""
    requires Runs(Do(mid, OpAdd(path, now, remote)), after, s)
    ensures forall n: nat | |mid.log| <= n < |s.log| && StoresFirst(s.log, n, RenditionOfPath(path)) ::
              QueuesNext(s.log, n, RenditionOfPath(path))
  {
    TableHoldsAlways(Uploads([], map[], []), before, mid);
    RunFollowed(Do(mid, OpAdd(path, now, remote)), after, s, |mid.log|, RenditionOfPath(path));
  }

  // ----- One item through one pass -----

  /** Storing the file would put an init segment with key k on the list. */
  predicate Queues(table: map<string, UploadItem>, path: string, k: ItemKey) {
    Sliceable(path) && InitFor(table, path) != [] && KeyOf(InitFor(table, path)[0]) == k
  }

  predicate NoneQueues(items: seq<UploadItem>, table: map<string, UploadItem>, k: ItemKey) {
    forall i | 0 <= i < |items| :: !Queues(table, items[i].path, k)
  }

  predicate TableQueuesNone(table: map<string, UploadItem>, k: ItemKey) {
    forall r | r in table :: !Queues(table, table[r].path, k)
  }

  lemma {:induction false} NothingQueued(p: Pass, table: map<string, UploadItem>, env: Env, k: ItemKey)
    requires ItemsOk(p.todo) && TableOk(table) && NoneQueues(p.todo, table, k) && TableQueuesNone(table, k)
    ensures CountBy(RunPass(p, table, env).log, IsInitQueued(k)) == CountBy(p.log, IsInitQueued(k))
    decreases if p.attempts <= MAX_CONCURRENT_UPLOADS then MAX_CONCURRENT_UPLOADS - p.attempts else 0, |p.todo|
  {
    if Finished(p, env) {
    } else {
      assert !Queues(table, p.todo[0].path, k);
      if Ready(p.todo[0], env.now(p.visits)) {
        StepOnReady(p, table, env);
        var storeOk := env.stores(p.attempts);
        CountByConcat(p.log, Logged(table, p.todo[0], storeOk), IsInitQueued(k));
        OtherInits(table, p.todo[0], storeOk, k);
        assert NoneQueues(Appended(table, p.todo[0], storeOk), table, k);
      }
      NothingQueued(PassStep(p, table, env), table, env, k);
    }
  }

  lemma OtherInits(table: map<string, UploadItem>, f: UploadItem, storeOk: bool, k: ItemKey)
    requires Sliceable(f.path) && !Queues(table, f.path, k)
    ensures CountBy(Logged(table, f, storeOk), IsInitQueued(k)) == 0
  {
    var l := Logged(table, f, storeOk);
    if |l| == 2 {
      assert l == [l[0]] + [l[1]];
      CountByConcat([l[0]], [l[1]], IsInitQueued(k));
    }
  }

  lemma {:induction false} RetriesOfOne(items: seq<UploadItem>, k: ItemKey, i: nat)
    requires i < |items| && KeyOf(items[i]) == k && CountBy(items, HasKey(k)) == 1
    ensures SumBy(items, RetriesOf(k)) == items[i].retried
  {
    if i == 0 {
      RetriesOfNone(items[1..], k);
    } else {
      assert items[1..][i - 1] == items[i];
      CountByZero(items[1..], HasKey(k));
      RetriesOfOne(items[1..], k, i - 1);
    }
  }

  lemma {:induction false} RetriesOfNone(items: seq<UploadItem>, k: ItemKey)
    requires CountBy(items, HasKey(k)) == 0
    ensures SumBy(items, RetriesOf(k)) == 0
  {
    if items == [] {
    } else {
      RetriesOfNone(items[1..], k);
    }
  }

  lemma {:induction false} NoneStored(log: seq<LogEntry>, k: ItemKey)
    ensures CountBy(log, IsStored(k)) == 0 ==> SumBy(log, StoredRetries(k)) == 0
    ensures CountBy(log, IsDropped(k)) == 0 ==> SumBy(log, DroppedRetries(k)) == 0
  {
    if log == [] {
    } else {
      NoneStored(log[1..], k);
    }
  }

  ghost predicate AtLimit(log: seq<LogEntry>) {
    forall n | 0 <= n < |log| ::
      && (log[n].Stored? ==> log[n].item.retried < MAX_UPLOAD_RETRIES)
      && (log[n].Dropped? ==> log[n].item.retried >= MAX_UPLOAD_RETRIES)
  }

  lemma {:induction false} PassAtLimit(p: Pass, table: map<string, UploadItem>, env: Env)
    requires ItemsOk(p.todo) && TableOk(table) && AtLimit(p.log)
    ensures AtLimit(RunPass(p, table, env).log)
    decreases if p.attempts <= MAX_CONCURRENT_UPLOADS then MAX_CONCURRENT_UPLOADS - p.attempts else 0, |p.todo|
  {
    if Finished(p, env) {
    } else {
      PassAtLimit(PassStep(p, table, env), table, env);
    }
  }

  lemma {:induction false} LimitSums(log: seq<LogEntry>, k: ItemKey)
    requires AtLimit(log)
    ensures SumBy(log, StoredRetries(k)) <= 2 * CountBy(log, IsStored(k))
    ensures SumBy(log, DroppedRetries(k)) >= 3 * CountBy(log, IsDropped(k))
  {
    if log == [] {
    } else {
      assert forall n | 0 <= n < |log[1..]| :: log[1..][n] == log[n + 1];
      LimitSums(log[1..], k);
    }
  }

  lemma {:induction false} NoInitNoRetries(log: seq<LogEntry>, k: ItemKey)
    requires CountBy(log, IsInitQueued(k)) == 0
    ensures SumBy(log, InitRetries(k)) == 0
  {
    if log == [] {
    } else {
      NoInitNoRetries(log[1..], k);
    }
  }

  /**
    What one pass does to a file listed once, given that j is its place in the new list if it has
    one: it is stored with retries left, or dropped with none left, or listed once with its retry
    count raised by exactly its failures.
   */
  ghost predicate OneOutcome(it: UploadItem, s': Uploads, j: nat) {
    var k, retried := KeyOf(it), it.retried + CountBy(s'.log, IsFailed(KeyOf(it)));
    && CountBy(s'.log, IsStored(k)) + CountBy(s'.log, IsDropped(k)) + CountBy(s'.list, HasKey(k)) == 1
    && (CountBy(s'.log, IsStored(k)) == 1 ==> retried < 3)
    && (CountBy(s'.log, IsDropped(k)) == 1 ==> retried >= 3)
    && (CountBy(s'.list, HasKey(k)) == 1 ==> j < |s'.list| && KeyOf(s'.list[j]) == k && s'.list[j].retried == retried)
  }

  /** An item listed once has one outcome, unless the pass itself queues an init segment of the same key. */
  lemma ItemOutcome(s: Uploads, env: Env, i: nat) returns (j: nat)
    requires Valid(s) && s.log == [] && i < |s.list|
    requires CountBy(s.list, HasKey(KeyOf(s.list[i]))) == 1
    requires CountBy(DoPass(s, env).log, IsInitQueued(KeyOf(s.list[i]))) == 0
    ensures OneOutcome(s.list[i], DoPass(s, env), j)
  {
    var s', k := DoPass(s, env), KeyOf(s.list[i]);
    OnePassConserves(s, env, k);
    NoInitNoRetries(s'.log, k);
    RetriesOfOne(s.list, k, i);
    NoneStored(s'.log, k);
    PassAtLimit(StartPass(s), s.table, env);
    LimitSums(s'.log, k);
    if CountBy(s'.list, HasKey(k)) == 0 {
      RetriesOfNone(s'.list, k);
    }
    j := 0;
    if CountBy(s'.list, HasKey(k)) == 1 {
      CountByZero(s'.list, HasKey(k));
      j :| 0 <= j < |s'.list| && HasKey(k)(s'.list[j]);
      RetriesOfOne(s'.list, k, j);
    }
  }

  /** So does an init segment on the list when nothing listed or waiting would queue it again. */
  lemma QueuedInitOutcome(s: Uploads, env: Env, i: nat) returns (j: nat)
    requires Valid(s) && s.log == [] && i < |s.list|
    requires CountBy(s.list, HasKey(KeyOf(s.list[i]))) == 1
    requires NoneQueues(s.list, s.table, KeyOf(s.list[i])) && TableQueuesNone(s.table, KeyOf(s.list[i]))
    ensures OneOutcome(s.list[i], DoPass(s, env), j)
  {
    NothingQueued(StartPass(s), s.table, env, KeyOf(s.list[i]));
    j := ItemOutcome(s, env, i);
  }

  /** So does every other file. */
  lemma FileOutcome(s: Uploads, env: Env, i: nat) returns (j: nat)
    requires Valid(s) && s.log == [] && i < |s.list|
    requires CountBy(s.list, HasKey(KeyOf(s.list[i]))) == 1
    requires forall r | r in s.table :: KeyOf(s.table[r]) != KeyOf(s.list[i])
    ensures OneOutcome(s.list[i], DoPass(s, env), j)
  {
    j := QueuedInitOutcome(s, env, i);
  }

  // ----- Attempts over a whole run -----

  predicate Adds(op: Op, k: ItemKey) {
    op.OpAdd? && !IsFmp4InitSegment(op.path) && ItemKey(op.path, op.now, op.remote) == k
  }

  /** How often the file was put on the list from outside. */
  function Added(ops: seq<Op>, k: ItemKey): nat {
    if ops == [] then 0
    else (if Adds(ops[0], k) then 1 else 0) + Added(ops[1..], k)
  }

  lemma {:induction false} RunConserves(s: Uploads, ops: seq<Op>, s': Uploads, k: ItemKey)
    requires Runs(s, ops, s')
    ensures Items(s'.list, s'.log, k) == Items(s.list, s.log, k) + Added(ops, k)
    ensures Retries(s'.list, s'.log, k) == Retries(s.list, s.log, k)
    decreases |ops|
  {
    if ops == [] {
    } else {
      match ops[0] {
        case OpAdd(path, now, remote) =>
          CountByPush(s.list, NewItem(path, now, remote), HasKey(k));
          SumByPush(s.list, NewItem(path, now, remote), RetriesOf(k));
        case OpPass(env) =>
          PassConserves(StartPass(s), s.table, env, k);
          assert [] + s.list == s.list;
      }
      RunConserves(Do(s, ops[0]), ops[1..], s', k);
    }
  }

  ghost predicate RetryBounds(x: LogEntry) {
    && (x.Stored? ==> x.item.retried < MAX_UPLOAD_RETRIES)
    && (x.Dropped? ==> x.item.retried == MAX_UPLOAD_RETRIES)
    && (x.InitQueued? ==> x.item.retried == 0)
  }

  lemma {:induction false} LogRetriesBounded(log: seq<LogEntry>, k: ItemKey)
    requires forall n | 0 <= n < |log| :: RetryBounds(log[n])
    ensures SumBy(log, GoneRetries(k)) + CountBy(log, IsFailed(k))
         <= 2 * CountBy(log, IsStored(k)) + 3 * CountBy(log, IsDropped(k))
  {
    if log == [] {
    } else {
      assert RetryBounds(log[0]);
      assert forall n | 0 <= n < |log[1..]| :: log[1..][n] == log[n + 1];
      LogRetriesBounded(log[1..], k);
    }
  }

  lemma {:induction false} ListRetriesBounded(list: seq<UploadItem>, k: ItemKey)
    requires forall n | 0 <= n < |list| :: list[n].retried <= MAX_UPLOAD_RETRIES
    ensures SumBy(list, RetriesOf(k)) <= 3 * CountBy(list, HasKey(k))
  {
    if list == [] {
    } else {
      ListRetriesBounded(list[1..], k);
    }
  }

  /** In every run a file is tried at most three times for each time it was put on the list. */
  lemma AttemptsInEveryRun(ops: seq<Op>, s: Uploads, k: ItemKey)
    requires Runs(Uploads([], map[], []), ops, s)
    ensures CountBy(s.log, IsStored(k)) + CountBy(s.log, IsFailed(k))
         <= 3 * (Added(ops, k) + CountBy(s.log, IsInitQueued(k)))
  {
    var s0 := Uploads([], map[], []);
    FitsAlways(s0, ops, s);
    RunConserves(s0, ops, s, k);
    forall n | 0 <= n < |s.log| ensures RetryBounds(s.log[n]) {
      assert EntryFits(s.log[n], s.log[..n]);
    }
    forall n | 0 <= n < |s.list| ensures s.list[n].retried <= MAX_UPLOAD_RETRIES {
      assert ItemFits(s.list[n], s.log);
    }
    LogRetriesBounded(s.log, k);
    ListRetriesBounded(s.list, k);
    GoneIs(s.log, k);
  }
}
