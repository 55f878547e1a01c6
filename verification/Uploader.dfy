/** The transcoder's upload list: files wait, are retried, and init segments follow their first data segment. */
module UploadSpec {
  import opened Paths

  datatype UploadItem = UploadItem(path: string, createdMs: int, retried: nat, remote: string)

  /** What happened to an item, with the item as it was when it happened. */
  datatype LogEntry =
    | Stored(item: UploadItem)
    | Failed(item: UploadItem)
    | Dropped(item: UploadItem)
    | InitQueued(item: UploadItem)

  /** The clock at each visited item of a pass, and whether each upload attempt of the pass succeeds. */
  datatype Env = Env(now: nat -> int, stores: nat -> bool)

  const MAX_UPLOAD_RETRIES := 3
  const MAX_CONCURRENT_UPLOADS := 5
  const STREAM_FILE_WRITE_DELAY_MS := 200

  predicate Ready(it: UploadItem, now: int) {
    now - it.createdMs > STREAM_FILE_WRITE_DELAY_MS
  }

  /** The init segment that becomes uploadable once this file has been stored. */
  function InitFor(table: map<string, UploadItem>, path: string): seq<UploadItem>
    requires Sliceable(path)
  {
    if IsFirstDataSegment(path) && RenditionForUpload(path) in table then [table[RenditionForUpload(path)]] else []
  }

  /** A pass under way: items kept because they were not ready, items not yet visited, and the counters. */
  datatype Pass = Pass(kept: seq<UploadItem>, todo: seq<UploadItem>, attempts: nat, visits: nat, log: seq<LogEntry>)

  predicate ItemsOk(items: seq<UploadItem>) {
    forall i | 0 <= i < |items| :: Sliceable(items[i].path)
  }

  predicate TableOk(table: map<string, UploadItem>) {
    forall r | r in table :: Sliceable(table[r].path)
  }

  predicate Finished(p: Pass, env: Env) {
    p.todo == [] || (Ready(p.todo[0], env.now(p.visits)) && p.attempts >= MAX_CONCURRENT_UPLOADS)
  }

  /** What handling a ready item puts at the end of the list. */
  function Appended(table: map<string, UploadItem>, f: UploadItem, storeOk: bool): seq<UploadItem>
    requires Sliceable(f.path)
  {
    if f.retried >= MAX_UPLOAD_RETRIES then []
    else if storeOk then InitFor(table, f.path)
    else [f.(retried := f.retried + 1)]
  }

  function Logged(table: map<string, UploadItem>, f: UploadItem, storeOk: bool): seq<LogEntry>
    requires Sliceable(f.path)
  {
    if f.retried >= MAX_UPLOAD_RETRIES then [Dropped(f)]
    else if storeOk then
      [Stored(f)] + (if InitFor(table, f.path) == [] then [] else [InitQueued(InitFor(table, f.path)[0])])
    else [Failed(f)]
  }

  function PassStep(p: Pass, table: map<string, UploadItem>, env: Env): Pass
    requires !Finished(p, env) && ItemsOk(p.todo)
  {
    var f, rest, storeOk := p.todo[0], p.todo[1..], env.stores(p.attempts);
    if Ready(f, env.now(p.visits)) then
      Pass(p.kept, rest + Appended(table, f, storeOk),
           if f.retried < MAX_UPLOAD_RETRIES then p.attempts + 1 else p.attempts,
           p.visits + 1, p.log + Logged(table, f, storeOk))
    else Pass(p.kept + [f], rest, p.attempts, p.visits + 1, p.log)
  }

  lemma StepOnReady(p: Pass, table: map<string, UploadItem>, env: Env)
    requires !Finished(p, env) && ItemsOk(p.todo) && Ready(p.todo[0], env.now(p.visits))
    ensures var f, q, storeOk := p.todo[0], PassStep(p, table, env), env.stores(p.attempts);
            && q.kept == p.kept && q.todo == p.todo[1..] + Appended(table, f, storeOk)
            && q.attempts == (if f.retried < MAX_UPLOAD_RETRIES then p.attempts + 1 else p.attempts)
            && q.visits == p.visits + 1 && q.log == p.log + Logged(table, f, storeOk)
  {
  }

  lemma StepOnUnready(p: Pass, table: map<string, UploadItem>, env: Env)
    requires p.todo != [] && ItemsOk(p.todo) && !Ready(p.todo[0], env.now(p.visits))
    ensures var f, q := p.todo[0], PassStep(p, table, env);
            && q.kept == p.kept + [f] && q.todo == p.todo[1..]
            && q.attempts == p.attempts && q.visits == p.visits + 1 && q.log == p.log
  {
  }

  lemma StepItemsOk(p: Pass, table: map<string, UploadItem>, env: Env)
    requires ItemsOk(p.todo) && TableOk(table)
    ensures !Finished(p, env) ==> ItemsOk(PassStep(p, table, env).todo)
  {
  }

  /** The measure: attempts left, then items left. Only an attempt can add an item. */
  function RunPass(p: Pass, table: map<string, UploadItem>, env: Env): Pass
    requires ItemsOk(p.todo) && TableOk(table)
    decreases if p.attempts <= MAX_CONCURRENT_UPLOADS then MAX_CONCURRENT_UPLOADS - p.attempts else 0, |p.todo|
  {
    if Finished(p, env) then p else RunPass(PassStep(p, table, env), table, env)
  }

  datatype Uploads = Uploads(list: seq<UploadItem>, table: map<string, UploadItem>, log: seq<LogEntry>)

  ghost predicate Valid(s: Uploads) {
    ItemsOk(s.list) && TableOk(s.table)
  }

  function StartPass(s: Uploads): Pass {
    Pass([], s.list, 0, 0, s.log)
  }

  function DoPass(s: Uploads, env: Env): Uploads
    requires ItemsOk(s.list) && TableOk(s.table)
  {
    var p := RunPass(StartPass(s), s.table, env);
    Uploads(p.kept + p.todo, s.table, p.log)
  }

  function NewItem(path: string, now: int, remote: string): UploadItem {
    UploadItem(path, now, 0, remote)
  }

  /** Init segments wait in the table, under their rendition; everything else goes to the list. */
  function Add(s: Uploads, path: string, now: int, remote: string): Uploads {
    if IsFmp4InitSegment(path) then
      if RenditionOfPath(path) == "" then s
      else s.(table := s.table[RenditionOfPath(path) := NewItem(path, now, remote)])
    else s.(list := s.list + [NewItem(path, now, remote)])
  }
}

module UploaderApp {
  import opened Paths
  import opened Strings
  import opened UploadSpec

  class Uploader {
    var uploadList: seq<UploadItem>
    var initSegmentsToUpload: map<string, UploadItem>
    ghost var log: seq<LogEntry>

    constructor ()
      ensures View() == Uploads([], map[], [])
    {
      uploadList, initSegmentsToUpload, log := [], map[], [];
    }

    ghost function View(): Uploads
      reads this
    {
      Uploads(uploadList, initSegmentsToUpload, log)
    }

    method AddToUploadList(path: string, now: int, remote: string)
      modifies this
      ensures View() == Add(old(View()), path, now, remote)
      ensures var it, r := UploadItem(path, now, 0, remote), RenditionOfPath(path);
              if Contains(path, ".mp4") && !Contains(path, ".tmp") then
                && uploadList == old(uploadList)
                && initSegmentsToUpload == if r == "" then old(initSegmentsToUpload)
                                           else old(initSegmentsToUpload)[r := it]
              else uploadList == old(uploadList) + [it] && initSegmentsToUpload == old(initSegmentsToUpload)
    {
      var it := UploadItem(path, now, 0, remote);
      if IsFmp4InitSegment(path) {
        var rendition := RenditionOfPath(path);
        if rendition != "" {
          initSegmentsToUpload := initSegmentsToUpload[rendition := it];
        }
      } else {
        uploadList := uploadList + [it];
      }
    }

    /** storeOk is the outcome of the upload to S3. */
    method UploadOneFile(f: UploadItem, storeOk: bool) returns (ok: bool)
      requires Sliceable(f.path) && f.retried < MAX_UPLOAD_RETRIES
      modifies this`uploadList, this`log
      ensures ok == storeOk
      ensures uploadList == old(uploadList) + if storeOk then Appended(initSegmentsToUpload, f, true) else []
      ensures log == old(log) + Logged(initSegmentsToUpload, f, storeOk)
      ensures !storeOk ==> uploadList == old(uploadList) && log == old(log) + [Failed(f)]
      ensures var r := RenditionOfPath(f.path);
              storeOk && FirstOfRendition(f.path) && r != "" && r in initSegmentsToUpload ==>
                && uploadList == old(uploadList) + [initSegmentsToUpload[r]]
                && log == old(log) + [Stored(f), InitQueued(initSegmentsToUpload[r])]
    {
      RenditionsAgree(f.path);
      if FirstOfRendition(f.path) {
        FirstIsRecognised(f.path);
      }
      if !storeOk {
        log := log + [Failed(f)];
        return false;
      }
      log := log + [Stored(f)];
      if IsMediaDataSegment(f.path)
         && (Contains(f.path, "seg_00000.") || Contains(f.path, "seg_1.") || Contains(f.path, "segment_1.")) {
        var rendition := RenditionForUpload(f.path);
        if rendition !in initSegmentsToUpload {
          return true;
        }
        var item := initSegmentsToUpload[rendition];
        uploadList := uploadList + [item];
        log := log + [InitQueued(item)];
      }
      return true;
    }

    /** The body of the pass for an item that is ready and within the limit. */
    method HandleReady(f: UploadItem, storeOk: bool) returns (attempted: bool)
      requires Sliceable(f.path)
      modifies this`uploadList, this`log
      ensures attempted <==> f.retried < MAX_UPLOAD_RETRIES
      ensures uploadList == old(uploadList) + Appended(initSegmentsToUpload, f, storeOk)
      ensures log == old(log) + Logged(initSegmentsToUpload, f, storeOk)
    {
      attempted := f.retried < MAX_UPLOAD_RETRIES;
      if attempted {
        var ok := UploadOneFile(f, storeOk);
        if !ok {
          uploadList := uploadList + [f.(retried := f.retried + 1)];
        }
      } else {
        log := log + [Dropped(f)];
      }
    }

    /** The item under the cursor is ready, and the attempts of the pass are used up. */
    method LimitReached(e: nat, i: nat, visits: nat, env: Env, ghost p: Pass) returns (limitReached: bool)
      requires uploadList == p.kept + p.todo && e == |p.kept| && p.todo != []
      requires i == p.attempts + 1 && visits == p.visits
      ensures limitReached <==> Finished(p, env)
    {
      assert uploadList[e] == p.todo[0];
      return env.now(visits) - uploadList[e].createdMs > STREAM_FILE_WRITE_DELAY_MS && i > MAX_CONCURRENT_UPLOADS;
    }

    /**
      The loop body of a pass for the item under the cursor, i - 1 attempts having been made.
      remove says that the cursor must take the element out once it has moved past it.
     */
    method VisitItem(e: nat, i: nat, visits: nat, env: Env, ghost p: Pass) returns (i': nat, remove: bool)
      requires ItemsOk(p.todo) && TableOk(initSegmentsToUpload) && !Finished(p, env)
      requires uploadList == p.kept + p.todo && e == |p.kept| && log == p.log
      requires i == p.attempts + 1 && visits == p.visits
      modifies this`uploadList, this`log
      ensures var q := PassStep(p, initSegmentsToUpload, env);
              && uploadList == q.kept + (if remove then [p.todo[0]] else []) + q.todo && log == q.log
              && |q.kept| == (if remove then e else e + 1) && i' == q.attempts + 1
    {
      var f := uploadList[e];
      HeadTail(p.todo);
      if env.now(visits) - f.createdMs > STREAM_FILE_WRITE_DELAY_MS {
        StepOnReady(p, initSegmentsToUpload, env);
        var storeOk := env.stores(i - 1);
        PastCursor(p.kept, f, p.todo[1..], Appended(initSegmentsToUpload, f, storeOk));
        var attempted := HandleReady(f, storeOk);
        i' := if attempted then i + 1 else i;
        remove := true;
      } else {
        StepOnUnready(p, initSegmentsToUpload, env);
        KeptBehindCursor(p.kept, f, p.todo[1..]);
        i' := i;
        remove := false;
      }
    }

    /** Removes the element at prev, unless prev is -1. */
    method DropBehind(prev: int, ghost kept: seq<UploadItem>, ghost gone: seq<UploadItem>, ghost todo: seq<UploadItem>)
      requires uploadList == kept + gone + todo
      requires if prev == -1 then gone == [] else |gone| == 1 && prev == |kept|
      modifies this`uploadList
      ensures uploadList == kept + todo
    {
      if prev != -1 {
        CutOut(kept, gone, todo);
        uploadList := uploadList[..prev] + uploadList[prev + 1..];
      } else {
        NoGap(kept, todo);
      }
    }

    /**
      One pass over the list. An element is removed only after the cursor has moved past it;
      prev is the position of an element to be removed, -1 when there is none.
     */
    method UploadFiles(env: Env)
      requires ItemsOk(uploadList) && TableOk(initSegmentsToUpload)
      modifies this`uploadList, this`log
      ensures View() == DoPass(old(View()), env)
    {
      ghost var p := StartPass(View());
      ghost var end := RunPass(p, initSegmentsToUpload, env);
      ghost var gone: seq<UploadItem> := [];
      var i, prev, e, visits := 1, -1, 0, 0;
      while e < |uploadList|
        invariant ItemsOk(p.todo)
        invariant uploadList == p.kept + gone + p.todo && e == |p.kept| + |gone|
        invariant if prev == -1 then gone == [] else |gone| == 1 && prev == |p.kept|
        invariant i == p.attempts + 1 && visits == p.visits && log == p.log
        invariant IsEnd(p, initSegmentsToUpload, env, end)
        decreases if i <= MAX_CONCURRENT_UPLOADS then MAX_CONCURRENT_UPLOADS + 1 - i else 0, |uploadList| - e
      {
        DropBehind(prev, p.kept, gone, p.todo);
        if prev != -1 {
          e := e - 1;
          prev := -1;
        }
        gone := [];
        var limitReached := LimitReached(e, i, visits, env, p);
        if limitReached {
          break;
        }
        PassGoesOn(p, initSegmentsToUpload, env);
        var remove;
        i, remove := VisitItem(e, i, visits, env, p);
        if remove {
          gone := [p.todo[0]];
          prev := e;
        }
        p := PassStep(p, initSegmentsToUpload, env);
        e := e + 1;
        visits := visits + 1;
      }
      DropBehind(prev, p.kept, gone, p.todo);
    }
  }

  /** The pass will end there. */
  ghost predicate IsEnd(p: Pass, table: map<string, UploadItem>, env: Env, end: Pass)
    requires ItemsOk(p.todo) && TableOk(table)
  {
    RunPass(p, table, env) == end
  }

  lemma PassGoesOn(p: Pass, table: map<string, UploadItem>, env: Env)
    requires ItemsOk(p.todo) && TableOk(table) && !Finished(p, env)
    ensures ItemsOk(PassStep(p, table, env).todo)
    ensures RunPass(PassStep(p, table, env), table, env) == RunPass(p, table, env)
  {
    StepItemsOk(p, table, env);
  }

  lemma HeadTail<T>(s: seq<T>)
    ensures s != [] ==> s == [s[0]] + s[1..]
  {
  }

  lemma PastCursor<T>(kept: seq<T>, f: T, rest: seq<T>, added: seq<T>)
    ensures kept + ([f] + rest) + added == kept + [f] + (rest + added)
  {
  }

  lemma KeptBehindCursor<T>(kept: seq<T>, f: T, rest: seq<T>)
    ensures kept + ([f] + rest) == (kept + [f]) + [] + rest
  {
  }

  lemma CutOut<T>(a: seq<T>, x: seq<T>, b: seq<T>)
    requires |x| == 1
    ensures var s := a + x + b; s[..|a|] + s[|a| + 1..] == a + b
  {
  }

  lemma NoGap<T>(a: seq<T>, b: seq<T>)
    ensures a + [] + b == a + b
  {
  }
}
