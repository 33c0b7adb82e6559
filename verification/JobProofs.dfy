/**
  What every run of a job keeps, whatever the interleaving of requests, coroutines, threads, crashes
  and restarts: one finalizer at a time, one file id, one published blob, and nothing lost.
 */
module JobProofs {
  import opened Bytes
  import opened Manifest
  import opened Jobs

  // ----- the invariant -----

  predicate InHttp(pc: Pc)
  {
    pc.HttpStart? || pc.HttpTopSleep? || pc.HttpPauseSleep? || pc.HttpConnecting? || pc.HttpStreaming?
    || pc.HttpUnwinding? || pc.HttpClosing?
  }

  /** The coroutine is inside `_finalize_path`, past its first section. */
  predicate InFinalize(pc: Pc)
  {
    pc.Appending? || pc.WritingDuration?
  }

  predicate UnderLock(pc: Pc)
  {
    pc.CompletePacking? || InFinalize(pc)
  }

  predicate WellPlaced(kind: Kind, k: Task)
  {
    match k.body
    case HttpBody => kind == Http && (InHttp(k.pc) || InFinalize(k.pc))
    case FinalizeBody => kind == Http && !k.cancelled && (k.pc.FinalizeStart? || InFinalize(k.pc))
    case FetchBody => kind == Torrent && (k.pc.FetchStart? || k.pc.Fetching?)
    case _ => kind == Torrent && !k.cancelled && (k.pc.CompleteWaiting? || UnderLock(k.pc))
  }

  predicate Registrable(body: Body)
  {
    body == HttpBody || body == FetchBody
  }

  /** Every coroutine is where its kind can be, and the table of HTTP tasks holds the live one. */
  predicate Tabled(kind: Kind, m: Memory)
  {
    && (forall t <- m.tasks :: t < m.nextTask && WellPlaced(kind, m.tasks[t]))
    && (m.registered.Some? ==> m.registered.value in m.tasks)
    && (forall t <- m.tasks :: (Registrable(m.tasks[t].body) && !m.tasks[t].cancelled) == (m.registered == Some(t)))
    && (forall t <- m.tasks :: m.tasks[t].cancelled ==> t in m.cancelling)
  }

  /** While a cancel request waits, nothing can reach the finalizer any more. */
  predicate Stopping(job: Job, m: Memory)
  {
    m.cancelling != {} ==>
      && !m.handle && m.lock == None && m.registered == None && job.fileId == None
      && job.status !in {Encrypting, Completed, Failed}
      && (forall t <- m.tasks :: m.tasks[t].cancelled || m.tasks[t].pc.CompleteWaiting?)
  }

  /** An HTTP job has one coroutine at most; once it has none it gets another only from `retry`. */
  predicate Alone(job: Job, m: Memory)
  {
    && !m.handle && m.lock == None
    && (forall t <- m.tasks, u <- m.tasks :: t == u)
    && (m.tasks != map[] ==> Persistable(job.status) && job.status != Failed && job.fileId == None)
  }

  /** A torrent job is guarded by the lock, and is either being fetched or has a handle. */
  predicate Locked(job: Job, m: Memory)
  {
    && (m.lock.Some? ==> m.lock.value in m.tasks && UnderLock(m.tasks[m.lock.value].pc) && (m.handle || !m.inStore))
    && (forall t <- m.tasks :: UnderLock(m.tasks[t].pc) ==> m.lock == Some(t))
    && (forall t <- m.tasks :: m.tasks[t].body == FetchBody ==>
          && !m.handle && m.lock == None && job.status != Failed && job.fileId == None
          && (forall u <- m.tasks :: m.tasks[u].body == FetchBody ==> t == u))
    && (job.fileId != None ==> !m.handle && m.lock == None)
  }

  predicate Serial(kind: Kind, job: Job, m: Memory)
  {
    && Tabled(kind, m) && Stopping(job, m)
    && (if kind == Http then Alone(job, m) else Locked(job, m))
    && (job.fileId != None ==> job.status != Failed)
    && (job.status == Completed ==> job.fileId != None)
  }

  /** Rows have blobs, and the threads' progress shows on disk. */
  predicate Published(tasks: map<nat, Task>, s: Shelf)
  {
    && s.listed <= s.placed.Keys
    && (forall id <- s.uploads ::
          && (s.uploads[id].stage in {BlobPlaced, RowWritten} ==> id in s.placed && s.placed[id] == s.uploads[id].item)
          && (s.uploads[id].stage == RowWritten ==> id in s.listed))
    && (forall t <- tasks :: InFinalize(tasks[t].pc) ==> Started(tasks[t].pc, s))
  }

  predicate Started(pc: Pc, s: Shelf)
    requires InFinalize(pc)
  {
    pc.id in s.uploads && (pc.WritingDuration? ==> s.uploads[pc.id].stage == RowWritten)
  }

  predicate Live(s: Shelf, id: string)
  {
    id in s.uploads && s.uploads[id].stage != Broken
  }

  predicate Finalizes(k: Task, id: string)
  {
    k.pc == Appending(id) || k.pc == WritingDuration(id)
  }

  /** The upload belongs to a coroutine, became the job's file, or was abandoned for good. */
  predicate Owned(tasks: map<nat, Task>, fileId: Option<string>, idle: bool, id: string)
  {
    || (exists t <- tasks :: Finalizes(tasks[t], id))
    || fileId == Some(id)
    || (idle && tasks == map[])
  }

  /** Unless something failed after its blob was placed, one upload counts at most. */
  predicate One(tasks: map<nat, Task>, s: Shelf, fileId: Option<string>, idle: bool)
  {
    !s.leaked ==>
      && (forall id <- s.recent :: Live(s, id) && s.uploads[id].stage != Sealing)
      && (forall id <- s.uploads :: Live(s, id) ==> Owned(tasks, fileId, idle, id))
      && (forall id <- s.uploads, other <- s.uploads :: Live(s, id) && Live(s, other) ==> id == other)
  }

  /** No coroutine, and none to come: an HTTP job gets a new one only when it has failed. */
  predicate Idle(kind: Kind, job: Job)
  {
    kind == Http && job.status != Failed
  }

  predicate Single(kind: Kind, job: Job, tasks: map<nat, Task>, s: Shelf)
  {
    One(tasks, s, job.fileId, Idle(kind, job))
  }

  /** Saved records can be loaded; a completed job has none, and its file has a row; only cancels wipe. */
  predicate Recorded(w: World)
  {
    && (w.json.Some? ==> Persistable(w.json.value.status) && w.job.status != Completed)
    && (w.shelf.wiped != {} ==> w.gone)
    && (w.job.fileId.Some? ==> w.job.fileId.value in w.shelf.listed)
  }

  predicate Inv(w: World)
  {
    && Serial(w.kind, w.job, w.mem) && Recorded(w)
    && Published(w.mem.tasks, w.shelf) && Single(w.kind, w.job, w.mem.tasks, w.shelf)
  }

  // ----- changes of the coroutines -----

  /** What is said of uploads only depends on the coroutines inside `_finalize_path`. */
  lemma TasksMove(tasks: map<nat, Task>, after: map<nat, Task>, s: Shelf)
    requires Published(tasks, s)
    requires forall t <- after :: InFinalize(after[t].pc) ==> t in tasks && after[t].pc == tasks[t].pc
    ensures Published(after, s)
  {
  }

  lemma TasksKeepOne(tasks: map<nat, Task>, after: map<nat, Task>, s: Shelf, fileId: Option<string>, idle: bool, idleAfter: bool)
    requires One(tasks, s, fileId, idle)
    requires forall t <- tasks :: InFinalize(tasks[t].pc) ==> t in after && after[t].pc == tasks[t].pc
    requires idle && tasks == map[] ==> idleAfter && after == map[]
    ensures One(after, s, fileId, idleAfter)
  {
    if !s.leaked {
      forall id <- s.uploads | Live(s, id)
        ensures Owned(after, fileId, idleAfter, id)
      {
        assert Owned(tasks, fileId, idle, id);
        if t :| t in tasks && Finalizes(tasks[t], id) {
          assert Finalizes(after[t], id);
        }
      }
    }
  }

  lemma SpawnSerial(kind: Kind, job: Job, m: Memory, after: Job, body: Body, pc: Pc)
    requires Serial(kind, job, m) && m.cancelling == {} && (Registrable(body) ==> m.registered == None)
    requires WellPlaced(kind, Task(body, pc, false))
    requires after.fileId == job.fileId == None && Persistable(after.status) && after.status != Failed
    requires if kind == Http then m.tasks == map[]
             else pc.CompleteWaiting? || (pc.FetchStart? && !m.handle && m.lock == None
                                       && forall u <- m.tasks :: m.tasks[u].body != FetchBody)
    ensures Serial(kind, after, Spawn(m, body, pc))
  {
  }

  lemma SpawnSingle(kind: Kind, job: Job, m: Memory, s: Shelf, after: Job, body: Body, pc: Pc)
    requires Tabled(kind, m) && Published(m.tasks, s) && Single(kind, job, m.tasks, s)
    requires !InFinalize(pc) && after.fileId == job.fileId
    requires kind == Http ==> job.status == Failed
    ensures var tasks := Spawn(m, body, pc).tasks; Published(tasks, s) && Single(kind, after, tasks, s)
  {
    var tasks := Spawn(m, body, pc).tasks;
    TasksMove(m.tasks, tasks, s);
    TasksKeepOne(m.tasks, tasks, s, job.fileId, Idle(kind, job), Idle(kind, after));
  }

  // ----- web requests and the poll loop -----

  lemma AcceptedInv(kind: Kind, name: string, fetch: bool)
    ensures Inv(Accepted(kind, name, fetch))
  {
  }

  lemma PauseInv(w: World)
    requires Inv(w)
    ensures Inv(PauseStep(w))
  {
  }

  lemma ResumeInv(w: World)
    requires Inv(w)
    ensures Inv(ResumeStep(w))
  {
  }

  lemma RetryInv(w: World, finished: bool, how: Reattach)
    requires Inv(w)
    ensures Inv(RetryStep(w, finished, how))
  {
    if w.mem.inStore && w.job.status == Failed && w.mem.registered == None {
      var w1 := w.(job := w.job.(userPaused := false));
      if w.kind == Http {
        RetryHttpInv(w1);
      } else {
        RetryTorrentInv(w1, finished, how);
      }
    }
  }

  lemma RetryHttpInv(w: World)
    requires Inv(w) && w.kind == Http && w.mem.inStore && w.job.status == Failed && w.mem.registered == None
    ensures Inv(RetryHttp(w))
  {
    var v := RetryHttp(w);
    var dest := w.job.name;
    var (body, pc) := if w.job.phase == EncryptingPhase && IsFile(w, dest) then (FinalizeBody, FinalizeStart(dest))
                      else (HttpBody, HttpStart);
    SpawnSerial(w.kind, w.job, w.mem, v.job, body, pc);
    SpawnSingle(w.kind, w.job, w.mem, w.shelf, v.job, body, pc);
  }

  lemma RetryTorrentInv(w: World, finished: bool, how: Reattach)
    requires Inv(w) && w.kind == Torrent && w.mem.inStore && w.job.status == Failed && w.mem.registered == None
    ensures Inv(RetryTorrent(w, finished, how))
  {
    var v := RetryTorrent(w, finished, how);
    if v.mem == Spawn(w.mem, CompleteBody, CompleteWaiting) {
      SpawnSerial(w.kind, w.job, w.mem, v.job, CompleteBody, CompleteWaiting);
      SpawnSingle(w.kind, w.job, w.mem, w.shelf, v.job, CompleteBody, CompleteWaiting);
    } else if v.mem == Spawn(w.mem, FetchBody, FetchStart) {
      SpawnSerial(w.kind, w.job, w.mem, v.job, FetchBody, FetchStart);
      SpawnSingle(w.kind, w.job, w.mem, w.shelf, v.job, FetchBody, FetchStart);
    }
  }

  lemma CancelTaskSerial(kind: Kind, job: Job, m: Memory, t: nat)
    requires Serial(kind, job, m) && m.registered == Some(t) && job.status !in {Encrypting, Completed}
    ensures Serial(kind, job, CancelTask(m, t))
  {
  }

  lemma CancelInv(w: World)
    requires Inv(w)
    ensures Inv(CancelStep(w))
  {
    if Cancellable(w) {
      if w.mem.registered.Some? {
        var v := CancelStep(w);
        CancelTaskSerial(w.kind, w.job, w.mem, w.mem.registered.value);
        TasksMove(w.mem.tasks, v.mem.tasks, w.shelf);
        TasksKeepOne(w.mem.tasks, v.mem.tasks, w.shelf, w.job.fileId, Idle(w.kind, w.job), Idle(v.kind, v.job));
      } else {
        WipeInv(w);
      }
    }
  }

  lemma WipeInv(w: World)
    requires Inv(w) && w.mem.registered == None && Cancellable(w)
    ensures Inv(Wipe(w.(mem := w.mem.(handle := false, registered := None))))
  {
  }

  lemma CancelFinishInv(w: World, t: nat)
    requires Inv(w)
    ensures Inv(CancelFinishStep(w, t))
  {
  }

  lemma FlushInv(w: World)
    requires Inv(w)
    ensures Inv(FlushStep(w))
  {
  }

  lemma PollInv(w: World, raises: bool, finished: bool)
    requires Inv(w)
    ensures Inv(PollStep(w, raises, finished))
  {
    if Polled(w) && !raises && !w.job.userPaused && finished {
      var v := PollStep(w, raises, finished);
      SpawnSerial(w.kind, w.job, w.mem, v.job, PollCompleteBody, CompleteWaiting);
      SpawnSingle(w.kind, w.job, w.mem, w.shelf, v.job, PollCompleteBody, CompleteWaiting);
    }
  }

  lemma AppendPublished(tasks: map<nat, Task>, s: Shelf, id: string, ok: bool)
    requires Published(tasks, s)
    ensures Published(tasks, Append(s, id, ok))
  {
  }

  lemma AppendOne(tasks: map<nat, Task>, s: Shelf, id: string, ok: bool, fileId: Option<string>, idle: bool)
    requires One(tasks, s, fileId, idle)
    ensures One(tasks, Append(s, id, ok), fileId, idle)
  {
    var v := Append(s, id, ok);
    assert !v.leaked ==> forall other <- v.uploads :: Live(v, other) ==> Live(s, other);
  }

  lemma ThreadInv(w: World, id: string, ok: bool)
    requires Inv(w)
    ensures Inv(ThreadStep(w, id, ok))
  {
    AppendPublished(w.mem.tasks, w.shelf, id, ok);
    AppendOne(w.mem.tasks, w.shelf, id, ok, w.job.fileId, Idle(w.kind, w.job));
  }

  // ----- turns of the coroutines -----

  lemma AtSerial(kind: Kind, job: Job, m: Memory, t: nat, pc: Pc, after: Job)
    requires Serial(kind, job, m) && t in m.tasks && !m.tasks[t].cancelled && m.cancelling == {}
    requires WellPlaced(kind, m.tasks[t].(pc := pc)) && (kind == Torrent ==> UnderLock(pc) == UnderLock(m.tasks[t].pc))
    requires after.fileId == job.fileId && Persistable(after.status) && after.status != Failed
    ensures Serial(kind, after, At(m, t, pc))
  {
  }

  /** A turn that stays outside `_finalize_path`. */
  lemma AtSingle(kind: Kind, job: Job, m: Memory, s: Shelf, t: nat, pc: Pc, after: Job)
    requires Tabled(kind, m) && t in m.tasks && !InFinalize(m.tasks[t].pc) && !InFinalize(pc)
    requires Published(m.tasks, s) && Single(kind, job, m.tasks, s) && after.fileId == job.fileId
    ensures var tasks := At(m, t, pc).tasks; Published(tasks, s) && Single(kind, after, tasks, s)
  {
    var tasks := At(m, t, pc).tasks;
    TasksMove(m.tasks, tasks, s);
    TasksKeepOne(m.tasks, tasks, s, job.fileId, Idle(kind, job), Idle(kind, after));
  }

  lemma EndSerial(kind: Kind, job: Job, m: Memory, t: nat, after: Job)
    requires Serial(kind, job, m) && t in m.tasks
    requires after.fileId == job.fileId && (after == job || after.status !in {Completed, Encrypting})
    requires after.status == Failed && after != job ==>
               job.fileId == None && m.cancelling == {} && (m.tasks[t].body == FetchBody || m.handle || m.lock.Some? || kind == Http)
    ensures Serial(kind, after, End(m, t))
  {
  }

  lemma EndSingle(kind: Kind, job: Job, m: Memory, s: Shelf, t: nat, after: Job)
    requires t in m.tasks && !InFinalize(m.tasks[t].pc) && Published(m.tasks, s)
    requires Single(kind, job, m.tasks, s) && after.fileId == job.fileId
    ensures var tasks := End(m, t).tasks; Published(tasks, s) && Single(kind, after, tasks, s)
  {
    var tasks := End(m, t).tasks;
    TasksMove(m.tasks, tasks, s);
    TasksKeepOne(m.tasks, tasks, s, job.fileId, Idle(kind, job), Idle(kind, after));
  }

  /** Nobody else is inside: neither uploads that count nor a file id. */
  lemma NothingLive(kind: Kind, job: Job, m: Memory, s: Shelf, t: nat)
    requires Serial(kind, job, m) && t in m.tasks && Single(kind, job, m.tasks, s) && !s.leaked
    requires kind == Http || (m.handle && m.lock == None) || m.lock == Some(t)
    requires !InFinalize(m.tasks[t].pc)
    ensures forall id <- s.uploads :: !Live(s, id)
  {
  }

  lemma BeginSingle(tasks: map<nat, Task>, s: Shelf, t: nat, id: string, item: Option<Item>, fileId: Option<string>, idle: bool)
    requires t in tasks && !InFinalize(tasks[t].pc) && id !in s.uploads
    requires Published(tasks, s) && (!s.leaked ==> forall other <- s.uploads :: !Live(s, other)) && One(tasks, s, fileId, idle)
    ensures var after := tasks[t := tasks[t].(pc := Appending(id))];
            var v := s.(uploads := s.uploads[id := NewUpload(item)]);
            Published(after, v) && One(after, v, fileId, idle)
  {
    var after := tasks[t := tasks[t].(pc := Appending(id))];
    var v := s.(uploads := s.uploads[id := NewUpload(item)]);
    assert Finalizes(after[t], id);
    assert forall u <- after :: InFinalize(after[u].pc) ==> u == t || (u in tasks && after[u] == tasks[u]);
    assert Owned(after, fileId, idle, id);
    assert !s.leaked ==> forall other <- v.uploads :: Live(v, other) ==> other == id;
  }

  predicate Running(w: World, t: nat)
  {
    t in w.mem.tasks && !w.mem.tasks[t].cancelled
  }

  lemma LoopTopInv(r: Remote, w: World, t: nat, dest: string)
    requires Inv(w) && Running(w, t) && w.kind == Http && InHttp(w.mem.tasks[t].pc)
    ensures Inv(LoopTop(r, w, t, dest))
  {
    var v := LoopTop(r, w, t, dest);
    var pc := v.mem.tasks[t].pc;
    AtSerial(w.kind, w.job, w.mem, t, pc, v.job);
    AtSingle(w.kind, w.job, w.mem, w.shelf, t, pc, v.job);
  }

  lemma UnwindInv(w: World, t: nat, dest: string)
    requires Inv(w) && Running(w, t) && w.mem.tasks[t].pc.HttpUnwinding?
    ensures Inv(Persist(SetStatus(w, Paused)).(mem := At(w.mem, t, HttpPauseSleep(dest))))
  {
    AtSerial(w.kind, w.job, w.mem, t, HttpPauseSleep(dest), w.job.(status := Paused));
    AtSingle(w.kind, w.job, w.mem, w.shelf, t, HttpPauseSleep(dest), w.job.(status := Paused));
  }

  lemma ChunkInv(r: Remote, w: World, t: nat, n: nat)
    requires Inv(w) && Running(w, t) && w.mem.tasks[t].pc.HttpStreaming?
    ensures Inv(ChunkStep(r, w, t, n))
  {
    var v := ChunkStep(r, w, t, n);
    var pc := v.mem.tasks[t].pc;
    ChunkKeeps(r, w, t, n);
    AtSerial(w.kind, w.job, w.mem, t, pc, v.job);
    AtSingle(w.kind, w.job, w.mem, w.shelf, t, pc, v.job);
  }

  lemma ChunkKeeps(r: Remote, w: World, t: nat, n: nat)
    requires t in w.mem.tasks && w.mem.tasks[t].pc.HttpStreaming?
    ensures var v := ChunkStep(r, w, t, n);
            && t in v.mem.tasks && v.mem == At(w.mem, t, v.mem.tasks[t].pc) && InHttp(v.mem.tasks[t].pc)
            && v.kind == w.kind && v.shelf == w.shelf && v.gone == w.gone && v.json in {w.json, None}
            && v.job.status == w.job.status && v.job.fileId == w.job.fileId
  {
  }

  lemma BreakInv(w: World, t: nat)
    requires Inv(w) && Running(w, t) && MayBreak(w.mem.tasks[t].pc)
    ensures Inv(BreakStep(w, t))
  {
    var v := BreakStep(w, t);
    EndSerial(w.kind, w.job, w.mem, t, v.job);
    if w.mem.tasks[t].pc.WritingDuration? {
      TasksMove(w.mem.tasks, v.mem.tasks, v.shelf);
    } else {
      EndSingle(w.kind, w.job, w.mem, w.shelf, t, v.job);
    }
  }

  lemma AnswerSaves(r: Remote, w: World, dest: string, existing: nat, partial: bool, writes: nat)
    requires Persistable(w.job.status) && (w.json.Some? ==> Persistable(w.json.value.status))
    ensures var v := AnswerWrites(r, w, dest, existing, partial, writes);
            v.json.Some? ==> Persistable(v.json.value.status)
  {
  }

  lemma AnsweredInv(w: World, t: nat, pc: Pc, v: World)
    requires Inv(w) && Running(w, t) && w.mem.tasks[t].pc.HttpConnecting? && pc.HttpStreaming?
    requires v == w.(files := v.files, clash := v.clash, job := w.job.(name := v.job.name), json := v.json, mem := At(w.mem, t, pc))
    requires v.json.Some? ==> Persistable(v.json.value.status)
    ensures Inv(v)
  {
    AtSerial(w.kind, w.job, w.mem, t, pc, v.job);
    AtSingle(w.kind, w.job, w.mem, w.shelf, t, pc, v.job);
  }

  lemma AnswerInv(r: Remote, w: World, t: nat, partial: bool)
    requires Inv(w) && Running(w, t) && w.mem.tasks[t].pc.HttpConnecting?
    ensures Inv(AnswerStep(r, w, t, partial))
  {
    var dest, existing := w.mem.tasks[t].pc.dest, w.mem.tasks[t].pc.existing;
    if existing > 0 && partial && existing >= |r.content| {
      BreakInv(w, t);
    } else {
      var v := AnswerStep(r, w, t, partial);
      AnswerSaves(r, w, dest, existing, partial, 5);
      AnsweredInv(w, t, v.mem.tasks[t].pc, v);
    }
  }

  lemma CancellingInv(w: World, t: nat)
    requires Inv(w) && t in w.mem.tasks && w.mem.tasks[t].cancelled
    ensures Inv(Cancelling(w, t))
  {
    var v := Cancelling(w, t);
    EndSerial(w.kind, w.job, w.mem, t, v.job);
    TasksMove(w.mem.tasks, v.mem.tasks, w.shelf);
    if w.kind == Torrent {
      EndSingle(w.kind, w.job, w.mem, w.shelf, t, v.job);
    }
  }

  lemma BeginInv(w: World, t: nat, id: string, isFile: bool, item: Option<Item>)
    requires Inv(w) && Running(w, t) && FreshId(w, id)
    requires w.mem.tasks[t].pc.HttpClosing? || w.mem.tasks[t].pc.FinalizeStart? || w.mem.tasks[t].pc.CompletePacking?
    ensures Inv(BeginFinalize(w, t, id, isFile, item))
  {
    var v := BeginFinalize(w, t, id, isFile, item);
    AtSerial(w.kind, w.job, w.mem, t, Appending(id), v.job);
    if !w.shelf.leaked {
      NothingLive(w.kind, w.job, w.mem, w.shelf, t);
    }
    BeginSingle(w.mem.tasks, w.shelf, t, id, item, w.job.fileId, Idle(w.kind, w.job));
    TasksKeepOne(v.mem.tasks, v.mem.tasks, v.shelf, w.job.fileId, Idle(w.kind, w.job), Idle(v.kind, v.job));
  }

  lemma AcquireSerial(job: Job, m: Memory, t: nat, pc: Pc, after: Job)
    requires Serial(Torrent, job, m) && t in m.tasks && m.tasks[t].pc.CompleteWaiting?
    requires m.handle && m.lock == None && UnderLock(pc)
    requires after.fileId == job.fileId && Persistable(after.status) && after.status != Failed
    ensures Serial(Torrent, after, At(m.(lock := Some(t)), t, pc))
  {
  }

  lemma AcquireInv(w: World, t: nat, event: Event)
    requires Inv(w) && Running(w, t) && w.mem.tasks[t].pc.CompleteWaiting?
    ensures Inv(AcquireStep(w, t, event))
  {
    var v := AcquireStep(w, t, event);
    if t !in v.mem.tasks {
      EndSerial(w.kind, w.job, w.mem, t, v.job);
      EndSingle(w.kind, w.job, w.mem, w.shelf, t, v.job);
    } else if v != w {
      AcquireSerial(w.job, w.mem, t, v.mem.tasks[t].pc, v.job);
      if event.pack {
        AtSingle(w.kind, w.job, w.mem, w.shelf, t, CompletePacking, v.job);
      } else {
        if !w.shelf.leaked {
          NothingLive(w.kind, w.job, w.mem, w.shelf, t);
        }
        BeginSingle(w.mem.tasks, w.shelf, t, event.id, Some(event.item), w.job.fileId, Idle(w.kind, w.job));
      }
    }
  }

  lemma FetchedInv(w: World, t: nat)
    requires Inv(w) && Running(w, t) && w.mem.tasks[t].pc.Fetching?
    ensures Inv(Persist(SetStatus(w, Downloading)).(mem := End(w.mem, t).(handle := true)))
  {
    var after := w.job.(status := Downloading);
    EndSerial(w.kind, w.job, w.mem, t, after);
    EndSingle(w.kind, w.job, w.mem, w.shelf, t, after);
  }

  lemma RowWrittenSingle(tasks: map<nat, Task>, s: Shelf, t: nat, id: string, fileId: Option<string>, idle: bool, idleAfter: bool)
    requires t in tasks && tasks[t].pc == Appending(id) && id in s.uploads && s.uploads[id].stage == RowWritten
    requires Published(tasks, s) && One(tasks, s, fileId, idle)
    ensures var after := tasks[t := tasks[t].(pc := WritingDuration(id))]; Published(after, s) && One(after, s, fileId, idleAfter)
  {
    var after := tasks[t := tasks[t].(pc := WritingDuration(id))];
    assert Finalizes(after[t], id);
    assert Live(s, id) && Owned(after, fileId, idleAfter, id);
    assert !s.leaked ==> forall other <- s.uploads :: Live(s, other) ==> other == id;
  }

  /** The last coroutine inside leaves: what counts after that is its own upload, or nothing. */
  lemma LeaveSingle(kind: Kind, job: Job, m: Memory, s: Shelf, t: nat, id: string, fileId: Option<string>, idle: bool)
    requires Serial(kind, job, m) && t in m.tasks && m.tasks[t].pc in {Appending(id), WritingDuration(id)}
    requires !m.tasks[t].cancelled
    requires Published(m.tasks, s) && Single(kind, job, m.tasks, s) && (fileId == Some(id) || !Live(s, id))
    ensures var tasks := End(m, t).tasks; Published(tasks, s) && One(tasks, s, fileId, idle)
  {
    var tasks := End(m, t).tasks;
    TasksMove(m.tasks, tasks, s);
    if !s.leaked {
      forall other <- s.uploads | Live(s, other)
        ensures other == id
      {
        assert Owned(m.tasks, job.fileId, Idle(kind, job), other);
        if u :| u in m.tasks && Finalizes(m.tasks[u], other) {
          assert UnderLock(m.tasks[u].pc) && UnderLock(m.tasks[t].pc);
        }
      }
    }
  }

  lemma AwaitAppendInv(w: World, t: nat, id: string)
    requires Inv(w) && Running(w, t) && w.mem.tasks[t].pc == Appending(id)
    ensures Inv(AwaitAppend(w, t, id))
  {
    if id in w.shelf.uploads {
      var v := AwaitAppend(w, t, id);
      if w.shelf.uploads[id].stage == RowWritten {
        AppendedSerial(w.kind, w.job, w.mem, t, id);
        RowWrittenSingle(w.mem.tasks, w.shelf, t, id, w.job.fileId, Idle(w.kind, w.job), Idle(w.kind, w.job));
      } else if w.shelf.uploads[id].stage == Broken {
        EndSerial(w.kind, w.job, w.mem, t, v.job);
        LeaveSingle(w.kind, w.job, w.mem, w.shelf, t, id, w.job.fileId, Idle(v.kind, v.job));
      }
    }
  }

  lemma AppendedSerial(kind: Kind, job: Job, m: Memory, t: nat, id: string)
    requires Serial(kind, job, m) && t in m.tasks && !m.tasks[t].cancelled && m.tasks[t].pc == Appending(id)
    ensures Serial(kind, job, At(m, t, WritingDuration(id)))
  {
  }

  lemma CompleteSerial(kind: Kind, job: Job, m: Memory, t: nat, id: string)
    requires Serial(kind, job, m) && t in m.tasks && !m.tasks[t].cancelled && m.tasks[t].pc == WritingDuration(id)
    ensures Serial(kind, job.(status := Completed, fileId := Some(id), name := id),
                   End(m, t).(handle := m.handle && !IsComplete(m.tasks[t].body)))
  {
  }

  lemma CompleteInv(w: World, t: nat, id: string)
    requires Inv(w) && Running(w, t) && w.mem.tasks[t].pc == WritingDuration(id)
    ensures Inv(Complete(w, t, id))
  {
    CompleteSerial(w.kind, w.job, w.mem, t, id);
    LeaveSingle(w.kind, w.job, w.mem, w.shelf, t, id, Some(id), Idle(w.kind, Complete(w, t, id).job));
    assert id in w.shelf.listed;
  }

  lemma HttpTurnInv(r: Remote, w: World, t: nat, event: Event)
    requires Inv(w) && Running(w, t) && w.kind == Http
    ensures Inv(HttpTurn(r, w, t, event))
  {
    match w.mem.tasks[t].pc
    case HttpStart => LoopTopInv(r, w, t, w.job.name);
    case HttpTopSleep(dest) => LoopTopInv(r, w, t, dest);
    case HttpPauseSleep(dest) => LoopTopInv(r, w, t, dest);
    case HttpConnecting(_, _) => if event.Answer? { AnswerInv(r, w, t, event.partial); }
    case HttpStreaming(_, _, _) => if event.Chunk? { ChunkInv(r, w, t, event.n); }
    case HttpUnwinding(dest) => UnwindInv(w, t, dest);
    case _ =>
  }

  lemma TorrentTurnInv(w: World, t: nat, event: Event)
    requires Inv(w) && Running(w, t) && w.kind == Torrent
    ensures Inv(TorrentTurn(w, t, event))
  {
    match w.mem.tasks[t].pc
    case FetchStart =>
      FetchStartSerial(w.job, w.mem, t);
      AtSingle(w.kind, w.job, w.mem, w.shelf, t, Fetching, w.job);
    case Fetching => if event.Tick? { FetchedInv(w, t); }
    case CompleteWaiting => AcquireInv(w, t, event);
    case CompletePacking =>
      if event.Bundle? && FreshId(w, event.id) {
        var w1 := w.(job := w.job.(name := event.item.name));
        RenamedSerial(w.job, w.mem, w1.job);
        BeginInv(w1, t, event.id, true, Some(event.item));
      }
    case _ =>
  }

  lemma FetchStartSerial(job: Job, m: Memory, t: nat)
    requires Serial(Torrent, job, m) && t in m.tasks && !m.tasks[t].cancelled && m.tasks[t].pc.FetchStart?
    ensures Serial(Torrent, job, At(m, t, Fetching))
  {
  }

  lemma RenamedSerial(job: Job, m: Memory, after: Job)
    requires Serial(Torrent, job, m) && after.status == job.status && after.fileId == job.fileId
    ensures Serial(Torrent, after, m)
  {
  }

  lemma FinalizeHttpInv(r: Remote, w: World, t: nat, id: string, path: string)
    requires Inv(w) && Running(w, t) && FreshId(w, id) && (w.mem.tasks[t].pc.HttpClosing? || w.mem.tasks[t].pc.FinalizeStart?)
    ensures Inv(FinalizeHttp(r, w, t, id, path))
  {
    BeginInv(w, t, id, IsFile(w, path), ItemAt(r, StartEncrypting(w, IsFile(w, path)), path));
  }

  lemma FinalizeTurnInv(r: Remote, w: World, t: nat, event: Event)
    requires Inv(w) && Running(w, t) && Finishing(w.mem.tasks[t].pc)
    ensures Inv(FinalizeTurn(r, w, t, event))
  {
    match w.mem.tasks[t].pc
    case HttpClosing(path) => if event.Proceed? && FreshId(w, event.id) { FinalizeHttpInv(r, w, t, event.id, path); }
    case FinalizeStart(path) => if event.Proceed? && FreshId(w, event.id) { FinalizeHttpInv(r, w, t, event.id, path); }
    case Appending(id) => AwaitAppendInv(w, t, id);
    case WritingDuration(id) => if event.Tick? { CompleteInv(w, t, id); }
  }

  lemma GoInv(r: Remote, w: World, t: nat, event: Event)
    requires Inv(w)
    ensures Inv(GoStep(r, w, t, event))
  {
    if t in w.mem.tasks {
      if w.mem.tasks[t].cancelled {
        CancellingInv(w, t);
      } else if event.Break? && MayBreak(w.mem.tasks[t].pc) {
        BreakInv(w, t);
      } else if Finishing(w.mem.tasks[t].pc) {
        FinalizeTurnInv(r, w, t, event);
      } else if w.kind == Http {
        HttpTurnInv(r, w, t, event);
      } else {
        TorrentTurnInv(w, t, event);
      }
    }
  }

  // ----- crashes -----

  /** What every disk satisfies that a run leaves. */
  predicate OnDisk(w: World)
  {
    && (w.json.Some? ==> Persistable(w.json.value.status))
    && (w.shelf.wiped != {} ==> w.gone) && w.shelf.listed <= w.shelf.placed.Keys
  }

  /** Just after the start of a process. */
  predicate Blank(w: World)
  {
    && OnDisk(w) && w.mem == NO_MEMORY.(inStore := true) && w.job.fileId == None && Persistable(w.job.status)
    && w.shelf.uploads == map[] && w.shelf.recent == {} && !w.shelf.leaked
  }

  lemma BlankSpawn(kind: Kind, job: Job, handle: bool, after: Job, body: Body, pc: Pc)
    requires job.fileId == after.fileId == None && Persistable(job.status) && Persistable(after.status) && after.status != Failed
    requires WellPlaced(kind, Task(body, pc, false)) && !UnderLock(pc) && (handle ==> kind == Torrent && body != FetchBody)
    requires kind == Torrent ==> pc.CompleteWaiting? || pc.FetchStart?
    ensures Serial(kind, after, Spawn(NO_MEMORY.(inStore := true, handle := handle), body, pc))
  {
    SpawnSerial(kind, job, NO_MEMORY.(inStore := true, handle := handle), after, body, pc);
  }

  /** A restored job is sound if its coroutines are: the process has not finalized anything yet. */
  lemma RestoredInv(w: World, v: World)
    requires Blank(w) && v.kind == w.kind && v.shelf == w.shelf && v.gone == w.gone && v.job.fileId == None
    requires Serial(v.kind, v.job, v.mem) && Persistable(v.job.status)
    requires v.json == Some(Snapshot(v.job)) && (forall t <- v.mem.tasks :: !InFinalize(v.mem.tasks[t].pc))
    ensures Inv(v)
  {
  }

  lemma NoTaskSerial(kind: Kind, job: Job, handle: bool)
    requires job.fileId == None && Persistable(job.status) && (handle ==> kind == Torrent)
    ensures Serial(kind, job, NO_MEMORY.(inStore := true, handle := handle))
  {
  }

  lemma RestoreHttpInv(w: World)
    requires Blank(w) && w.kind == Http
    ensures Inv(RestoreHttp(w))
  {
    var v := RestoreHttp(w);
    if w.job.status == Failed {
      NoTaskSerial(Http, w.job, false);
    } else {
      BlankSpawn(Http, w.job, false, v.job, v.mem.tasks[0].body, v.mem.tasks[0].pc);
    }
    RestoredInv(w, v);
  }

  lemma AttachedInv(w: World)
    requires Blank(w) && w.kind == Torrent
    ensures Inv(RestoreTorrent(w, Attached))
  {
    var v := RestoreTorrent(w, Attached);
    if v.mem.tasks == map[] {
      NoTaskSerial(Torrent, v.job, true);
    } else {
      BlankSpawn(Torrent, w.job, true, v.job, CompleteBody, CompleteWaiting);
    }
    RestoredInv(w, v);
  }

  /** The coroutines of a restored torrent whose `.torrent` file is fetched again. */
  lemma RefetchSerial(job: Job, m: Memory, after: Job, again: bool)
    requires m == NO_MEMORY.(inStore := true) && job.fileId == after.fileId == None
    requires Persistable(job.status) && Persistable(after.status) && after.status != Failed
    ensures var m1 := Spawn(m, FetchBody, FetchStart);
            var m2 := if again then Spawn(m1, CompleteBody, CompleteWaiting) else m1;
            Serial(Torrent, after, m2) && forall t <- m2.tasks :: !InFinalize(m2.tasks[t].pc)
  {
    var m1 := Spawn(m, FetchBody, FetchStart);
    var fetching := job.(status := Downloading);
    BlankSpawn(Torrent, job, false, fetching, FetchBody, FetchStart);
    if again {
      SpawnSerial(Torrent, fetching, m1, after, CompleteBody, CompleteWaiting);
    } else {
      FetchingSerial(fetching, m1, after);
    }
  }

  lemma RefetchInv(w: World)
    requires Blank(w) && w.kind == Torrent
    ensures Inv(RestoreTorrent(w, Refetch))
  {
    var v := RestoreTorrent(w, Refetch);
    var again := w.job.status != Failed
                 && (w.job.status == Encrypting || w.job.phase == PackingPhase || w.job.phase == EncryptingPhase);
    RefetchSerial(w.job, w.mem, v.job, again);
  }

  lemma RestoreTorrentInv(w: World, how: Reattach)
    requires Blank(w) && w.kind == Torrent
    ensures Inv(RestoreTorrent(w, how))
  {
    match how
    case Attached => AttachedInv(w);
    case Refetch => RefetchInv(w);
    case Unable =>
  }

  lemma FetchingSerial(job: Job, m: Memory, after: Job)
    requires Serial(Torrent, job, m) && after.fileId == job.fileId && Persistable(after.status) && after.status != Failed
    requires m.cancelling == {}
    ensures Serial(Torrent, after, m)
  {
  }

  lemma RestartInv(r: Remote, w: World, how: Reattach)
    requires OnDisk(w)
    ensures Inv(Restart(r, w, how))
    ensures Restart(r, w, how).mem.inStore == Loaded(r, w).Some?
  {
    if Loaded(r, w).Some? {
      ReloadedInv(w, Loaded(r, w).value, how);
    }
  }

  lemma RestoreSaves(w: World, how: Reattach)
    requires Persistable(w.job.status)
    ensures RestoreHttp(w).json.Some? && RestoreHttp(w).mem.inStore == w.mem.inStore
    ensures RestoreTorrent(w, how).json.Some? && RestoreTorrent(w, how).mem.inStore == w.mem.inStore
  {
    RestoreTorrentSaves(w, how);
  }

  lemma RestoreTorrentSaves(w: World, how: Reattach)
    requires Persistable(w.job.status)
    ensures RestoreTorrent(w, how).json.Some? && RestoreTorrent(w, how).mem.inStore == w.mem.inStore
  {
  }

  lemma ReloadedInv(w: World, s: Saved, how: Reattach)
    requires OnDisk(w) && Persistable(s.status)
    ensures var v := if w.kind == Http then RestoreHttp(Reloaded(w, s)) else RestoreTorrent(Reloaded(w, s), how);
            Inv(v) && v.mem.inStore && v.json.Some?
  {
    RestoreSaves(Reloaded(w, s), how);
    if w.kind == Http {
      RestoreHttpInv(Reloaded(w, s));
    } else {
      RestoreTorrentInv(Reloaded(w, s), how);
    }
  }

  lemma InvOnDisk(w: World)
    requires Inv(w)
    ensures OnDisk(w)
    ensures w.kind == Http && w.mem.tasks != map[] ==> Persistable(w.job.status)
  {
  }

  lemma AnswerOnDisk(r: Remote, w: World, dest: string, existing: nat, partial: bool, writes: nat)
    requires OnDisk(w) && Persistable(w.job.status)
    ensures OnDisk(AnswerWrites(r, w, dest, existing, partial, writes))
  {
    AnswerSaves(r, w, dest, existing, partial, writes);
  }

  lemma CrashInAnswerInv(r: Remote, w: World, t: nat, partial: bool, writes: nat, how: Reattach)
    requires Inv(w)
    ensures Inv(CrashInAnswerStep(r, w, t, partial, writes, how))
  {
    if CrashInAnswerStep(r, w, t, partial, writes, how) != w {
      var pc := w.mem.tasks[t].pc;
      assert Persistable(w.job.status) by {
        assert WellPlaced(w.kind, w.mem.tasks[t]);
      }
      InvOnDisk(w);
      AnswerOnDisk(r, w, pc.dest, pc.existing, partial, writes);
      RestartInv(r, AnswerWrites(r, w, pc.dest, pc.existing, partial, writes), how);
    }
  }

  lemma CrashNowInv(r: Remote, w: World, keep: nat, how: Reattach)
    requires Inv(w)
    ensures Inv(Restart(r, LoseBuffer(w, keep), how))
  {
    InvOnDisk(w);
    RestartInv(r, LoseBuffer(w, keep), how);
  }

  lemma CrashInAcquireInv(r: Remote, w: World, t: nat, how: Reattach)
    requires Inv(w)
    ensures Inv(CrashInAcquireStep(r, w, t, how))
  {
    InvOnDisk(w);
    RestartInv(r, Persist(SetStatus(w, Encrypting)), how);
  }

  lemma CrashInCompleteInv(r: Remote, w: World, t: nat, how: Reattach)
    requires Inv(w)
    ensures Inv(CrashInCompleteStep(r, w, t, how))
  {
    InvOnDisk(w);
    RestartInv(r, w.(json := None, clash := NO_CLASH), how);
  }

  lemma CrashInCancelInv(r: Remote, w: World, removed: set<string>, jsonToo: bool, how: Reattach)
    requires Inv(w)
    ensures Inv(CrashInCancelStep(r, w, removed, jsonToo, how))
  {
    InvOnDisk(w);
    RestartInv(r, PartlyCancelled(w, removed, jsonToo), how);
  }

  lemma StepIsCrash(r: Remote, w: World, l: Label)
    ensures l.Crash? ==> Step(r, w, l) == Restart(r, LoseBuffer(w, l.keep), l.how)
    ensures l.CrashInAnswer? ==> Step(r, w, l) == CrashInAnswerStep(r, w, l.t, l.partial, l.writes, l.how)
    ensures l.CrashInAcquire? ==> Step(r, w, l) == CrashInAcquireStep(r, w, l.t, l.how)
    ensures l.CrashInComplete? ==> Step(r, w, l) == CrashInCompleteStep(r, w, l.t, l.how)
    ensures l.CrashInCancel? ==> Step(r, w, l) == CrashInCancelStep(r, w, l.removed, l.jsonToo, l.how)
  {
  }

  lemma CrashInv(r: Remote, w: World, l: Label)
    requires Inv(w) && l.IsCrash()
    ensures Inv(Step(r, w, l))
  {
    StepIsCrash(r, w, l);
    match l
    case Crash(keep, how) => CrashNowInv(r, w, keep, how);
    case CrashInAnswer(t, partial, writes, how) => CrashInAnswerInv(r, w, t, partial, writes, how);
    case CrashInAcquire(t, how) => CrashInAcquireInv(r, w, t, how);
    case CrashInComplete(t, how) => CrashInCompleteInv(r, w, t, how);
    case CrashInCancel(removed, jsonToo, how) => CrashInCancelInv(r, w, removed, jsonToo, how);
  }

  // ----- whole runs -----

  lemma StepInv(r: Remote, w: World, l: Label)
    requires Inv(w)
    ensures Inv(Step(r, w, l))
  {
    match l
    case Pause => PauseInv(w);
    case Resume => ResumeInv(w);
    case Retry(finished, how) => RetryInv(w, finished, how);
    case Cancel => CancelInv(w);
    case CancelFinish(t) => CancelFinishInv(w, t);
    case Flush => FlushInv(w);
    case PollScan(raises, finished) => PollInv(w, raises, finished);
    case Go(t, event) => GoInv(r, w, t, event);
    case Thread(id, ok) => ThreadInv(w, id, ok);
    case _ => CrashInv(r, w, l);
  }

  lemma {:induction false} ExecJoins(r: Remote, w: World, ls: seq<Label>, more: seq<Label>)
    ensures Exec(r, w, ls + more) == Exec(r, Exec(r, w, ls), more)
  {
    if more == [] {
      assert ls + more == ls;
    } else {
      ExecJoins(r, w, ls, more[..|more| - 1]);
      assert (ls + more)[..|ls + more| - 1] == ls + more[..|more| - 1];
    }
  }

  function Run(r: Remote, kind: Kind, name: string, fetch: bool, ls: seq<Label>): World
  {
    Exec(r, Accepted(kind, name, fetch), ls)
  }

  lemma {:induction false} RunInv(r: Remote, kind: Kind, name: string, fetch: bool, ls: seq<Label>)
    ensures Inv(Run(r, kind, name, fetch, ls))
  {
    if ls == [] {
      AcceptedInv(kind, name, fetch);
    } else {
      RunInv(r, kind, name, fetch, ls[..|ls| - 1]);
      StepInv(r, Run(r, kind, name, fetch, ls[..|ls| - 1]), ls[|ls| - 1]);
    }
  }

  /** At most one coroutine is inside `_finalize_path`, whoever started it. */
  lemma SingleFinalizer(r: Remote, kind: Kind, name: string, fetch: bool, ls: seq<Label>, t: nat, u: nat)
    requires var m := Run(r, kind, name, fetch, ls).mem;
             t in m.tasks && InFinalize(m.tasks[t].pc) && u in m.tasks && InFinalize(m.tasks[u].pc)
    ensures t == u
  {
    RunInv(r, kind, name, fetch, ls);
  }

  /** Within one process, a file id once given is never replaced or dropped. */
  lemma FileIdOnce(r: Remote, kind: Kind, name: string, fetch: bool, ls: seq<Label>, l: Label)
    requires !l.IsCrash()
    ensures var w := Run(r, kind, name, fetch, ls);
            w.job.fileId.Some? ==> Step(r, w, l).job.fileId == w.job.fileId
  {
    RunInv(r, kind, name, fetch, ls);
    var w := Run(r, kind, name, fetch, ls);
    if w.job.fileId.Some? {
      match l
      case Go(t, event) => KeepsFileId(r, w, t, event);
      case _ =>
    }
  }

  lemma KeepsFileId(r: Remote, w: World, t: nat, event: Event)
    requires Inv(w) && w.job.fileId.Some?
    ensures GoStep(r, w, t, event).job.fileId == w.job.fileId
  {
  }

  /** Unless an append or a duration failed after its blob was placed, one process publishes one blob. */
  lemma OnePublished(r: Remote, kind: Kind, name: string, fetch: bool, ls: seq<Label>)
    ensures var s := Run(r, kind, name, fetch, ls).shelf; !s.leaked ==> |s.recent| <= 1
  {
    RunInv(r, kind, name, fetch, ls);
    var s := Run(r, kind, name, fetch, ls).shelf;
    if !s.leaked && s.recent != {} {
      var id :| id in s.recent;
      assert forall other <- s.recent :: Live(s, other) && Live(s, id);
      assert s.recent == {id};
    }
  }
}
