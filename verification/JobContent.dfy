/**
  What an HTTP job stores, and when: under a condition on `resume`, every run publishes the remote
  content and nothing else, and a finalization is not disturbed. Without it a partial file can be
  published.
 */
module JobContent {
  import opened Bytes
  import opened Manifest
  import opened Jobs
  import opened JobProofs
  import opened JobDurability

  // ----- the condition -----

  /** Finalizing or finalized: `resume` changes such a job if its pause flag is up. */
  predicate Busy(w: World)
  {
    w.job.status == Encrypting || w.job.status == Completed || (w.kind == Http && w.job.phase == EncryptingPhase)
  }

  predicate CalmStep(w: World, l: Label)
  {
    l.Resume? && ResumeApplies(w) ==> !Busy(w)
  }

  predicate Calm(r: Remote, w: World, ls: seq<Label>)
  {
    ls == [] || (Calm(r, w, ls[..|ls| - 1]) && CalmStep(Exec(r, w, ls[..|ls| - 1]), ls[|ls| - 1]))
  }

  // ----- the invariant of an HTTP job -----

  predicate WholeFile(r: Remote, final: string, files: map<string, bytes>)
  {
    final in files && files[final] == r.content
  }

  predicate FilesOk(r: Remote, final: string, files: map<string, bytes>)
  {
    && (forall n <- files :: n == final)
    && (final in files ==> files[final] <= r.content)
  }

  /** A record that says "encrypting" stands beside the whole file. */
  predicate SavedOk(r: Remote, name: string, final: string, s: Saved, files: map<string, bytes>)
  {
    && s.name in {name, final} && s.phase != PackingPhase
    && (s.phase == EncryptingPhase || s.status == Encrypting ==>
          && s.phase == EncryptingPhase && s.status in {Encrypting, Failed}
          && (final in files ==> WholeFile(r, final, files))
          && (s.status == Encrypting ==> WholeFile(r, final, files) && s.name == final))
  }

  predicate JsonOk(r: Remote, name: string, final: string, json: Option<Saved>, files: map<string, bytes>)
  {
    json.Some? ==> SavedOk(r, name, final, json.value, files)
  }

  /** The job in memory obeys the same, and a failure or an encryption on record is the job's own. */
  predicate JobOk(r: Remote, name: string, final: string, job: Job, json: Option<Saved>, files: map<string, bytes>)
  {
    job.status != Completed ==>
      && SavedOk(r, name, final, Snapshot(job), files)
      && (job.status == Failed ==> json.Some? && json.value.status == Failed)
      && (json.Some? && json.value.status == Encrypting ==> job.status == Encrypting)
  }

  /** Nothing says "encrypting". */
  predicate Quiet(job: Job, json: Option<Saved>)
  {
    && job.phase != EncryptingPhase && job.status != Encrypting
    && (json.Some? ==> json.value.phase != EncryptingPhase && json.value.status != Encrypting)
  }

  predicate PcOk(r: Remote, final: string, pc: Pc, job: Job, files: map<string, bytes>)
  {
    match pc
    case HttpTopSleep(dest) => dest == job.name
    case HttpPauseSleep(dest) => dest == job.name
    case HttpUnwinding(dest) => dest == job.name
    case HttpConnecting(dest, existing) =>
      dest == job.name && existing == (if dest in files then |files[dest]| else 0)
    case HttpStreaming(dest, rest, count) =>
      dest == job.name == final && final in files && files[final] + rest == r.content && count == |files[final]|
    case HttpClosing(dest) => dest == job.name == final && WholeFile(r, final, files)
    case FinalizeStart(path) =>
      path == job.name == final && WholeFile(r, final, files) && job.status == Encrypting && job.phase == EncryptingPhase
    case Appending(_) => WholeFile(r, final, files) && job.status == Encrypting && job.phase == EncryptingPhase
    case WritingDuration(_) => WholeFile(r, final, files) && job.status == Encrypting && job.phase == EncryptingPhase
    case _ => true
  }

  predicate TaskOk(r: Remote, final: string, k: Task, job: Job, json: Option<Saved>, files: map<string, bytes>)
  {
    && (k.pc.HttpStart? ==>
          && job.phase != EncryptingPhase && job.status != Encrypting
          && (json.Some? && json.value.phase == EncryptingPhase ==> json.value.status == Failed))
    && (InHttp(k.pc) && !k.pc.HttpStart? ==> Quiet(job, json))
    && (k.cancelled ==> InHttp(k.pc))
    && (!k.cancelled ==> PcOk(r, final, k.pc, job, files))
  }

  predicate ShelfOk(r: Remote, final: string, s: Shelf)
  {
    && (forall id <- s.uploads :: s.uploads[id].item == Item(r.content, final))
    && (forall id <- s.placed :: s.placed[id] == Item(r.content, final))
    && s.wiped == {}
  }

  predicate MemoryOk(r: Remote, final: string, w: World)
  {
    && (forall t <- w.mem.tasks :: TaskOk(r, final, w.mem.tasks[t], w.job, w.json, w.files))
    && (!w.mem.inStore ==> w.json == None && forall t <- w.mem.tasks :: w.mem.tasks[t].cancelled)
    && (w.job.fileId.Some? ==> w.job.status == Completed)
    && (w.job.status == Completed ==> w.job.phase == EncryptingPhase && w.files == map[])
  }

  predicate Whole(r: Remote, name: string, w: World)
  {
    var final := FinalName(r, name);
    && w.kind == Http
    && FilesOk(r, final, w.files) && JsonOk(r, name, final, w.json, w.files) && ShelfOk(r, final, w.shelf)
    && (w.mem.inStore ==> JobOk(r, name, final, w.job, w.json, w.files))
    && MemoryOk(r, final, w)
  }

  // ----- every calm step keeps it -----

  lemma AcceptedWhole(r: Remote, name: string)
    ensures Whole(r, name, Accepted(Http, name, false))
  {
  }

  lemma PauseWhole(r: Remote, name: string, w: World)
    requires Inv(w) && Clear(r, w) && Whole(r, name, w)
    ensures Whole(r, name, PauseStep(w))
  {
  }

  lemma ResumeWhole(r: Remote, name: string, w: World)
    requires Inv(w) && Clear(r, w) && Whole(r, name, w) && CalmStep(w, Resume)
    ensures Whole(r, name, ResumeStep(w))
  {
  }

  lemma RetryWhole(r: Remote, name: string, w: World, finished: bool, how: Reattach)
    requires Inv(w) && Clear(r, w) && Whole(r, name, w)
    ensures Whole(r, name, RetryStep(w, finished, how))
  {
    RetryHttpWhole(r, name, w.(job := w.job.(userPaused := false)));
  }

  lemma RetryHttpWhole(r: Remote, name: string, w: World)
    requires Inv(w) && Clear(r, w) && Whole(r, name, w)
    ensures w.mem.inStore && w.job.status == Failed && w.mem.registered == None ==> Whole(r, name, RetryHttp(w))
  {
    if w.mem.inStore && w.job.status == Failed && w.mem.registered == None {
      PlainFile(r, w, w.job.name, []);
      assert w.mem.tasks == map[];
      var v := RetryHttp(w);
      if w.job.phase == EncryptingPhase && w.job.name in w.files {
        assert v.mem.tasks == map[w.mem.nextTask := Task(FinalizeBody, FinalizeStart(w.job.name), false)];
      } else {
        assert v.mem.tasks == map[w.mem.nextTask := Task(HttpBody, HttpStart, false)];
      }
    }
  }

  lemma CancelWhole(r: Remote, name: string, w: World)
    requires Inv(w) && Clear(r, w) && Whole(r, name, w)
    ensures Whole(r, name, CancelStep(w))
  {
    if Cancellable(w) {
      if w.mem.registered.Some? {
        assert InHttp(w.mem.tasks[w.mem.registered.value].pc);
      } else {
        assert forall t <- w.mem.tasks :: w.mem.tasks[t].cancelled;
      }
    }
  }

  lemma CancelFinishWhole(r: Remote, name: string, w: World, t: nat)
    requires Inv(w) && Clear(r, w) && Whole(r, name, w)
    ensures Whole(r, name, CancelFinishStep(w, t))
  {
  }

  lemma FlushWhole(r: Remote, name: string, w: World)
    requires Inv(w) && Clear(r, w) && Whole(r, name, w)
    ensures Whole(r, name, FlushStep(w))
  {
  }

  lemma ThreadWhole(r: Remote, name: string, w: World, id: string, ok: bool)
    requires Inv(w) && Clear(r, w) && Whole(r, name, w)
    ensures Whole(r, name, ThreadStep(w, id, ok))
  {
  }

  lemma LoopTopWhole(r: Remote, name: string, w: World, t: nat, dest: string)
    requires Inv(w) && Clear(r, w) && Whole(r, name, w) && Running(w, t) && dest == w.job.name
    requires w.mem.tasks[t].pc.HttpStart? || w.mem.tasks[t].pc.HttpTopSleep? || w.mem.tasks[t].pc.HttpPauseSleep?
    ensures Whole(r, name, LoopTop(r, w, t, dest))
  {
  }

  lemma UnwindWhole(r: Remote, name: string, w: World, t: nat, dest: string)
    requires Inv(w) && Clear(r, w) && Whole(r, name, w) && Running(w, t) && w.mem.tasks[t].pc == HttpUnwinding(dest)
    ensures Whole(r, name, Persist(SetStatus(w, Paused)).(mem := At(w.mem, t, HttpPauseSleep(dest))))
  {
  }

  lemma Written(content: bytes, before: bytes, rest: bytes, m: nat)
    requires before + rest == content && m <= |rest|
    ensures (before + rest[..m]) + rest[m..] == content && before + rest[..m] <= content
  {
    assert rest == rest[..m] + rest[m..];
  }

  lemma ChunkWhole(r: Remote, name: string, w: World, t: nat, n: nat)
    requires Inv(w) && Clear(r, w) && Whole(r, name, w) && Running(w, t) && w.mem.tasks[t].pc.HttpStreaming?
    ensures Whole(r, name, ChunkStep(r, w, t, n))
  {
    var v := ChunkStep(r, w, t, n);
    var final, rest := FinalName(r, name), w.mem.tasks[t].pc.rest;
    assert w.files[final] + rest == r.content;
    if rest == [] || w.job.userPaused {
      assert v.files == w.files && v.job == w.job;
    } else {
      var m := if n == 0 then 1 else if n <= |rest| then n else |rest|;
      Written(r.content, w.files[final], rest, m);
      assert v.files == w.files[final := w.files[final] + rest[..m]];
      assert PcOk(r, final, v.mem.tasks[t].pc, v.job, v.files);
    }
  }

  lemma BreakWhole(r: Remote, name: string, w: World, t: nat)
    requires Inv(w) && Clear(r, w) && Whole(r, name, w) && Running(w, t)
    ensures Whole(r, name, BreakStep(w, t))
  {
  }

  /** After any number of its disk writes, an answer leaves a prefix under the final name. */
  lemma AnswerFiles(r: Remote, name: string, w: World, existing: nat, partial: bool, writes: nat)
    requires FilesOk(r, FinalName(r, name), w.files) && w.job.name in {name, FinalName(r, name)}
    requires existing == (if w.job.name in w.files then |w.files[w.job.name]| else 0)
    ensures var final := FinalName(r, name);
            var files := PlainWrites(r, w, w.job.name, existing, partial, writes);
            && Announced(r, w, w.job.name) == final && FilesOk(r, final, files)
            && (writes == 5 ==>
                  final in files && files[final] == if SendsRest(r, existing, partial) then w.files[final] else [])
  {
  }

  lemma AnsweredWhole(r: Remote, name: string, w: World, t: nat, pc: Pc, v: World)
    requires Inv(w) && Clear(r, w) && Whole(r, name, w) && Running(w, t) && w.mem.tasks[t].pc.HttpConnecting?
    requires v == w.(files := v.files, clash := v.clash, json := v.json, job := w.job.(name := FinalName(r, name)),
                     mem := At(w.mem, t, pc))
    requires v.json == w.json || v.json == Some(Snapshot(v.job))
    requires pc.HttpStreaming? && PcOk(r, FinalName(r, name), pc, v.job, v.files) && FilesOk(r, FinalName(r, name), v.files)
    ensures Whole(r, name, v)
  {
  }

  /** An answer that is not an error starts a stream to the final name, from where its file ends. */
  lemma AnswerStreams(r: Remote, name: string, w: World, t: nat, partial: bool)
    requires Clear(r, w) && w.kind == Http && Running(w, t) && w.mem.tasks[t].pc.HttpConnecting?
    requires FilesOk(r, FinalName(r, name), w.files) && w.job.name in {name, FinalName(r, name)}
    requires PcOk(r, FinalName(r, name), w.mem.tasks[t].pc, w.job, w.files)
    requires !(w.mem.tasks[t].pc.existing > 0 && partial && w.mem.tasks[t].pc.existing >= |r.content|)
    ensures var v := AnswerStep(r, w, t, partial);
            && v == w.(files := v.files, clash := v.clash, json := v.json, job := w.job.(name := FinalName(r, name)),
                       mem := v.mem)
            && (v.json == w.json || v.json == Persist(w.(job := v.job)).json)
            && t in v.mem.tasks && v.mem == At(w.mem, t, v.mem.tasks[t].pc) && v.mem.tasks[t].pc.HttpStreaming?
            && PcOk(r, FinalName(r, name), v.mem.tasks[t].pc, v.job, v.files) && FilesOk(r, FinalName(r, name), v.files)
  {
    var pc, final := w.mem.tasks[t].pc, FinalName(r, name);
    PlainAnswer(r, w, pc.dest, pc.existing, partial, 5);
    AnswerFiles(r, name, w, pc.existing, partial, 5);
    if SendsRest(r, pc.existing, partial) {
      assert w.files[final] + r.content[pc.existing..] == r.content;
    }
  }

  lemma AnswerWhole(r: Remote, name: string, w: World, t: nat, partial: bool)
    requires Inv(w) && Clear(r, w) && Whole(r, name, w) && Running(w, t) && w.mem.tasks[t].pc.HttpConnecting?
    ensures Whole(r, name, AnswerStep(r, w, t, partial))
  {
    var pc := w.mem.tasks[t].pc;
    if pc.existing > 0 && partial && pc.existing >= |r.content| {
      BreakWhole(r, name, w, t);
    } else {
      AnswerStreams(r, name, w, t, partial);
      var v := AnswerStep(r, w, t, partial);
      AnsweredWhole(r, name, w, t, v.mem.tasks[t].pc, v);
    }
  }

  lemma CancellingWhole(r: Remote, name: string, w: World, t: nat)
    requires Inv(w) && Clear(r, w) && Whole(r, name, w) && t in w.mem.tasks && w.mem.tasks[t].cancelled
    ensures Whole(r, name, Cancelling(w, t))
  {
  }

  /** `_finalize_path` is only ever given the whole file. */
  lemma BeginWhole(r: Remote, name: string, w: World, t: nat, id: string, path: string)
    requires Inv(w) && Clear(r, w) && Whole(r, name, w) && Running(w, t)
    requires w.mem.tasks[t].pc == HttpClosing(path) || w.mem.tasks[t].pc == FinalizeStart(path)
    ensures ItemAt(r, StartEncrypting(w, IsFile(w, path)), path) == Some(Item(r.content, FinalName(r, name)))
    ensures Whole(r, name, FinalizeHttp(r, w, t, id, path))
  {
    PlainFile(r, w, path, []);
    assert PcOk(r, FinalName(r, name), w.mem.tasks[t].pc, w.job, w.files);
    HandsWhole(r, name, w, t, id);
  }

  lemma HandsWhole(r: Remote, name: string, w: World, t: nat, id: string)
    requires Inv(w) && Whole(r, name, w) && Running(w, t) && WholeFile(r, FinalName(r, name), w.files)
    requires w.mem.inStore && w.job.name == FinalName(r, name) && w.kind == Http
    requires w.job.phase != PackingPhase && w.job.fileId == None
    ensures Whole(r, name, BeginFinalize(w, t, id, true, Some(Item(r.content, FinalName(r, name)))))
  {
  }

  lemma AwaitAppendWhole(r: Remote, name: string, w: World, t: nat, id: string)
    requires Inv(w) && Clear(r, w) && Whole(r, name, w) && Running(w, t) && w.mem.tasks[t].pc == Appending(id)
    ensures Whole(r, name, AwaitAppend(w, t, id))
  {
    if id in w.shelf.uploads && w.shelf.uploads[id].stage == Broken {
      BreakWhole(r, name, w, t);
    }
  }

  lemma CompleteWhole(r: Remote, name: string, w: World, t: nat, id: string)
    requires Inv(w) && Clear(r, w) && Whole(r, name, w) && Running(w, t) && w.mem.tasks[t].pc == WritingDuration(id)
    ensures Whole(r, name, Complete(w, t, id))
  {
  }

  lemma RestoreWhole(r: Remote, name: string, w: World)
    requires Blank(w) && w.kind == Http && w.job.name != JOB_STATE && w.json == Some(Snapshot(w.job))
    requires ShelfOk(r, FinalName(r, name), w.shelf)
    requires FilesOk(r, FinalName(r, name), w.files) && JsonOk(r, name, FinalName(r, name), w.json, w.files)
    ensures Whole(r, name, RestoreHttp(w))
  {
    var v, final := RestoreHttp(w), FinalName(r, name);
    assert SavedOk(r, name, final, Snapshot(w.job), w.files);
    RestoredHttp(w);
    assert v.mem.tasks == map[] || v.mem.tasks.Keys == {0};
  }

  /** What `_restore_http` starts. */
  lemma RestoredHttp(w: World)
    requires Blank(w) && w.job.name != JOB_STATE && Persistable(w.job.status) && w.json == Some(Snapshot(w.job))
    ensures var v := RestoreHttp(w);
            var finalize := (w.job.status == Encrypting || w.job.phase == EncryptingPhase || w.job.phase == PackingPhase)
                            && w.job.name in w.files;
            && v == w.(job := v.job, mem := v.mem, json := Some(Snapshot(v.job)), clash := NO_CLASH)
            && v.job == w.job.(status := v.job.status, userPaused := v.job.userPaused)
            && (if w.job.status == Failed then v.mem == w.mem && v.job == w.job
                else if finalize then
                  v.mem == Spawn(w.mem, FinalizeBody, FinalizeStart(w.job.name)) && v.job == w.job.(status := Encrypting)
                else v.mem == Spawn(w.mem, HttpBody, HttpStart) && v.job.status in {Paused, Downloading})
  {
  }

  lemma RestartWhole(r: Remote, name: string, w: World, how: Reattach)
    requires w.kind == Http && DiskLasting(r, w) && ShelfOk(r, FinalName(r, name), w.shelf)
    requires FilesOk(r, FinalName(r, name), w.files) && JsonOk(r, name, FinalName(r, name), w.json, w.files)
    ensures Whole(r, name, Restart(r, w, how))
  {
    if w.json.Some? {
      RestoreWhole(r, name, Reloaded(w, w.json.value));
    }
  }

  lemma LoseBufferFiles(r: Remote, name: string, w: World, keep: nat)
    requires Inv(w) && Clear(r, w) && Whole(r, name, w)
    ensures FilesOk(r, FinalName(r, name), LoseBuffer(w, keep).files)
    ensures JsonOk(r, name, FinalName(r, name), w.json, LoseBuffer(w, keep).files)
  {
  }

  lemma CrashInAnswerWhole(r: Remote, name: string, w: World, t: nat, partial: bool, writes: nat, how: Reattach)
    requires Inv(w) && Lasting(r, w) && Whole(r, name, w)
    ensures Whole(r, name, CrashInAnswerStep(r, w, t, partial, writes, how))
  {
    if CrashInAnswerStep(r, w, t, partial, writes, how) != w {
      var pc := w.mem.tasks[t].pc;
      AnswerSaves(r, w, pc.dest, pc.existing, partial, writes);
      PlainAnswer(r, w, pc.dest, pc.existing, partial, writes);
      AnswerFiles(r, name, w, pc.existing, partial, writes);
      RestartWhole(r, name, AnswerWrites(r, w, pc.dest, pc.existing, partial, writes), how);
    }
  }

  lemma CrashWhole(r: Remote, name: string, w: World, l: Label)
    requires Inv(w) && Lasting(r, w) && Whole(r, name, w) && l.IsCrash()
    ensures Whole(r, name, Step(r, w, l))
  {
    StepIsCrash(r, w, l);
    match l
    case Crash(keep, how) =>
      LoseBufferFiles(r, name, w, keep);
      RestartWhole(r, name, LoseBuffer(w, keep), how);
    case CrashInAnswer(t, partial, writes, how) => CrashInAnswerWhole(r, name, w, t, partial, writes, how);
    case CrashInAcquire(t, how) =>
    case CrashInComplete(t, how) =>
      if Step(r, w, l) != w {
        assert Started(w.mem.tasks[t].pc, w.shelf);
        RestartWhole(r, name, w.(json := None, clash := NO_CLASH), how);
      }
    case CrashInCancel(removed, jsonToo, how) =>
      if Step(r, w, l) != w {
        RestartWhole(r, name, PartlyCancelled(w, removed, jsonToo), how);
      }
  }

  lemma HttpTurnWhole(r: Remote, name: string, w: World, t: nat, event: Event)
    requires Inv(w) && Clear(r, w) && Whole(r, name, w) && Running(w, t)
    ensures Whole(r, name, HttpTurn(r, w, t, event))
  {
    match w.mem.tasks[t].pc
    case HttpStart => LoopTopWhole(r, name, w, t, w.job.name);
    case HttpTopSleep(dest) => LoopTopWhole(r, name, w, t, dest);
    case HttpPauseSleep(dest) => LoopTopWhole(r, name, w, t, dest);
    case HttpConnecting(_, _) => if event.Answer? { AnswerWhole(r, name, w, t, event.partial); }
    case HttpStreaming(_, _, _) => if event.Chunk? { ChunkWhole(r, name, w, t, event.n); }
    case HttpUnwinding(dest) => UnwindWhole(r, name, w, t, dest);
    case _ =>
  }

  lemma FinalizeTurnWhole(r: Remote, name: string, w: World, t: nat, event: Event)
    requires Inv(w) && Clear(r, w) && Whole(r, name, w) && Running(w, t) && Finishing(w.mem.tasks[t].pc)
    ensures Whole(r, name, FinalizeTurn(r, w, t, event))
  {
    match w.mem.tasks[t].pc
    case HttpClosing(path) => if event.Proceed? && FreshId(w, event.id) { BeginWhole(r, name, w, t, event.id, path); }
    case FinalizeStart(path) => if event.Proceed? && FreshId(w, event.id) { BeginWhole(r, name, w, t, event.id, path); }
    case Appending(id) => AwaitAppendWhole(r, name, w, t, id);
    case WritingDuration(id) => if event.Tick? { CompleteWhole(r, name, w, t, id); }
  }

  lemma GoWhole(r: Remote, name: string, w: World, t: nat, event: Event)
    requires Inv(w) && Clear(r, w) && Whole(r, name, w)
    ensures Whole(r, name, GoStep(r, w, t, event))
  {
    if t in w.mem.tasks {
      if w.mem.tasks[t].cancelled {
        CancellingWhole(r, name, w, t);
      } else if event.Break? && MayBreak(w.mem.tasks[t].pc) {
        BreakWhole(r, name, w, t);
      } else if Finishing(w.mem.tasks[t].pc) {
        FinalizeTurnWhole(r, name, w, t, event);
      } else {
        HttpTurnWhole(r, name, w, t, event);
      }
    }
  }

  lemma StepWhole(r: Remote, name: string, w: World, l: Label)
    requires Inv(w) && Lasting(r, w) && Whole(r, name, w) && CalmStep(w, l)
    ensures Whole(r, name, Step(r, w, l))
  {
    match l
    case Pause => PauseWhole(r, name, w);
    case Resume => ResumeWhole(r, name, w);
    case Retry(finished, how) => RetryWhole(r, name, w, finished, how);
    case Cancel => CancelWhole(r, name, w);
    case CancelFinish(t) => CancelFinishWhole(r, name, w, t);
    case Flush => FlushWhole(r, name, w);
    case PollScan(raises, finished) =>
    case Go(t, event) => GoWhole(r, name, w, t, event);
    case Thread(id, ok) => ThreadWhole(r, name, w, id, ok);
    case _ => CrashWhole(r, name, w, l);
  }

  lemma {:induction false} RunWhole(r: Remote, name: string, ls: seq<Label>)
    requires Usable(r, name) && Calm(r, Accepted(Http, name, false), ls)
    ensures var w := Run(r, Http, name, false, ls); Inv(w) && Lasting(r, w) && Whole(r, name, w)
  {
    RunInv(r, Http, name, false, ls);
    RunLasting(r, Http, name, false, ls);
    if ls == [] {
      AcceptedWhole(r, name);
    } else {
      var w := Run(r, Http, name, false, ls[..|ls| - 1]);
      RunWhole(r, name, ls[..|ls| - 1]);
      StepWhole(r, name, w, ls[|ls| - 1]);
    }
  }
}
