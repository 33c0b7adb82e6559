/**
  What the turns of a job's coroutines, its encryption threads and its restart do, told from outside:
  what an answer, an exception, a cancellation and a completion leave in the job, on disk and of the
  coroutine.
 */
module JobTurns {
  import opened Bytes
  import opened Manifest
  import opened Jobs
  import opened JobProofs
  import opened JobDurability
  import opened JobContent
  import opened JobResults
  import opened JobRequests

  const COMPLETION := Task(CompleteBody, CompleteWaiting, false)

  const FETCH := Task(FetchBody, FetchStart, false)

  /** The coroutine `t` is gone, with its place in the table and its lock; the others are as they were. */
  predicate Gone(w: World, v: World, t: nat)
  {
    && v.mem.tasks == w.mem.tasks - {t} && v.mem.lock == (if w.mem.lock == Some(t) then None else w.mem.lock)
    && v.mem.inStore == w.mem.inStore && v.mem.handle == w.mem.handle
  }

  /** Only the coroutine `t` has moved, to `pc`. */
  predicate Moved(w: World, v: World, t: nat, pc: Pc)
  {
    t in w.mem.tasks && v.mem == w.mem.(tasks := w.mem.tasks[t := w.mem.tasks[t].(pc := pc)])
  }

  /** The job is failed, and saved as that; its files are kept for a retry. */
  predicate Failing(w: World, v: World)
  {
    && v.job == w.job.(status := Failed) && v.json == Some(Snapshot(v.job)) && v.files == w.files
    && v.shelf == w.shelf.(leaked := v.shelf.leaked) && v.gone == w.gone
  }

  // ----- the download -----

  /** At the top of the loop a paused download goes to sleep without asking for anything; both cases are saved. */
  lemma TopExactly(r: Remote, w: World, t: nat, dest: string, event: Event)
    requires w.kind == Http && Running(w, t) && PlainName(dest) && dest != JOB_STATE
    requires (w.mem.tasks[t].pc == HttpStart && w.job.name == dest) || w.mem.tasks[t].pc == HttpTopSleep(dest)
    ensures var v := Step(r, w, Go(t, event));
            && v.files == w.files && v.json == Some(Snapshot(v.job))
            && v.job == w.job.(status := if w.job.userPaused then Paused else Downloading)
            && Moved(w, v, t, if w.job.userPaused then HttpTopSleep(dest)
                              else HttpConnecting(dest, if dest in w.files then |w.files[dest]| else 0))
  {
    StepIsGo(r, w, t, event);
  }

  /** A download sleeps on after a pause until it is resumed or cancelled, and then starts its loop over. */
  lemma SleepsExactly(r: Remote, w: World, t: nat, event: Event)
    requires w.kind == Http && Running(w, t) && w.mem.tasks[t].pc.HttpPauseSleep?
    ensures Step(r, w, Go(t, event)) == w <==> w.job.userPaused && w.job.status != Cancelled
    ensures !w.job.userPaused || w.job.status == Cancelled ==>
              var v := Step(r, w, Go(t, event));
              && v.files == w.files && v.json == Some(Snapshot(v.job))
              && v.job == w.job.(status := if w.job.userPaused then Paused else Downloading)
  {
    StepIsGo(r, w, t, event);
  }

  /** A chunk that arrives unpaused is appended and counted; how long it is, is up to the connection. */
  lemma ChunkExactly(r: Remote, w: World, t: nat, n: nat)
    requires w.kind == Http && Running(w, t) && w.mem.tasks[t].pc.HttpStreaming? && w.mem.tasks[t].pc.dest in w.files
    requires w.mem.tasks[t].pc.dest != JOB_STATE && w.mem.tasks[t].pc.rest != [] && !w.job.userPaused && n > 0
    ensures var v, pc := Step(r, w, Go(t, Chunk(n))), w.mem.tasks[t].pc;
            var m := if n <= |pc.rest| then n else |pc.rest|;
            && v.files == w.files[pc.dest := w.files[pc.dest] + pc.rest[..m]]
            && v.job == w.job.(downloaded := pc.count + m, phase := HttpPhase)
            && v.json == w.json && v.shelf == w.shelf
            && Moved(w, v, t, HttpStreaming(pc.dest, pc.rest[m..], pc.count + m))
  {
    StepIsGo(r, w, t, Chunk(n));
  }

  /** At the end of its body a download goes on to its finalization, paused or not; nothing else happens. */
  lemma EndExactly(r: Remote, w: World, t: nat, n: nat)
    requires w.kind == Http && Running(w, t) && w.mem.tasks[t].pc.HttpStreaming? && w.mem.tasks[t].pc.rest == []
    ensures var v := Step(r, w, Go(t, Chunk(n)));
            v == w.(mem := v.mem) && Moved(w, v, t, HttpClosing(w.mem.tasks[t].pc.dest))
  {
    StepIsGo(r, w, t, Chunk(n));
  }

  /** After a pause the job is saved as paused before it sleeps. */
  lemma UnwindsPaused(r: Remote, w: World, t: nat, event: Event)
    requires w.kind == Http && Running(w, t) && w.mem.tasks[t].pc.HttpUnwinding? && !event.Break?
    ensures var v := Step(r, w, Go(t, event));
            && v.job == w.job.(status := Paused) && v.json == Some(Snapshot(v.job)) && v.files == w.files
            && Moved(w, v, t, HttpPauseSleep(w.mem.tasks[t].pc.dest))
  {
    StepIsGo(r, w, t, event);
  }

  /** A range the server cannot satisfy fails the job; it is not taken for a complete file. */
  lemma RangeRefused(r: Remote, w: World, t: nat)
    requires w.kind == Http && Running(w, t) && w.mem.tasks[t].pc.HttpConnecting?
    requires 0 < w.mem.tasks[t].pc.existing && |r.content| <= w.mem.tasks[t].pc.existing
    ensures var v := Step(r, w, Go(t, Answer(true))); Failing(w, v) && Gone(w, v, t)
  {
    StepIsGo(r, w, t, Answer(true));
  }

  /** An answer with everything starts over: the old bytes go, and the whole content is to come. */
  lemma WholeAnswer(r: Remote, name: string, w: World, t: nat, partial: bool)
    requires Clear(r, w) && w.kind == Http && Running(w, t) && w.mem.tasks[t].pc.HttpConnecting?
    requires FilesOk(r, FinalName(r, name), w.files) && w.job.name in {name, FinalName(r, name)}
    requires PcOk(r, FinalName(r, name), w.mem.tasks[t].pc, w.job, w.files)
    requires !partial || w.mem.tasks[t].pc.existing == 0
    ensures var v := Step(r, w, Go(t, Answer(partial)));
            && v.files == map[FinalName(r, name) := []] && v.job == w.job.(name := FinalName(r, name))
            && Moved(w, v, t, HttpStreaming(FinalName(r, name), r.content, 0))
  {
    StepIsGo(r, w, t, Answer(partial));
    AnswerStreams(r, name, w, t, partial);
    AnswerFiles(r, name, w, w.mem.tasks[t].pc.existing, partial, 5);
    PlainAnswer(r, w, w.mem.tasks[t].pc.dest, w.mem.tasks[t].pc.existing, partial, 5);
  }

  // ----- the ends of a coroutine -----

  /** An exception fails and saves the job, keeps its files, and ends the coroutine, which frees the lock. */
  lemma BreakExactly(r: Remote, w: World, t: nat)
    requires Running(w, t) && MayBreak(w.mem.tasks[t].pc)
    ensures var v := Step(r, w, Go(t, Break)); Failing(w, v) && Gone(w, v, t)
  {
    StepIsGo(r, w, t, Break);
  }

  /** A cancelled coroutine ends at its next turn; the job is cancelled, unless the coroutine never ran. */
  lemma CancelledTurn(r: Remote, w: World, t: nat, event: Event)
    requires t in w.mem.tasks && w.mem.tasks[t].cancelled
    ensures var v := Step(r, w, Go(t, event));
            && v.mem.tasks == w.mem.tasks - {t} && v.files == w.files && v.json == w.json && v.shelf == w.shelf
            && v.job == w.job.(status := if w.mem.tasks[t].pc in {HttpStart, FetchStart} then w.job.status else Cancelled)
  {
    StepIsGo(r, w, t, event);
  }

  // ----- finalization -----

  /** The finalization of a download marks and saves the job, and starts one thread, on its file. */
  lemma FinalizeExactly(r: Remote, w: World, t: nat, id: string, path: string)
    requires w.kind == Http && Running(w, t) && w.mem.tasks[t].pc in {HttpClosing(path), FinalizeStart(path)}
    requires FreshId(w, id) && path != JOB_STATE && path in w.files
    ensures var v := Step(r, w, Go(t, Proceed(id)));
            && v.job == w.job.(status := Encrypting, phase := EncryptingPhase, downloaded := 0)
            && v.json == Some(Snapshot(v.job)) && v.files == w.files && Moved(w, v, t, Appending(id))
            && v.shelf == w.shelf.(uploads := w.shelf.uploads[id := Upload(Item(w.files[path], path), Sealing)])
  {
    StepIsGo(r, w, t, Proceed(id));
  }

  /** Without its file, the finalization fails: the thread has nothing to encrypt. */
  lemma NoFileNoUpload(r: Remote, w: World, t: nat, id: string, path: string)
    requires w.kind == Http && Running(w, t) && w.mem.tasks[t].pc in {HttpClosing(path), FinalizeStart(path)}
    requires FreshId(w, id) && path != JOB_STATE && path !in w.files
    ensures var v := Step(r, Step(r, w, Go(t, Proceed(id))), Go(t, Tick));
            v.job.status == Failed && v.json == Some(Snapshot(v.job)) && t !in v.mem.tasks
            && v.shelf.placed == w.shelf.placed
  {
    var u := GoStep(r, w, t, Proceed(id));
    StepIsGo(r, w, t, Proceed(id));
    assert u == FinalizeHttp(r, w, t, id, path);
    StepIsGo(r, u, t, Tick);
    assert GoStep(r, u, t, Tick) == AwaitAppend(u, t, id);
  }

  /** The coroutine goes on from its append when the row is there, fails when the append raised, and else waits. */
  lemma AppendExactly(r: Remote, w: World, t: nat, id: string, event: Event)
    requires Running(w, t) && w.mem.tasks[t].pc == Appending(id) && id in w.shelf.uploads
    ensures var v := Step(r, w, Go(t, event));
            && (w.shelf.uploads[id].stage == RowWritten ==> v == w.(mem := v.mem) && Moved(w, v, t, WritingDuration(id)))
            && (w.shelf.uploads[id].stage == Broken ==> Failing(w, v) && Gone(w, v, t))
            && (w.shelf.uploads[id].stage in {Sealing, BlobPlaced} ==> v == w)
  {
    StepIsGo(r, w, t, event);
  }

  /** The last section gives the job its file id and leaves nothing else of it: no record, no work file. */
  lemma CompleteExactly(r: Remote, w: World, t: nat, id: string)
    requires Running(w, t) && w.mem.tasks[t].pc == WritingDuration(id)
    ensures var v := Step(r, w, Go(t, Tick));
            && v.job == w.job.(status := Completed, fileId := Some(id), name := id)
            && v.json == None && v.clash == NO_CLASH && v.files == map[] && v.shelf == w.shelf && v.gone == w.gone
            && v.mem.tasks == w.mem.tasks - {t} && v.mem.inStore == w.mem.inStore
  {
    StepIsGo(r, w, t, Tick);
  }

  /** A thread places the blob, then writes the row; a failure stops it where it is. */
  lemma ThreadExactly(r: Remote, w: World, id: string, ok: bool)
    requires id in w.shelf.uploads
    ensures var u, v := w.shelf.uploads[id], Step(r, w, Thread(id, ok));
            && v == w.(shelf := v.shelf) && v.shelf.wiped == w.shelf.wiped
            && v.shelf.uploads == w.shelf.uploads[id := v.shelf.uploads[id]] && v.shelf.uploads[id].item == u.item
            && v.shelf.placed == (if u.stage == Sealing && ok then w.shelf.placed[id := u.item] else w.shelf.placed)
            && v.shelf.listed == (if u.stage == BlobPlaced && ok then w.shelf.listed + {id} else w.shelf.listed)
            && v.shelf.uploads[id].stage == (if u.stage in {RowWritten, Broken} then u.stage
                                             else if !ok then Broken
                                             else if u.stage == Sealing then BlobPlaced else RowWritten)
  {
    assert w.shelf.uploads[id := w.shelf.uploads[id]] == w.shelf.uploads;
  }

  // ----- a torrent -----

  /** Once its `.torrent` file is there, a torrent is attached and saved as downloading; its fetch is over. */
  lemma FetchExactly(r: Remote, w: World, t: nat)
    requires w.kind == Torrent && Running(w, t) && w.mem.tasks[t].pc.Fetching?
    ensures var v := Step(r, w, Go(t, Tick));
            && v.mem.handle && v.mem.tasks == w.mem.tasks - {t} && v.mem.inStore == w.mem.inStore
            && v.job == w.job.(status := Downloading) && v.json == Some(Snapshot(v.job))
            && v.files == w.files && v.shelf == w.shelf
  {
    StepIsGo(r, w, t, Tick);
  }

  /** A new job is on record from the start; a download starts, a torrent is fetched, or is attached at once. */
  lemma AcceptedExactly(kind: Kind, name: string, fetch: bool)
    ensures var w := Accepted(kind, name, fetch);
            && w.kind == kind && w.mem.inStore && w.job.name == name && w.job.fileId == None
            && w.job.status == Downloading && !w.job.userPaused && w.json == Some(Snapshot(w.job))
            && w.files == map[] && w.shelf.placed == map[] && !w.gone
            && (kind == Http ==> w.mem.tasks == map[0 := Task(HttpBody, HttpStart, false)] && w.mem.registered == Some(0))
            && (kind == Torrent && fetch ==> w.mem.tasks == map[0 := FETCH] && w.mem.registered == Some(0) && !w.mem.handle)
            && (kind == Torrent && !fetch ==> w.mem.tasks == map[] && w.mem.handle)
  {
  }


  /** It starts only with the lock free and the job still there, attached, and not being finalized or done. */
  lemma LockExactly(r: Remote, w: World, t: nat, event: Event)
    requires w.kind == Torrent && Running(w, t) && w.mem.tasks[t].pc.CompleteWaiting?
    requires event.Bundle? && (event.pack || FreshId(w, event.id))
    ensures var v := Step(r, w, Go(t, event));
            var wanted := w.mem.inStore && w.mem.handle && w.job.status !in {Encrypting, Completed};
            && (w.mem.lock.Some? ==> v == w)
            && (w.mem.lock == None && !wanted ==> v == w.(mem := v.mem) && Gone(w, v, t))
            && (w.mem.lock == None && wanted ==>
                  && v.mem.lock == Some(t) && v.job.status == Encrypting && v.job.downloaded == 0
                  && v.json == Some(Snapshot(v.job)) && v.files == w.files
                  && v.mem.tasks == w.mem.tasks[t := w.mem.tasks[t].(pc := if event.pack then CompletePacking
                                                                          else Appending(event.id))]
                  && v.job.phase == (if event.pack then PackingPhase else EncryptingPhase)
                  && v.shelf == (if event.pack then w.shelf
                                 else w.shelf.(uploads := w.shelf.uploads[event.id := Upload(event.item, Sealing)])))
  {
    StepIsGo(r, w, t, event);
  }

  /** What was packed is what the thread gets, under the name of what was packed. */
  lemma PackedExactly(r: Remote, w: World, t: nat, event: Event)
    requires w.kind == Torrent && Running(w, t) && w.mem.tasks[t].pc.CompletePacking?
    requires event.Bundle? && FreshId(w, event.id)
    ensures var v := Step(r, w, Go(t, event));
            && v.job == w.job.(status := Encrypting, phase := EncryptingPhase, downloaded := 0, name := event.item.name)
            && v.json == Some(Snapshot(v.job)) && v.files == w.files && Moved(w, v, t, Appending(event.id))
            && v.shelf == w.shelf.(uploads := w.shelf.uploads[event.id := Upload(event.item, Sealing)])
  {
    StepIsGo(r, w, t, event);
  }

  // ----- a restart -----

  /** The process that starts on a disk whose record is `s`. */
  predicate Reborn(w: World, v: World)
  {
    && v.mem.inStore && v.mem.lock == None && v.mem.cancelling == {} && v.files == w.files && v.gone == w.gone
    && v.shelf == w.shelf.(uploads := map[], recent := {}, leaked := false) && v.job.fileId == None
    && v.json == Some(Snapshot(v.job))
  }

  /**
    A download is taken up again as its record says: a failed one stays failed, one that was being
    finalized is finalized if its file is there, a paused one waits, and any other goes on.
   */
  lemma RestartHttpExactly(r: Remote, w: World, s: Saved, how: Reattach)
    requires w.kind == Http && w.json == Some(s) && Persistable(s.status) && s.name != JOB_STATE
    ensures var v := Restart(r, w, how);
            var finalize := (s.status == Encrypting || s.phase in {PackingPhase, EncryptingPhase}) && s.name in w.files;
            var paused := s.status == Paused || s.userPaused;
            && Reborn(w, v) && v.job.name == s.name && v.job.phase == s.phase && v.job.downloaded == s.downloaded
            && (s.status == Failed ==> v.job.status == Failed && v.mem.tasks == map[])
            && (s.status != Failed && finalize ==>
                  v.job.status == Encrypting && v.mem.tasks == map[0 := Task(FinalizeBody, FinalizeStart(s.name), false)])
            && (s.status != Failed && !finalize ==>
                  && v.job.status == (if paused then Paused else Downloading) && v.job.userPaused == paused
                  && v.mem.tasks == map[0 := Task(HttpBody, HttpStart, false)] && v.mem.registered == Some(0))
  {
    var base := Reloaded(w, s);
    assert IsFile(base, s.name) <==> s.name in w.files;
    if s.status != Failed {
      assert Spawn(base.mem, HttpBody, HttpStart).tasks == map[0 := Task(HttpBody, HttpStart, false)];
    }
  }

  predicate WasFinalizing(s: Saved)
  {
    s.status != Failed && (s.status == Encrypting || s.phase in {PackingPhase, EncryptingPhase})
  }

  /** What the record makes of a torrent that could be attached or is fetched again. */
  predicate TakenUp(s: Saved, job: Job)
  {
    var paused := s.status == Paused || s.userPaused;
    && job.name == s.name && job.phase == s.phase
    && (WasFinalizing(s) ==> job.status == Downloading && !job.userPaused)
    && (!WasFinalizing(s) && s.status != Failed ==>
          job.status == (if paused then Paused else Downloading) && job.userPaused == paused)
  }

  /**
    A torrent that can be attached again is completed again if its record says it was being packed or
    encrypted, paused or not, and otherwise goes on, waits, or stays failed.
   */
  lemma RestartAttached(r: Remote, w: World, s: Saved)
    requires w.kind == Torrent && w.json == Some(s) && Persistable(s.status)
    ensures var v := Restart(r, w, Attached);
            && Reborn(w, v) && TakenUp(s, v.job) && v.mem.handle && v.mem.registered == None
            && (s.status == Failed ==> v.job.status == Failed)
            && v.mem.tasks == if WasFinalizing(s) then map[0 := COMPLETION] else map[]
  {
    var attached := ReattachStep(Reloaded(w, s), Attached);
    assert attached == Reloaded(w, s).(mem := NO_MEMORY.(inStore := true, handle := true));
    if WasFinalizing(s) {
      assert Spawn(attached.mem, CompleteBody, CompleteWaiting).tasks == map[0 := COMPLETION];
    }
  }

  lemma FetchFirst(w: World)
    requires w.mem == NO_MEMORY.(inStore := true)
    ensures var v := ReattachStep(w, Refetch);
            && v == w.(job := w.job.(status := Downloading), json := v.json, clash := NO_CLASH, mem := v.mem)
            && v.mem == NO_MEMORY.(inStore := true, tasks := map[0 := FETCH], nextTask := 1, registered := Some(0))
            && v.json == Some(Snapshot(v.job))
  {
  }

  lemma FetchAndComplete(m: Memory)
    requires m.tasks == map[0 := FETCH] && m.nextTask == 1 && m.registered == Some(0)
    ensures var v := Spawn(m, CompleteBody, CompleteWaiting);
            v == m.(tasks := v.tasks, nextTask := 2) && v.tasks == map[0 := FETCH, 1 := COMPLETION]
  {
  }

  /** One whose `.torrent` file has to be fetched again is attached when that is there. */
  lemma RestartRefetched(r: Remote, w: World, s: Saved)
    requires w.kind == Torrent && w.json == Some(s) && Persistable(s.status)
    ensures var v := Restart(r, w, Refetch);
            && Reborn(w, v) && TakenUp(s, v.job) && !v.mem.handle && v.mem.registered == Some(0)
            && v.mem.tasks == if WasFinalizing(s) then map[0 := FETCH, 1 := COMPLETION] else map[0 := FETCH]
  {
    FetchFirst(Reloaded(w, s));
    FetchAndComplete(ReattachStep(Reloaded(w, s), Refetch).mem);
  }

  /** One that cannot be attached is failed, with nothing running. */
  lemma RestartUnattached(r: Remote, w: World, s: Saved)
    requires w.kind == Torrent && w.json == Some(s) && Persistable(s.status)
    ensures var v := Restart(r, w, Unable);
            && Reborn(w, v) && v.job.name == s.name && v.job.status == Failed && !v.mem.handle && v.mem.tasks == map[]
  {
  }

  /** Without a record that can be loaded, the new process does not know the job. */
  lemma RestartWithout(r: Remote, w: World, how: Reattach)
    requires w.json == None && w.clash.foreign == None
    ensures var v := Restart(r, w, how); !v.mem.inStore && v.mem.tasks == map[] && v.json == None && v.files == w.files
  {
  }
}
