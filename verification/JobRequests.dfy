/**
  What the requests and the poll loop do, told by the status a user sees: which jobs they refuse, what
  they change, and what they leave alone. And what a pause means for a running download.
 */
module JobRequests {
  import opened Bytes
  import opened Manifest
  import opened Jobs
  import opened JobProofs
  import opened JobDurability
  import opened JobResults

  // ----- pause, resume, flush -----

  /** A queued or downloading job is marked, and saved as paused; any other is left alone. */
  lemma PauseExactly(r: Remote, w: World)
    ensures var v := Step(r, w, Pause);
            if w.mem.inStore && w.job.status in {Queued, Downloading}
            then v == w.(job := v.job, json := Some(Snapshot(v.job)), clash := NO_CLASH)
                 && v.job == w.job.(status := Paused, userPaused := true)
            else v == w
  {
  }

  /** A job with its flag up or its status paused goes on, whatever else it is; any other is left alone. */
  lemma ResumeExactly(r: Remote, w: World)
    ensures var v := Step(r, w, Resume);
            if w.mem.inStore && (w.job.userPaused || w.job.status == Paused)
            then v == w.(job := v.job, json := Some(Snapshot(v.job)), clash := NO_CLASH)
                 && v.job == w.job.(status := Downloading, userPaused := false)
            else v == w
  {
  }

  /** The flush saves every job that is still to be worked on, as it is in memory. */
  lemma FlushExactly(r: Remote, w: World)
    ensures var v := Step(r, w, Flush);
            if w.mem.inStore && w.job.status in {Queued, Downloading, Paused, Encrypting, Failed}
            then v == w.(json := Some(Snapshot(w.job)), clash := NO_CLASH)
            else v == w
  {
  }

  // ----- retry -----

  /** What `retry` may take up again. */
  predicate Retryable(w: World)
  {
    w.mem.inStore && w.job.status == Failed && w.mem.registered == None
  }

  lemma RetryRefused(r: Remote, w: World, finished: bool, how: Reattach)
    requires !(w.mem.inStore && w.job.status == Failed && w.mem.registered == None)
    ensures Step(r, w, Retry(finished, how)) == w
  {
  }

  lemma FreshTask(w: World)
    requires Inv(w)
    ensures w.mem.nextTask !in w.mem.tasks
  {
  }

  /** The one coroutine that is new. */
  predicate Begun(w: World, v: World, body: Body, pc: Pc)
  {
    && w.mem.nextTask !in w.mem.tasks
    && v.mem.tasks == w.mem.tasks[w.mem.nextTask := Task(body, pc, false)]
  }

  /**
    A failed torrent with its handle gets a completion exactly if it is finished or had failed while it
    was packed or encrypted; otherwise it downloads on, with the coroutines it has.
   */
  lemma RetryTorrentExactly(r: Remote, w: World, finished: bool, how: Reattach)
    requires Inv(w) && w.kind == Torrent && w.mem.inStore && w.job.status == Failed && w.mem.registered == None
    requires w.mem.handle
    ensures var v := Step(r, w, Retry(finished, how));
            && (if finished || w.job.phase in {PackingPhase, EncryptingPhase}
                then Begun(w, v, CompleteBody, CompleteWaiting) else v.mem.tasks == w.mem.tasks)
            && v.job == w.job.(status := Downloading, userPaused := false, phase := NoPhase)
            && v.mem.handle && v.files == w.files && v.shelf == w.shelf
  {
    FreshTask(w);
  }

  /** Without its handle it is attached again, fetched again, or stays failed; nothing is completed. */
  lemma RetryDetachedExactly(r: Remote, w: World, finished: bool, how: Reattach)
    requires Inv(w) && w.kind == Torrent && w.mem.inStore && w.job.status == Failed && w.mem.registered == None
    requires !w.mem.handle
    ensures var v := Step(r, w, Retry(finished, how));
            && v.files == w.files && v.shelf == w.shelf && !v.job.userPaused
            && (how == Attached ==> v.mem.handle && v.mem.tasks == w.mem.tasks && v.job.status == Downloading)
            && (how == Refetch ==> !v.mem.handle && Begun(w, v, FetchBody, FetchStart) && v.job.status == Downloading)
            && (how == Unable ==> v.mem == w.mem && v.job.status == Failed)
  {
    FreshTask(w);
  }

  /**
    A failed download whose file waits for its encryption is finalized from that file; any other starts
    again from nothing.
   */
  lemma RetryHttpExactly(r: Remote, w: World, finished: bool, how: Reattach)
    requires Inv(w) && w.kind == Http && w.mem.inStore && w.job.status == Failed && w.mem.registered == None
    ensures var v := Step(r, w, Retry(finished, how));
            && v.job.name == w.job.name && !v.job.userPaused && v.shelf == w.shelf
            && (if w.job.phase == EncryptingPhase && IsFile(w, w.job.name)
                then Begun(w, v, FinalizeBody, FinalizeStart(w.job.name)) && v.job.status == Encrypting
                     && v.files == w.files && v.json == w.json && v.clash == w.clash
                else Begun(w, v, HttpBody, HttpStart) && v.mem.registered == Some(w.mem.nextTask)
                     && v.job.status == Downloading && v.job.downloaded == 0 && !IsFile(v, w.job.name)
                     && v.files - {w.job.name} == w.files - {w.job.name})
  {
    FreshTask(w);
  }

  // ----- cancel -----

  /** A completed job, and one that is being encrypted, cannot be cancelled, nor one that is not there. */
  lemma CancelRefused(r: Remote, w: World)
    requires !w.mem.inStore || w.job.status in {Completed, Encrypting}
    ensures Step(r, w, Cancel) == w
  {
  }

  /**
    Any other is: a running HTTP task is told to stop and waited for, and the torrent's handle goes. With
    nothing to wait for, the work directory, the record, the entry and any published blob go at once.
   */
  lemma CancelExactly(r: Remote, w: World)
    requires Inv(w) && w.mem.inStore && w.job.status in {Queued, Downloading, Paused, Failed, Cancelled}
    ensures var v := Step(r, w, Cancel);
            && !v.mem.handle && v.mem.registered == None && v.job == w.job
            && (w.mem.registered.Some? ==>
                  var t := w.mem.registered.value;
                  && t in w.mem.tasks && v.mem.tasks == w.mem.tasks[t := w.mem.tasks[t].(cancelled := true)]
                  && v.mem.cancelling == w.mem.cancelling + {t} && v.mem.inStore
                  && v.files == w.files && v.json == w.json && v.shelf == w.shelf)
            && (w.mem.registered == None ==>
                  && !v.mem.inStore && v.json == None && v.clash == NO_CLASH && v.files == map[] && v.gone
                  && v.mem.tasks == w.mem.tasks
                  && v.shelf == w.shelf.(wiped := w.shelf.wiped + (if w.job.fileId.Some? then {w.job.fileId.value} else {})))
  {
  }

  // ----- the poll loop -----

  /** An unfinished torrent gets no coroutine from a scan, nor does a paused one. */
  lemma UnfinishedNotCompleted(r: Remote, w: World, raises: bool, finished: bool)
    requires !finished || w.job.userPaused
    ensures Step(r, w, PollScan(raises, finished)).mem == w.mem
  {
  }

  /** The torrents a scan looks at: attached, queued or running or paused, and not already on their way. */
  predicate Scanned(w: World)
  {
    && w.kind == Torrent && w.mem.inStore && w.mem.handle && w.job.status in {Queued, Downloading, Paused}
    && forall t <- w.mem.tasks :: w.mem.tasks[t].body != PollCompleteBody
  }

  /**
    A scan completes exactly the finished torrents that are not paused; a torrent whose status cannot be
    read fails; else it only takes over the state of the swarm.
   */
  lemma PollExactly(r: Remote, w: World, raises: bool, finished: bool)
    requires Inv(w)
    ensures var v := Step(r, w, PollScan(raises, finished));
            && (!Scanned(w) ==> v == w)
            && (Scanned(w) && raises ==>
                  v.mem == w.mem && v.job == w.job.(status := Failed) && v.json == Some(Snapshot(v.job)))
            && (Scanned(w) && !raises ==>
                  && v.job == w.job.(phase := SwarmPhase, status := if w.job.userPaused then Paused else Downloading)
                  && v.json == w.json
                  && (if finished && !w.job.userPaused then Begun(w, v, PollCompleteBody, CompleteWaiting)
                      else v.mem == w.mem))
            && v.files == w.files && v.shelf == w.shelf
  {
    FreshTask(w);
  }

  // ----- a pause stops a running download -----

  /** While the flag is up, a chunk that arrives is dropped, and the coroutine leaves its connection. */
  lemma PausedChunk(r: Remote, w: World, t: nat, n: nat)
    requires w.kind == Http && Running(w, t) && w.mem.tasks[t].pc.HttpStreaming?
    requires w.job.userPaused && w.mem.tasks[t].pc.rest != []
    ensures var v := Step(r, w, Go(t, Chunk(n)));
            && v == w.(mem := w.mem.(tasks := v.mem.tasks))
            && v.mem.tasks == w.mem.tasks[t := w.mem.tasks[t].(pc := HttpUnwinding(w.mem.tasks[t].pc.dest))]
  {
    StepIsGo(r, w, t, Chunk(n));
  }

  /** Neither asking for anything nor at the end of a stream. */
  predicate Idles(k: Task)
  {
    || k.cancelled || k.pc.HttpStart? || k.pc.HttpTopSleep? || k.pc.HttpPauseSleep? || k.pc.HttpUnwinding?
    || (k.pc.HttpStreaming? && k.pc.rest != [])
  }

  /** A download that is paused, its answer already there. */
  predicate Halted(w: World)
  {
    w.kind == Http && w.job.userPaused && forall t <- w.mem.tasks :: Idles(w.mem.tasks[t])
  }

  /** Nobody resumes or retries, and the process lives on. */
  predicate Unresumed(ls: seq<Label>)
  {
    forall l <- ls :: !l.Resume? && !l.Retry? && !l.IsCrash()
  }

  /** Nothing has been downloaded or handed over: the files are as they were, or a cancel took them. */
  predicate Untouched(w: World, v: World)
  {
    (v.files == w.files || (v.gone && v.files == map[])) && v.shelf.uploads.Keys == w.shelf.uploads.Keys
  }

  /** A turn that only moves, or ends, one coroutine and may save the job. */
  predicate OnlyMoved(w: World, v: World)
  {
    && v.kind == w.kind && v.job.userPaused == w.job.userPaused && v.files == w.files && v.shelf == w.shelf
    && v.gone == w.gone
  }

  lemma HaltedSection(r: Remote, w: World, t: nat, event: Event)
    requires Halted(w) && Running(w, t)
    ensures var v := HttpTurn(r, w, t, event);
            OnlyMoved(w, v) && t in v.mem.tasks && v.mem == At(w.mem, t, v.mem.tasks[t].pc) && Idles(v.mem.tasks[t])
  {
    match w.mem.tasks[t].pc
    case HttpStreaming(_, _, _) => if event.Chunk? { assert HttpTurn(r, w, t, event) == ChunkStep(r, w, t, event.n); }
    case _ =>
  }

  lemma HaltedEnd(w: World, t: nat)
    requires Halted(w) && t in w.mem.tasks
    ensures OnlyMoved(w, Cancelling(w, t)) && Halted(Cancelling(w, t))
    ensures !w.mem.tasks[t].pc.WritingDuration? ==> OnlyMoved(w, BreakStep(w, t)) && Halted(BreakStep(w, t))
  {
  }

  lemma HaltedTurn(r: Remote, w: World, t: nat, event: Event)
    requires Halted(w)
    ensures Halted(GoStep(r, w, t, event)) && OnlyMoved(w, GoStep(r, w, t, event))
  {
    if t in w.mem.tasks {
      assert Idles(w.mem.tasks[t]);
      HaltedEnd(w, t);
      if Running(w, t) {
        HaltedSection(r, w, t, event);
      }
    }
  }

  lemma HaltedStep(r: Remote, w: World, l: Label)
    requires Halted(w) && Unresumed([l])
    ensures var v := Step(r, w, l); Halted(v) && Untouched(w, v) && (w.gone ==> v.gone)
  {
    assert l in [l];
    if l.Go? {
      StepIsGo(r, w, l.t, l.event);
      HaltedTurn(r, w, l.t, l.event);
    } else if l.Thread? {
      ThreadKeys(w.shelf, l.id, l.ok);
    }
  }

  lemma ThreadKeys(s: Shelf, id: string, ok: bool)
    ensures Append(s, id, ok).uploads.Keys == s.uploads.Keys
  {
  }

  lemma {:induction false} HaltedRun(r: Remote, w: World, ls: seq<Label>)
    requires Halted(w) && Unresumed(ls)
    ensures var v := Exec(r, w, ls); Halted(v) && Untouched(w, v) && (w.gone ==> v.gone)
  {
    if ls != [] {
      var n := |ls| - 1;
      HaltedRun(r, w, ls[..n]);
      assert ls[n] in ls && Unresumed([ls[n]]);
      HaltedStep(r, Exec(r, w, ls[..n]), ls[n]);
    }
  }

  /** No continuation without a resume, a retry or a crash adds to the files or starts a finalization. */
  ghost predicate StaysPut(r: Remote, w: World)
  {
    forall ls: seq<Label> :: Unresumed(ls) ==>
      var v := Exec(r, w, ls);
      Untouched(w, v) && forall t <- v.mem.tasks :: v.mem.tasks[t].cancelled || !Finishing(v.mem.tasks[t].pc)
  }

  lemma DrainedTurn(r: Remote, w: World, t: nat)
    requires w.kind == Http && Running(w, t) && w.mem.tasks[t].pc.HttpStreaming? && w.mem.tasks[t].pc.rest == []
    ensures var v := Step(r, w, Go(t, Chunk(0)));
            t in v.mem.tasks && !v.mem.tasks[t].cancelled && Finishing(v.mem.tasks[t].pc)
  {
    StepIsGo(r, w, t, Chunk(0));
  }

  lemma DrainedGoesOn(r: Remote, w: World, t: nat, id: string)
    requires w.kind == Http && Running(w, t) && w.mem.tasks[t].pc.HttpStreaming? && w.mem.tasks[t].pc.rest == []
    ensures !StaysPut(r, w)
  {
    DrainedTurn(r, w, t);
    ExecOne(r, w, [], Go(t, Chunk(0)));
    assert Unresumed([Go(t, Chunk(0))]);
  }

  /**
    In every run: pausing a download that is being streamed stops it for good, until somebody resumes or
    retries it or the process dies, exactly unless its stream had already ended.
   */
  lemma PauseStopsExactly(r: Remote, name: string, ls: seq<Label>, t: nat)
    requires var w := Run(r, Http, name, false, ls);
             w.mem.inStore && w.job.status in {Queued, Downloading} && Running(w, t) && w.mem.tasks[t].pc.HttpStreaming?
    ensures var w := Run(r, Http, name, false, ls);
            StaysPut(r, Step(r, w, Pause)) <==> w.mem.tasks[t].pc.rest != []
  {
    var w := Run(r, Http, name, false, ls);
    RunInv(r, Http, name, false, ls);
    RunIsHttp(r, name, ls);
    PauseExactly(r, w);
    var p := Step(r, w, Pause);
    if w.mem.tasks[t].pc.rest == [] {
      DrainedGoesOn(r, p, t, "");
    } else {
      assert Halted(p);
      forall more: seq<Label> | Unresumed(more)
        ensures var v := Exec(r, p, more);
                Untouched(p, v) && forall u <- v.mem.tasks :: v.mem.tasks[u].cancelled || !Finishing(v.mem.tasks[u].pc)
      {
        HaltedRun(r, p, more);
      }
    }
  }

  lemma {:induction false} RunIsHttp(r: Remote, name: string, ls: seq<Label>)
    ensures Run(r, Http, name, false, ls).kind == Http
  {
    if ls != [] {
      RunIsHttp(r, name, ls[..|ls| - 1]);
      KindKept(r, Run(r, Http, name, false, ls[..|ls| - 1]), ls[|ls| - 1]);
    }
  }
}
