/**
  What the invariants of a job amount to: the published file is the remote file, a finalization that
  starts unpaused is not disturbed, a completed job stays completed, and exactly when it may not.
 */
module JobResults {
  import opened Bytes
  import opened Manifest
  import opened Jobs
  import opened JobProofs
  import opened JobDurability
  import opened JobContent

  // ----- content -----

  predicate AllWhole(r: Remote, name: string, w: World)
  {
    forall id <- w.shelf.placed :: w.shelf.placed[id] == Item(r.content, FinalName(r, name))
  }

  /**
    Over any calm run of pauses, failures, retries, crashes and restarts, whatever is published is the
    remote content under the announced name.
   */
  lemma OnlyWholeFiles(r: Remote, name: string, ls: seq<Label>)
    requires Usable(r, name) && Calm(r, Accepted(Http, name, false), ls)
    ensures AllWhole(r, name, Run(r, Http, name, false, ls))
    ensures Run(r, Http, name, false, ls).shelf.listed <= Run(r, Http, name, false, ls).shelf.placed.Keys
  {
    RunWhole(r, name, ls);
  }

  /** At every step the work directory holds at most a prefix; a stream has its exact remainder to come. */
  lemma PrefixAlways(r: Remote, name: string, ls: seq<Label>)
    requires Usable(r, name) && Calm(r, Accepted(Http, name, false), ls)
    ensures var w := Run(r, Http, name, false, ls);
            && (forall n <- w.files :: n == FinalName(r, name) && w.files[n] <= r.content)
            && (forall t <- w.mem.tasks :: !w.mem.tasks[t].cancelled && w.mem.tasks[t].pc.HttpStreaming? ==>
                  var pc := w.mem.tasks[t].pc;
                  pc.dest in w.files && w.files[pc.dest] + pc.rest == r.content && pc.count == |w.files[pc.dest]|)
  {
    RunWhole(r, name, ls);
  }

  /** After each chunk the job's byte counter is the length of its file, which has grown. */
  lemma ChunkCounts(r: Remote, name: string, ls: seq<Label>, t: nat, n: nat)
    requires Usable(r, name) && Calm(r, Accepted(Http, name, false), ls)
    requires var w := Run(r, Http, name, false, ls);
             Running(w, t) && w.mem.tasks[t].pc.HttpStreaming? && w.mem.tasks[t].pc.rest != [] && !w.job.userPaused
    ensures var w, final := Run(r, Http, name, false, ls), FinalName(r, name);
            var v := Step(r, w, Go(t, Chunk(n)));
            && final in w.files && final in v.files && w.files[final] < v.files[final] <= r.content
            && v.job.downloaded == |v.files[final]|
  {
    RunWhole(r, name, ls);
    var w := Run(r, Http, name, false, ls);
    ChunkWhole(r, name, w, t, n);
    GoIsChunk(r, w, t, n);
  }

  lemma GoIsChunk(r: Remote, w: World, t: nat, n: nat)
    requires Running(w, t) && w.kind == Http && w.mem.tasks[t].pc.HttpStreaming?
    ensures Step(r, w, Go(t, Chunk(n))) == ChunkStep(r, w, t, n)
  {
  }

  // ----- finalization is not disturbed -----

  /** The step begins, or continues into, `_finalize_path`. */
  predicate Begins(w: World, l: Label)
  {
    && l.Go? && Running(w, l.t)
    && (w.mem.tasks[l.t].pc.HttpClosing? || w.mem.tasks[l.t].pc.FinalizeStart?
        || w.mem.tasks[l.t].pc.CompleteWaiting? || w.mem.tasks[l.t].pc.CompletePacking?)
  }

  predicate CleanStep(w: World, l: Label)
  {
    Begins(w, l) ==> !w.job.userPaused
  }

  /** Every finalization begins with the pause flag down. */
  predicate Clean(r: Remote, w: World, ls: seq<Label>)
  {
    ls == [] || (Clean(r, w, ls[..|ls| - 1]) && CleanStep(Exec(r, w, ls[..|ls| - 1]), ls[|ls| - 1]))
  }

  predicate SavedUnpaused(kind: Kind, s: Saved)
  {
    kind == Http && (s.status == Encrypting || s.phase == EncryptingPhase) ==> !s.userPaused
  }

  predicate Unpaused(w: World)
  {
    && (w.mem.inStore && Busy(w) ==> !w.job.userPaused)
    && (w.json.Some? ==> SavedUnpaused(w.kind, w.json.value))
  }

  /** While a torrent is finalized its status says so, and after that too; nothing was wiped. */
  predicate Steady(w: World)
  {
    w.kind == Torrent ==>
      && (!w.mem.inStore ==> w.mem.lock == None)
      && (w.mem.inStore && w.mem.lock.Some? ==> w.job.status == Encrypting)
      && (w.mem.inStore && w.job.fileId.Some? ==> w.job.status == Completed)
      && w.shelf.wiped == {}
  }

  predicate Good(r: Remote, name: string, w: World)
  {
    Inv(w) && Lasting(r, w) && Unpaused(w) && Steady(w) && (w.kind == Http ==> Whole(r, name, w))
  }

  lemma GoodIsCalm(r: Remote, name: string, w: World, l: Label)
    requires Good(r, name, w)
    ensures CalmStep(w, l)
  {
  }

  lemma RequestUnpaused(r: Remote, name: string, w: World, l: Label)
    requires Good(r, name, w) && !l.IsCrash() && !l.Go?
    ensures Unpaused(Step(r, w, l))
  {
    match l
    case Retry(finished, how) => RetryUnpaused(r, name, w, finished, how);
    case _ =>
  }

  lemma RetryUnpaused(r: Remote, name: string, w: World, finished: bool, how: Reattach)
    requires Good(r, name, w)
    ensures Unpaused(RetryStep(w, finished, how))
  {
  }

  lemma LoopTopUnpaused(r: Remote, name: string, w: World, t: nat, dest: string)
    requires Good(r, name, w) && w.kind == Http && Running(w, t)
    requires InHttp(w.mem.tasks[t].pc)
    ensures Unpaused(LoopTop(r, w, t, dest))
  {
  }

  lemma ChunkUnpaused(r: Remote, name: string, w: World, t: nat, n: nat)
    requires Good(r, name, w) && w.kind == Http && Running(w, t) && w.mem.tasks[t].pc.HttpStreaming?
    ensures Unpaused(ChunkStep(r, w, t, n))
  {
  }

  lemma HttpTurnUnpaused(r: Remote, name: string, w: World, t: nat, event: Event)
    requires Good(r, name, w) && w.kind == Http && Running(w, t)
    ensures Unpaused(HttpTurn(r, w, t, event))
  {
    match w.mem.tasks[t].pc
    case HttpStart => LoopTopUnpaused(r, name, w, t, w.job.name);
    case HttpTopSleep(dest) => LoopTopUnpaused(r, name, w, t, dest);
    case HttpPauseSleep(dest) => LoopTopUnpaused(r, name, w, t, dest);
    case HttpConnecting(dest, existing) => if event.Answer? { AnswerUnpaused(r, name, w, t, event.partial); }
    case HttpStreaming(_, _, _) => if event.Chunk? { ChunkUnpaused(r, name, w, t, event.n); }
    case _ =>
  }

  lemma AnswerUnpaused(r: Remote, name: string, w: World, t: nat, partial: bool)
    requires Good(r, name, w) && w.kind == Http && Running(w, t) && w.mem.tasks[t].pc.HttpConnecting?
    ensures Unpaused(AnswerStep(r, w, t, partial))
  {
  }

  lemma TorrentTurnUnpaused(w: World, t: nat, event: Event)
    requires Unpaused(w) && w.kind == Torrent && Running(w, t)
    requires w.mem.tasks[t].pc.CompleteWaiting? || w.mem.tasks[t].pc.CompletePacking? ==> !w.job.userPaused
    ensures Unpaused(TorrentTurn(w, t, event))
  {
  }

  lemma FinalizeTurnUnpaused(r: Remote, name: string, w: World, t: nat, event: Event)
    requires Good(r, name, w) && Running(w, t) && Finishing(w.mem.tasks[t].pc)
    requires w.mem.tasks[t].pc.HttpClosing? || w.mem.tasks[t].pc.FinalizeStart? ==> !w.job.userPaused
    ensures Unpaused(FinalizeTurn(r, w, t, event))
  {
  }

  lemma BreakUnpaused(r: Remote, name: string, w: World, t: nat)
    requires Good(r, name, w) && Running(w, t)
    ensures Unpaused(BreakStep(w, t))
  {
  }

  lemma GoUnpaused(r: Remote, name: string, w: World, t: nat, event: Event)
    requires Good(r, name, w) && CleanStep(w, Go(t, event))
    ensures Unpaused(GoStep(r, w, t, event))
  {
    if t in w.mem.tasks && !w.mem.tasks[t].cancelled {
      if event.Break? && MayBreak(w.mem.tasks[t].pc) {
        BreakUnpaused(r, name, w, t);
      } else if Finishing(w.mem.tasks[t].pc) {
        FinalizeTurnUnpaused(r, name, w, t, event);
      } else if w.kind == Http {
        HttpTurnUnpaused(r, name, w, t, event);
      } else {
        TorrentTurnUnpaused(w, t, event);
      }
    }
  }

  lemma RestoreHttpUnpaused(w: World)
    requires w.kind == Http && w.mem.inStore && Persistable(w.job.status) && w.job.phase != PackingPhase
    requires SavedUnpaused(Http, Snapshot(w.job))
    requires w.job.phase == EncryptingPhase ==> w.job.status in {Encrypting, Failed}
    ensures Unpaused(RestoreHttp(w))
  {
  }

  lemma RestoreTorrentUnpaused(w: World, how: Reattach)
    requires w.kind == Torrent && w.mem.inStore && Persistable(w.job.status)
    ensures Unpaused(RestoreTorrent(w, how))
  {
  }

  /** What a restart needs of the disk. */
  predicate DiskUnpaused(w: World)
  {
    && w.clash.foreign == None
    && (w.json.Some? ==> SavedUnpaused(w.kind, w.json.value))
    && (w.json.Some? && w.kind == Http ==>
          && w.json.value.phase != PackingPhase
          && (w.json.value.phase == EncryptingPhase ==> w.json.value.status in {Encrypting, Failed}))
  }

  lemma RestartUnpaused(r: Remote, w: World, how: Reattach)
    requires DiskUnpaused(w)
    ensures Unpaused(Restart(r, w, how))
  {
    if Loaded(r, w).Some? {
      if w.kind == Http {
        RestoreHttpUnpaused(Reloaded(w, w.json.value));
      } else {
        RestoreTorrentUnpaused(Reloaded(w, w.json.value), how);
      }
    }
  }

  lemma GoodDisk(r: Remote, name: string, w: World)
    requires Good(r, name, w)
    ensures DiskUnpaused(w)
  {
  }

  lemma AnswerDisk(r: Remote, name: string, w: World, t: nat, partial: bool, writes: nat)
    requires Good(r, name, w) && w.kind == Http && Running(w, t) && w.mem.tasks[t].pc.HttpConnecting?
    ensures DiskUnpaused(AnswerWrites(r, w, w.mem.tasks[t].pc.dest, w.mem.tasks[t].pc.existing, partial, writes))
  {
    assert Quiet(w.job, w.json) by {
      assert TaskOk(r, FinalName(r, name), w.mem.tasks[t], w.job, w.json, w.files);
    }
    PlainAnswer(r, w, w.mem.tasks[t].pc.dest, w.mem.tasks[t].pc.existing, partial, writes);
  }

  lemma CrashInAnswerUnpaused(r: Remote, name: string, w: World, t: nat, partial: bool, writes: nat, how: Reattach)
    requires Good(r, name, w)
    ensures Unpaused(CrashInAnswerStep(r, w, t, partial, writes, how))
  {
    if CrashInAnswerStep(r, w, t, partial, writes, how) != w {
      assert WellPlaced(w.kind, w.mem.tasks[t]);
      AnswerDisk(r, name, w, t, partial, writes);
      RestartUnpaused(r, AnswerWrites(r, w, w.mem.tasks[t].pc.dest, w.mem.tasks[t].pc.existing, partial, writes), how);
    }
  }

  lemma CrashInAcquireUnpaused(r: Remote, name: string, w: World, t: nat, how: Reattach)
    requires Good(r, name, w)
    ensures Unpaused(CrashInAcquireStep(r, w, t, how))
  {
    if CrashInAcquireStep(r, w, t, how) != w {
      assert WellPlaced(w.kind, w.mem.tasks[t]);
      RestartUnpaused(r, Persist(SetStatus(w, Encrypting)), how);
    }
  }

  lemma CrashUnpaused(r: Remote, name: string, w: World, l: Label)
    requires Good(r, name, w) && l.IsCrash()
    ensures Unpaused(Step(r, w, l))
  {
    StepIsCrash(r, w, l);
    GoodDisk(r, name, w);
    match l
    case Crash(keep, how) => RestartUnpaused(r, LoseBuffer(w, keep), how);
    case CrashInAnswer(t, partial, writes, how) => CrashInAnswerUnpaused(r, name, w, t, partial, writes, how);
    case CrashInAcquire(t, how) => CrashInAcquireUnpaused(r, name, w, t, how);
    case CrashInComplete(t, how) => RestartUnpaused(r, w.(json := None, clash := NO_CLASH), how);
    case CrashInCancel(removed, jsonToo, how) => RestartUnpaused(r, PartlyCancelled(w, removed, jsonToo), how);
  }

  lemma RequestSteady(r: Remote, w: World, l: Label)
    requires Inv(w) && Unpaused(w) && Steady(w) && !l.IsCrash() && !l.Go?
    ensures Steady(Step(r, w, l))
  {
    match l
    case Retry(finished, how) => RetrySteady(w, finished, how);
    case PollScan(raises, finished) =>
    case _ =>
  }

  lemma RetrySteady(w: World, finished: bool, how: Reattach)
    requires Inv(w) && Steady(w)
    ensures Steady(RetryStep(w, finished, how))
  {
  }

  lemma CrashSteady(r: Remote, w: World, l: Label)
    requires Steady(w) && l.IsCrash()
    ensures Steady(Step(r, w, l)) && Step(r, w, l).kind == w.kind
  {
    StepIsCrash(r, w, l);
    match l
    case Crash(keep, how) => RestartSteady(r, LoseBuffer(w, keep), how);
    case CrashInAnswer(t, partial, writes, how) =>
      if Step(r, w, l) != w {
        RestartSteady(r, AnswerWrites(r, w, w.mem.tasks[t].pc.dest, w.mem.tasks[t].pc.existing, partial, writes), how);
      }
    case CrashInAcquire(t, how) => RestartSteady(r, Persist(SetStatus(w, Encrypting)), how);
    case CrashInComplete(t, how) => RestartSteady(r, w.(json := None, clash := NO_CLASH), how);
    case CrashInCancel(removed, jsonToo, how) =>
      RestartSteady(r, PartlyCancelled(w, removed, jsonToo), how);
  }

  lemma StepIsGo(r: Remote, w: World, t: nat, event: Event)
    ensures Step(r, w, Go(t, event)) == GoStep(r, w, t, event)
  {
  }

  lemma StepSteady(r: Remote, name: string, w: World, l: Label)
    requires Good(r, name, w)
    ensures Steady(Step(r, w, l))
  {
    if l.Go? {
      StepIsGo(r, w, l.t, l.event);
      GoSteady(r, w, l.t, l.event);
    } else if l.IsCrash() {
      CrashSteady(r, w, l);
    } else {
      RequestSteady(r, w, l);
    }
  }

  lemma RestoreTorrentSteady(w: World, how: Reattach)
    ensures var v := RestoreTorrent(w, how);
            v.mem.lock == w.mem.lock && v.job.fileId == w.job.fileId && v.shelf == w.shelf && v.kind == w.kind
  {
    if !how.Unable? {
      ReattachSteady(w, how);
    }
  }

  lemma ReattachSteady(w: World, how: Reattach)
    requires !how.Unable?
    ensures var v := ReattachStep(w, how);
            && v == w.(job := v.job, mem := v.mem, json := v.json, clash := v.clash)
            && v.mem.lock == w.mem.lock && v.job.fileId == w.job.fileId
  {
  }

  lemma RestartSteady(r: Remote, w: World, how: Reattach)
    ensures var v := Restart(r, w, how);
            v.mem.lock == None && v.job.fileId == None && v.shelf.wiped == w.shelf.wiped && v.kind == w.kind
  {
    if Loaded(r, w).Some? {
      RestoreTorrentSteady(Reloaded(w, Loaded(r, w).value), how);
    }
  }

  lemma TurnKindKept(r: Remote, w: World, t: nat, event: Event)
    requires t in w.mem.tasks
    ensures HttpTurn(r, w, t, event).kind == TorrentTurn(w, t, event).kind == FinalizeTurn(r, w, t, event).kind == w.kind
  {
  }

  lemma TorrentTurnSteady(w: World, t: nat, event: Event)
    requires Inv(w) && Steady(w) && w.kind == Torrent && Running(w, t)
    ensures Steady(TorrentTurn(w, t, event))
  {
    match w.mem.tasks[t].pc
    case CompleteWaiting => AcquireSteady(w, t, event);
    case Fetching =>
    case _ =>
  }

  lemma AcquireSteady(w: World, t: nat, event: Event)
    requires Steady(w) && w.kind == Torrent && Running(w, t) && w.mem.tasks[t].pc.CompleteWaiting?
    requires Inv(w)
    ensures Steady(AcquireStep(w, t, event))
  {
  }

  lemma FinalizeTurnSteady(r: Remote, w: World, t: nat, event: Event)
    requires Inv(w) && Steady(w) && w.kind == Torrent && Running(w, t)
    ensures Steady(FinalizeTurn(r, w, t, event))
  {
  }

  lemma LeavingSteady(w: World, t: nat)
    requires Inv(w) && Steady(w) && w.kind == Torrent && t in w.mem.tasks
    ensures Running(w, t) && MayBreak(w.mem.tasks[t].pc) ==> Steady(BreakStep(w, t))
    ensures w.mem.tasks[t].cancelled ==> Steady(Cancelling(w, t))
  {
  }

  lemma GoSteady(r: Remote, w: World, t: nat, event: Event)
    requires Inv(w) && Steady(w)
    ensures Steady(GoStep(r, w, t, event))
  {
    if w.kind == Torrent && t in w.mem.tasks {
      if !Running(w, t) || (event.Break? && MayBreak(w.mem.tasks[t].pc)) {
        LeavingSteady(w, t);
      } else if Finishing(w.mem.tasks[t].pc) {
        FinalizeTurnSteady(r, w, t, event);
      } else {
        TorrentTurnSteady(w, t, event);
      }
    } else if t in w.mem.tasks {
      TurnKindKept(r, w, t, event);
    }
  }

  lemma StepUnpaused(r: Remote, name: string, w: World, l: Label)
    requires Good(r, name, w) && CleanStep(w, l)
    ensures Unpaused(Step(r, w, l))
  {
    if l.Go? {
      GoUnpaused(r, name, w, l.t, l.event);
    } else if l.IsCrash() {
      CrashUnpaused(r, name, w, l);
    } else {
      RequestUnpaused(r, name, w, l);
    }
  }

  lemma StepGood(r: Remote, name: string, w: World, l: Label)
    requires Good(r, name, w) && CleanStep(w, l)
    ensures Good(r, name, Step(r, w, l))
  {
    GoodIsCalm(r, name, w, l);
    StepInv(r, w, l);
    StepLasting(r, w, l);
    StepUnpaused(r, name, w, l);
    StepSteady(r, name, w, l);
    if w.kind == Http {
      StepWhole(r, name, w, l);
    } else {
      KindKept(r, w, l);
    }
  }

  lemma KindKept(r: Remote, w: World, l: Label)
    requires Steady(w)
    ensures Step(r, w, l).kind == w.kind
  {
    if l.Go? && l.t in w.mem.tasks {
      TurnKindKept(r, w, l.t, l.event);
    } else if l.IsCrash() {
      CrashSteady(r, w, l);
    }
  }

  /** Runs in which every finalization begins unpaused meet the condition on `resume`. */
  lemma {:induction false} CleanIsCalm(r: Remote, kind: Kind, name: string, fetch: bool, ls: seq<Label>)
    requires (kind == Http ==> Usable(r, name)) && Clean(r, Accepted(kind, name, fetch), ls)
    ensures Calm(r, Accepted(kind, name, fetch), ls) && Good(r, name, Run(r, kind, name, fetch, ls))
  {
    if ls == [] {
      AcceptedInv(kind, name, fetch);
      RunLasting(r, kind, name, fetch, []);
      AcceptedWhole(r, name);
    } else {
      CleanIsCalm(r, kind, name, fetch, ls[..|ls| - 1]);
      GoodIsCalm(r, name, Run(r, kind, name, fetch, ls[..|ls| - 1]), ls[|ls| - 1]);
      StepGood(r, name, Run(r, kind, name, fetch, ls[..|ls| - 1]), ls[|ls| - 1]);
    }
  }

  /** A job that is being encrypted is left as it is by every request and by the poll loop. */
  lemma EncryptingUndisturbed(r: Remote, kind: Kind, name: string, fetch: bool, ls: seq<Label>, l: Label)
    requires (kind == Http ==> Usable(r, name)) && Clean(r, Accepted(kind, name, fetch), ls)
    requires Run(r, kind, name, fetch, ls).mem.inStore && Run(r, kind, name, fetch, ls).job.status == Encrypting
    requires l.Pause? || l.Resume? || l.Retry? || l.Cancel? || l.CancelFinish? || l.PollScan?
    ensures Step(r, Run(r, kind, name, fetch, ls), l) == Run(r, kind, name, fetch, ls)
  {
    CleanIsCalm(r, kind, name, fetch, ls);
  }

  /** A completed job stays as it is, whatever runs in its process; it leaves no record and no work file. */
  lemma CompletedAbsorbs(r: Remote, kind: Kind, name: string, fetch: bool, ls: seq<Label>, l: Label)
    requires (kind == Http ==> Usable(r, name)) && Clean(r, Accepted(kind, name, fetch), ls) && !l.IsCrash()
    requires Run(r, kind, name, fetch, ls).mem.inStore && Run(r, kind, name, fetch, ls).job.status == Completed
    ensures var w := Run(r, kind, name, fetch, ls);
            var v := Step(r, w, l);
            v.mem.inStore && v.job == w.job && v.json == w.json == None && v.files == w.files && v.gone == w.gone
  {
    CleanIsCalm(r, kind, name, fetch, ls);
    var w := Run(r, kind, name, fetch, ls);
    if l.Go? {
      CompletedTurn(r, w, l.t, l.event);
    }
  }

  lemma CompletedTurn(r: Remote, w: World, t: nat, event: Event)
    requires Inv(w) && w.mem.inStore && w.job.status == Completed
    ensures var v := GoStep(r, w, t, event);
            v.mem.inStore && v.job == w.job && v.json == w.json && v.files == w.files && v.gone == w.gone
  {
  }

  /** No cancel ever removes a completed blob. */
  lemma NothingWiped(r: Remote, kind: Kind, name: string, fetch: bool, ls: seq<Label>)
    requires (kind == Http ==> Usable(r, name)) && Clean(r, Accepted(kind, name, fetch), ls)
    ensures Run(r, kind, name, fetch, ls).shelf.wiped == {}
  {
    CleanIsCalm(r, kind, name, fetch, ls);
  }

  // ----- what a request means after it is answered -----

  predicate Finalizing(p: Phase)
  {
    p == PackingPhase || p == EncryptingPhase
  }

  /**
    A pause outlives a crash, with every file in place, exactly unless the job's record says that it
    was being packed or encrypted: then the restart finalizes it.
   */
  lemma PauseSurvivesExactly(r: Remote, w: World, how: Reattach)
    requires w.mem.inStore && w.job.status in {Queued, Downloading} && !how.Unable?
    ensures var v := Restart(r, PauseStep(w), how);
            && v.mem.inStore && v.files == w.files
            && ((v.job.status == Paused && v.job.userPaused && v.json == Some(Snapshot(v.job)))
                <==> !(Finalizing(w.job.phase) && (w.kind == Torrent || IsFile(PauseStep(w), w.job.name))))
  {
    PausedRecord(w);
    if w.kind == Torrent {
      PausedTorrent(r, w, how);
    }
  }

  lemma PausedTorrent(r: Remote, w: World, how: Reattach)
    requires w.mem.inStore && w.job.status in {Queued, Downloading} && !how.Unable? && w.kind == Torrent
    ensures var v := Restart(r, PauseStep(w), how);
            && v.mem.inStore && v.files == w.files
            && ((v.job.status == Paused && v.job.userPaused && v.json == Some(Snapshot(v.job)))
                <==> !Finalizing(w.job.phase))
  {
    PausedRecord(w);
  }

  lemma PausedRecord(w: World)
    requires w.mem.inStore && w.job.status in {Queued, Downloading}
    ensures var v := PauseStep(w);
            && v.json == Some(Snapshot(w.job.(status := Paused, userPaused := true)))
            && v.files == w.files && v.kind == w.kind && v.clash.foreign == None
  {
  }

  /** A resumed download asks for exactly the missing bytes, and goes on behind what it has. */
  lemma ResumesFromByte(r: Remote, name: string, ls: seq<Label>, t: nat)
    requires Usable(r, name) && Calm(r, Accepted(Http, name, false), ls)
    requires var w := Run(r, Http, name, false, ls);
             Asleep(w, t) && w.job.name in w.files && 0 < |w.files[w.job.name]| < |r.content|
    ensures var w := Run(r, Http, name, false, ls);
            var dest, have := w.job.name, |w.files[w.job.name]|;
            var v1 := GoStep(r, ResumeStep(w), t, Tick);
            var v2 := GoStep(r, v1, t, Answer(true));
            && Running(v1, t) && v1.mem.tasks[t].pc == HttpConnecting(dest, have)
            && Running(v2, t) && v2.mem.tasks[t].pc == HttpStreaming(dest, r.content[have..], have) && v2.files == w.files
  {
    RunWhole(r, name, ls);
    var w := Run(r, Http, name, false, ls);
    assert TaskOk(r, FinalName(r, name), w.mem.tasks[t], w.job, w.json, w.files);
    WakesUp(r, w, t);
    AnswersRest(r, GoStep(r, ResumeStep(w), t, Tick), t);
  }

  /** A download that sleeps because it was paused. */
  predicate Asleep(w: World, t: nat)
  {
    && w.kind == Http && w.mem.inStore && w.job.userPaused && Running(w, t)
    && (w.mem.tasks[t].pc.HttpTopSleep? || w.mem.tasks[t].pc.HttpPauseSleep?)
  }

  lemma WakesUp(r: Remote, w: World, t: nat)
    requires Asleep(w, t) && w.mem.tasks[t].pc.dest == w.job.name != JOB_STATE
    ensures var v := GoStep(r, ResumeStep(w), t, Tick);
            && Running(v, t) && v.files == w.files && v.job.name == w.job.name && v.kind == Http
            && v.mem.tasks[t].pc == HttpConnecting(w.job.name, if w.job.name in w.files then |w.files[w.job.name]| else 0)
  {
  }

  lemma AnswersRest(r: Remote, w: World, t: nat)
    requires Running(w, t) && w.kind == Http && w.job.name != JOB_STATE && w.job.name in w.files
    requires r.disposition.Some? ==> w.job.name == r.disposition.value
    requires w.mem.tasks[t].pc == HttpConnecting(w.job.name, |w.files[w.job.name]|)
    requires 0 < |w.files[w.job.name]| < |r.content|
    ensures var v := GoStep(r, w, t, Answer(true));
            var have := |w.files[w.job.name]|;
            && Running(v, t) && v.files == w.files
            && v.mem.tasks[t].pc == HttpStreaming(w.job.name, r.content[have..], have)
  {
  }
}
