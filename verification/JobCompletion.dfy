/**
  Why a torrent is completed: because it was reported finished. No run in which no scan and no retry
  reports that packs, encrypts or publishes anything, whatever else happens; and each process completes
  a torrent only on such a report of its own, or where its predecessor had begun to.
 */
module JobCompletion {
  import opened Bytes
  import opened Manifest
  import opened Jobs
  import opened JobProofs
  import opened JobDurability
  import opened JobResults
  import opened JobRequests

  // ----- never finished, never published -----

  predicate ReportsFinished(l: Label)
  {
    (l.PollScan? && l.finished) || (l.Retry? && l.finished)
  }

  /** Nothing but the fetch of the `.torrent` file runs. */
  predicate OnlyFetches(m: Memory)
  {
    forall t <- m.tasks :: m.tasks[t].pc.FetchStart? || m.tasks[t].pc.Fetching?
  }

  predicate SaysFinalizing(status: Status, phase: Phase)
  {
    status == Encrypting || phase in {PackingPhase, EncryptingPhase}
  }

  /** No completion is under way, in memory or on record, and none ever was. */
  predicate Unbegun(w: World)
  {
    && w.kind == Torrent && OnlyFetches(w.mem) && !SaysFinalizing(w.job.status, w.job.phase) && w.job.status != Completed
    && w.clash.foreign == None && (w.json.Some? ==> !SaysFinalizing(w.json.value.status, w.json.value.phase))
    && w.shelf.uploads == map[] && w.shelf.placed == map[] && w.shelf.listed == {}
  }

  lemma UnbegunTurn(r: Remote, w: World, t: nat, event: Event)
    requires Unbegun(w)
    ensures Unbegun(GoStep(r, w, t, event))
  {
    if t in w.mem.tasks {
      UnbegunEnd(w, t);
      if Running(w, t) && !(event.Break? && MayBreak(w.mem.tasks[t].pc)) {
        UnbegunSection(w, t, event);
      }
    }
  }

  lemma UnbegunEnd(w: World, t: nat)
    requires Unbegun(w) && t in w.mem.tasks
    ensures Unbegun(Cancelling(w, t)) && Unbegun(BreakStep(w, t))
  {
  }

  lemma UnbegunSection(w: World, t: nat, event: Event)
    requires Unbegun(w) && Running(w, t)
    ensures Unbegun(TorrentTurn(w, t, event))
  {
    match w.mem.tasks[t].pc
    case FetchStart =>
    case Fetching =>
  }

  lemma UnbegunRetry(w: World, how: Reattach)
    requires Unbegun(w)
    ensures Unbegun(RetryStep(w, false, how))
  {
  }

  lemma UnbegunRequest(r: Remote, w: World, l: Label)
    requires Unbegun(w) && !l.Go? && !l.IsCrash() && !ReportsFinished(l)
    ensures Unbegun(Step(r, w, l))
  {
    if l.Retry? {
      UnbegunRetry(w, l.how);
    } else if l.PollScan? {
      UnfinishedNotCompleted(r, w, l.raises, false);
    }
  }

  lemma UnbegunRestore(w: World, how: Reattach)
    requires Unbegun(w)
    ensures Unbegun(RestoreTorrent(w, how))
  {
  }

  lemma UnbegunRestart(r: Remote, w: World, how: Reattach)
    requires Unbegun(w)
    ensures Unbegun(Restart(r, w, how))
  {
    if Loaded(r, w).Some? {
      UnbegunRestore(Reloaded(w, Loaded(r, w).value), how);
    }
  }

  lemma UnbegunCrash(r: Remote, w: World, l: Label)
    requires Unbegun(w) && l.IsCrash()
    ensures Unbegun(Step(r, w, l))
  {
    StepIsCrash(r, w, l);
    match l
    case Crash(keep, how) => UnbegunRestart(r, LoseBuffer(w, keep), how);
    case CrashInCancel(removed, jsonToo, how) => UnbegunRestart(r, PartlyCancelled(w, removed, jsonToo), how);
    case _ =>
  }

  /**
    Over every run, crashes and restarts included, in which no scan and no retry reports a torrent
    finished: nothing of it is packed, encrypted, handed to a thread, published or recorded as such.
   */
  lemma {:induction false} UnfinishedNeverPublished(r: Remote, name: string, fetch: bool, ls: seq<Label>)
    requires forall l <- ls :: !ReportsFinished(l)
    ensures Unbegun(Run(r, Torrent, name, fetch, ls))
  {
    if ls != [] {
      var n := |ls| - 1;
      UnfinishedNeverPublished(r, name, fetch, ls[..n]);
      var w := Run(r, Torrent, name, fetch, ls[..n]);
      assert ls[n] in ls;
      if ls[n].Go? {
        StepIsGo(r, w, ls[n].t, ls[n].event);
        UnbegunTurn(r, w, ls[n].t, ls[n].event);
      } else if ls[n].IsCrash() {
        UnbegunCrash(r, w, ls[n]);
      } else {
        UnbegunRequest(r, w, ls[n]);
      }
    }
  }

  // ----- the same for each process -----

  /** What lets the present process complete: a report, or a retry of what failed while it was finalized. */
  predicate Licenses(w: World, l: Label)
  {
    ReportsFinished(l) || (l.Retry? && w.job.phase in {PackingPhase, EncryptingPhase})
  }

  /** What lets a new process complete: the record that its predecessor left. */
  predicate RecordLicenses(r: Remote, disk: World)
  {
    Loaded(r, disk).Some? && SaysFinalizing(Loaded(r, disk).value.status, Loaded(r, disk).value.phase)
  }

  /** The disk on which a crash leaves a torrent, if it happens at all. */
  function DiskAt(w: World, l: Label): Option<World>
    requires l.IsCrash()
  {
    match l
    case Crash(keep, _) => Some(LoseBuffer(w, keep))
    case CrashInAcquire(t, _) => if CrashInAcquireHits(w, t) then Some(Persist(SetStatus(w, Encrypting))) else None
    case CrashInComplete(t, _) =>
      if t in w.mem.tasks && !w.mem.tasks[t].cancelled && w.mem.tasks[t].pc.WritingDuration?
      then Some(w.(json := None, clash := NO_CLASH)) else None
    case CrashInCancel(removed, jsonToo, _) =>
      if Cancellable(w) && (w.mem.registered == None || w.mem.cancelling != {})
      then Some(PartlyCancelled(w, removed, jsonToo)) else None
    case _ => None
  }

  predicate CrashInAcquireHits(w: World, t: nat)
  {
    t in w.mem.tasks && !w.mem.tasks[t].cancelled && w.mem.tasks[t].pc.CompleteWaiting? && Acquires(w)
  }

  /** Whether the present process has been licensed to complete, over a run of processes. */
  predicate Licensed(r: Remote, w: World, ls: seq<Label>)
  {
    ls != [] &&
    var before, l := Exec(r, w, ls[..|ls| - 1]), ls[|ls| - 1];
    if l.IsCrash() && DiskAt(before, l).Some? then RecordLicenses(r, DiskAt(before, l).value)
    else Licensed(r, w, ls[..|ls| - 1]) || Licenses(before, l)
  }

  lemma FetchTurn(r: Remote, w: World, t: nat, event: Event)
    requires w.kind == Torrent && OnlyFetches(w.mem)
    ensures OnlyFetches(GoStep(r, w, t, event).mem)
  {
  }

  lemma FetchRequest(r: Remote, w: World, l: Label)
    requires w.kind == Torrent && OnlyFetches(w.mem) && !l.Go? && !l.IsCrash() && !Licenses(w, l)
    ensures OnlyFetches(Step(r, w, l).mem)
  {
    if l.PollScan? {
      UnfinishedNotCompleted(r, w, l.raises, false);
    }
  }

  lemma FetchRestore(w: World, how: Reattach)
    requires OnlyFetches(w.mem) && !SaysFinalizing(w.job.status, w.job.phase)
    ensures OnlyFetches(RestoreTorrent(w, how).mem)
  {
  }

  lemma FetchRestart(r: Remote, disk: World, how: Reattach)
    requires disk.kind == Torrent && !RecordLicenses(r, disk)
    ensures OnlyFetches(Restart(r, disk, how).mem)
  {
    if Loaded(r, disk).Some? {
      FetchRestore(Reloaded(disk, Loaded(r, disk).value), how);
    }
  }

  lemma FetchCrash(r: Remote, w: World, l: Label)
    requires Inv(w) && w.kind == Torrent && l.IsCrash()
    ensures match DiskAt(w, l)
            case Some(disk) => !RecordLicenses(r, disk) ==> OnlyFetches(Step(r, w, l).mem)
            case None => Step(r, w, l) == w
  {
    StepIsCrash(r, w, l);
    var disk := DiskAt(w, l);
    if disk.None? {
      if l.CrashInAnswer? && l.t in w.mem.tasks {
        assert WellPlaced(w.kind, w.mem.tasks[l.t]);
      }
    } else if !RecordLicenses(r, disk.value) {
      FetchRestart(r, disk.value, l.how);
    }
  }

  /**
    In every run: a torrent's coroutine waits for the finalize lock, or is past it, only in a process
    that was told the torrent is finished, that retried it after it had failed while being packed or
    encrypted, or that found a record saying so.
   */
  lemma {:induction false} CompletionLicensed(r: Remote, name: string, fetch: bool, ls: seq<Label>)
    ensures Run(r, Torrent, name, fetch, ls).kind == Torrent
    ensures Licensed(r, Accepted(Torrent, name, fetch), ls) || OnlyFetches(Run(r, Torrent, name, fetch, ls).mem)
  {
    if ls != [] {
      var n := |ls| - 1;
      var w0, w, l := Accepted(Torrent, name, fetch), Run(r, Torrent, name, fetch, ls[..n]), ls[n];
      CompletionLicensed(r, name, fetch, ls[..n]);
      RunInv(r, Torrent, name, fetch, ls[..n]);
      TorrentStays(r, w, l);
      if l.IsCrash() {
        FetchCrash(r, w, l);
      } else if !Licensed(r, w0, ls) {
        if l.Go? {
          StepIsGo(r, w, l.t, l.event);
          FetchTurn(r, w, l.t, l.event);
        } else {
          FetchRequest(r, w, l);
        }
      }
    }
  }

  lemma TorrentStays(r: Remote, w: World, l: Label)
    requires w.kind == Torrent
    ensures Step(r, w, l).kind == Torrent
  {
    if l.Go? {
      StepIsGo(r, w, l.t, l.event);
      if l.t in w.mem.tasks {
        TurnKindKept(r, w, l.t, l.event);
      }
    } else if l.IsCrash() {
      StepIsCrash(r, w, l);
      RestartKinds(r, w, l);
    }
  }

  lemma RestartKinds(r: Remote, w: World, l: Label)
    requires l.IsCrash()
    ensures Step(r, w, l).kind == w.kind
  {
    StepIsCrash(r, w, l);
    match l
    case Crash(keep, how) => RestartSteady(r, LoseBuffer(w, keep), how);
    case CrashInAnswer(t, partial, writes, how) =>
      if Step(r, w, l) != w {
        RestartSteady(r, AnswerWrites(r, w, w.mem.tasks[t].pc.dest, w.mem.tasks[t].pc.existing, partial, writes), how);
      }
    case CrashInAcquire(t, how) => RestartSteady(r, Persist(SetStatus(w, Encrypting)), how);
    case CrashInComplete(t, how) => RestartSteady(r, w.(json := None, clash := NO_CLASH), how);
    case CrashInCancel(removed, jsonToo, how) => RestartSteady(r, PartlyCancelled(w, removed, jsonToo), how);
  }
}
