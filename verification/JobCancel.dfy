/**
  How final a cancel is. It leaves no entry, no record and no file; that stays so, whatever happens
  after it, exactly if no coroutine is left past the finalize lock or at or in `_finalize_path`. Such a
  coroutine may still save the record, and the next restart brings the job back.
 */
module JobCancel {
  import opened Bytes
  import opened Manifest
  import opened Jobs
  import opened JobProofs
  import opened JobDurability
  import opened JobContent
  import opened JobResults
  import opened JobRefutation

  /** The job is not in the table and has no record. */
  predicate Erased(w: World)
  {
    !w.mem.inStore && w.json == None && w.clash.foreign == None
  }

  /** Every coroutine has been cancelled, or waits for the finalize lock. */
  predicate NobodyInside(m: Memory)
  {
    forall t <- m.tasks :: m.tasks[t].cancelled || m.tasks[t].pc.CompleteWaiting?
  }

  // ----- it stays away -----

  lemma ErasedTurn(r: Remote, w: World, t: nat, event: Event)
    requires Erased(w) && NobodyInside(w.mem)
    ensures var v := GoStep(r, w, t, event); Erased(v) && NobodyInside(v.mem)
  {
  }

  lemma ErasedCrash(r: Remote, w: World, l: Label)
    requires Erased(w) && NobodyInside(w.mem) && l.IsCrash()
    ensures var v := Step(r, w, l); Erased(v) && NobodyInside(v.mem)
  {
  }

  lemma ErasedStep(r: Remote, w: World, l: Label)
    requires Erased(w) && NobodyInside(w.mem)
    ensures var v := Step(r, w, l); Erased(v) && NobodyInside(v.mem)
  {
    if l.Go? {
      StepIsGo(r, w, l.t, l.event);
      ErasedTurn(r, w, l.t, l.event);
    } else if l.IsCrash() {
      ErasedCrash(r, w, l);
    }
  }

  lemma {:induction false} ErasedForever(r: Remote, w: World, ls: seq<Label>)
    requires Erased(w) && NobodyInside(w.mem)
    ensures var v := Exec(r, w, ls); Erased(v) && NobodyInside(v.mem)
  {
    if ls != [] {
      ErasedForever(r, w, ls[..|ls| - 1]);
      ErasedStep(r, Exec(r, w, ls[..|ls| - 1]), ls[|ls| - 1]);
    }
  }

  // ----- or it comes back -----

  /** A job that is not in the table is not in the table of HTTP tasks either. */
  predicate Unregistered(w: World)
  {
    !w.mem.inStore ==> w.mem.registered == None
  }

  lemma SectionUnregistered(r: Remote, w: World, t: nat, event: Event)
    requires Unregistered(w) && t in w.mem.tasks
    ensures Unregistered(HttpTurn(r, w, t, event)) && Unregistered(TorrentTurn(w, t, event))
    ensures Unregistered(FinalizeTurn(r, w, t, event))
  {
  }

  lemma TurnUnregistered(r: Remote, w: World, t: nat, event: Event)
    requires Unregistered(w)
    ensures Unregistered(GoStep(r, w, t, event))
  {
    if t in w.mem.tasks {
      SectionUnregistered(r, w, t, event);
    }
  }

  lemma RestoreUnregistered(w: World, how: Reattach)
    requires w.mem.inStore
    ensures RestoreHttp(w).mem.inStore && RestoreTorrent(w, how).mem.inStore
  {
  }

  lemma RestartUnregistered(r: Remote, w: World, how: Reattach)
    ensures Unregistered(Restart(r, w, how))
  {
    if Loaded(r, w).Some? {
      RestoreUnregistered(Reloaded(w, Loaded(r, w).value), how);
    }
  }

  lemma CrashUnregistered(r: Remote, w: World, l: Label)
    requires Unregistered(w) && l.IsCrash()
    ensures Unregistered(Step(r, w, l))
  {
    match l
    case Crash(keep, how) => RestartUnregistered(r, LoseBuffer(w, keep), how);
    case CrashInAnswer(t, partial, writes, how) =>
      if Step(r, w, l) != w {
        RestartUnregistered(r, AnswerWrites(r, w, w.mem.tasks[t].pc.dest, w.mem.tasks[t].pc.existing, partial, writes), how);
      }
    case CrashInAcquire(t, how) => RestartUnregistered(r, Persist(SetStatus(w, Encrypting)), how);
    case CrashInComplete(t, how) => RestartUnregistered(r, w.(json := None, clash := NO_CLASH), how);
    case CrashInCancel(removed, jsonToo, how) => RestartUnregistered(r, PartlyCancelled(w, removed, jsonToo), how);
  }

  lemma RequestUnregistered(r: Remote, w: World, l: Label)
    requires Inv(w) && Unregistered(w) && !l.Go? && !l.IsCrash()
    ensures Unregistered(Step(r, w, l))
  {
  }

  lemma {:induction false} RunUnregistered(r: Remote, kind: Kind, name: string, fetch: bool, ls: seq<Label>)
    ensures Unregistered(Run(r, kind, name, fetch, ls))
  {
    if ls != [] {
      var w, l := Run(r, kind, name, fetch, ls[..|ls| - 1]), ls[|ls| - 1];
      RunInv(r, kind, name, fetch, ls[..|ls| - 1]);
      RunUnregistered(r, kind, name, fetch, ls[..|ls| - 1]);
      if l.Go? {
        StepIsGo(r, w, l.t, l.event);
        TurnUnregistered(r, w, l.t, l.event);
      } else if l.IsCrash() {
        CrashUnregistered(r, w, l);
      } else {
        RequestUnregistered(r, w, l);
      }
    }
  }

  /** Who is left inside when nothing is registered. */
  lemma InsideIsFinalizing(w: World, t: nat)
    requires Inv(w) && w.mem.registered == None && t in w.mem.tasks
    requires !w.mem.tasks[t].cancelled && !w.mem.tasks[t].pc.CompleteWaiting?
    ensures var pc := w.mem.tasks[t].pc; pc.FinalizeStart? || pc.CompletePacking? || InFinalize(pc)
    ensures w.mem.tasks[t].pc.Appending? ==> w.mem.tasks[t].pc.id in w.shelf.uploads
  {
  }

  /** The labels after which such a coroutine has saved the record: its exception, or its first section. */
  function Comeback(w: World, t: nat, id: string): seq<Label>
    requires t in w.mem.tasks
  {
    match w.mem.tasks[t].pc
    case FinalizeStart(_) => [Go(t, Proceed(id))]
    case Appending(u) =>
      if u in w.shelf.uploads && w.shelf.uploads[u].stage == RowWritten then [Go(t, Tick), Go(t, Break)]
      else [Thread(u, false), Go(t, Tick)]
    case _ => [Go(t, Break)]
  }

  lemma ComesBackInOne(r: Remote, w: World, t: nat, id: string)
    requires Running(w, t) && FreshId(w, id)
    requires w.mem.tasks[t].pc.FinalizeStart? || w.mem.tasks[t].pc.CompletePacking? || w.mem.tasks[t].pc.WritingDuration?
    ensures Exec(r, w, Comeback(w, t, id)).json.Some?
  {
    var event := if w.mem.tasks[t].pc.FinalizeStart? then Proceed(id) else Break;
    assert Comeback(w, t, id) == [Go(t, event)];
    ExecOne(r, w, [], Go(t, event));
    StepIsGo(r, w, t, event);
    TurnSaves(r, w, t, id);
  }

  lemma TurnSaves(r: Remote, w: World, t: nat, id: string)
    requires Running(w, t) && FreshId(w, id)
    ensures w.mem.tasks[t].pc.FinalizeStart? ==> GoStep(r, w, t, Proceed(id)).json.Some?
    ensures w.mem.tasks[t].pc.CompletePacking? || w.mem.tasks[t].pc.WritingDuration? ==>
              GoStep(r, w, t, Break).json.Some?
  {
  }

  lemma TwoSteps(r: Remote, w: World, ls: seq<Label>)
    requires |ls| == 2
    ensures Exec(r, w, ls) == Step(r, Step(r, w, ls[0]), ls[1])
  {
    ExecOne(r, w, [], ls[0]);
    ExecOne(r, w, [ls[0]], ls[1]);
    assert [ls[0]] + [ls[1]] == ls;
  }

  lemma RowThenBreak(r: Remote, w: World, t: nat, u: string)
    requires Running(w, t) && w.mem.tasks[t].pc == Appending(u)
    requires u in w.shelf.uploads && w.shelf.uploads[u].stage == RowWritten
    ensures GoStep(r, GoStep(r, w, t, Tick), t, Break).json.Some?
  {
    var v := AwaitAppend(w, t, u);
    assert GoStep(r, w, t, Tick) == v;
    assert GoStep(r, v, t, Break) == BreakStep(v, t);
  }

  lemma FailureThenTurn(r: Remote, w: World, t: nat, u: string)
    requires Running(w, t) && w.mem.tasks[t].pc == Appending(u)
    requires u in w.shelf.uploads && w.shelf.uploads[u].stage != RowWritten
    ensures GoStep(r, ThreadStep(w, u, false), t, Tick).json.Some?
  {
    var v := ThreadStep(w, u, false);
    assert v.shelf.uploads[u].stage == Broken;
    assert GoStep(r, v, t, Tick) == AwaitAppend(v, t, u);
  }

  lemma ComesBackInTwo(r: Remote, w: World, t: nat, id: string)
    requires Running(w, t) && w.mem.tasks[t].pc.Appending? && w.mem.tasks[t].pc.id in w.shelf.uploads
    ensures Exec(r, w, Comeback(w, t, id)).json.Some?
  {
    var u, ls := w.mem.tasks[t].pc.id, Comeback(w, t, id);
    TwoSteps(r, w, ls);
    StepIsGo(r, Step(r, w, ls[0]), t, ls[1].event);
    if w.shelf.uploads[u].stage == RowWritten {
      StepIsGo(r, w, t, Tick);
      RowThenBreak(r, w, t, u);
    } else {
      FailureThenTurn(r, w, t, u);
    }
  }

  lemma ComesBack(r: Remote, w: World, t: nat, id: string)
    requires Inv(w) && w.mem.registered == None && FreshId(w, id) && t in w.mem.tasks
    requires !w.mem.tasks[t].cancelled && !w.mem.tasks[t].pc.CompleteWaiting?
    ensures !Erased(Exec(r, w, Comeback(w, t, id)))
  {
    InsideIsFinalizing(w, t);
    if w.mem.tasks[t].pc.Appending? {
      ComesBackInTwo(r, w, t, id);
    } else {
      ComesBackInOne(r, w, t, id);
    }
  }

  /** It stays erased over every continuation, crashes and restarts included. */
  ghost predicate StaysErased(r: Remote, w: World)
  {
    forall ls: seq<Label> :: Erased(Exec(r, w, ls))
  }

  lemma StaysErasedExactly(r: Remote, w: World, id: string)
    requires Inv(w) && Erased(w) && w.mem.registered == None && FreshId(w, id)
    ensures StaysErased(r, w) <==> NobodyInside(w.mem)
  {
    if NobodyInside(w.mem) {
      forall ls: seq<Label>
        ensures Erased(Exec(r, w, ls))
      {
        ErasedForever(r, w, ls);
      }
    } else {
      var t :| t in w.mem.tasks && !w.mem.tasks[t].cancelled && !w.mem.tasks[t].pc.CompleteWaiting?;
      ComesBack(r, w, t, id);
    }
  }

  // ----- a cancel -----

  /** A cancel with the end of the coroutine it waits for, if there is one. */
  function CancelThrough(r: Remote, w: World, event: Event): World
  {
    var v := CancelStep(w);
    if w.mem.registered == None then v
    else CancelFinishStep(GoStep(r, v, w.mem.registered.value, event), w.mem.registered.value)
  }

  /** No coroutine but the one the cancel will end is past the lock, or at or in `_finalize_path`. */
  predicate NobodyElseInside(m: Memory)
  {
    forall t <- m.tasks :: m.registered == Some(t) || m.tasks[t].cancelled || m.tasks[t].pc.CompleteWaiting?
  }

  lemma CancelErases(r: Remote, w: World, event: Event)
    requires Inv(w) && Cancellable(w)
    ensures var v := CancelThrough(r, w, event);
            && Erased(v) && v.files == map[] && v.gone && v.mem.registered == None
            && v.mem.tasks == (if w.mem.registered.Some? then w.mem.tasks - {w.mem.registered.value} else w.mem.tasks)
            && v.shelf.uploads == w.shelf.uploads && v.shelf.placed == w.shelf.placed
  {
    if w.mem.registered.Some? {
      var t := w.mem.registered.value;
      assert CancelStep(w) == w.(mem := CancelTask(w.mem, t));
      CancelledEnds(r, CancelStep(w), t, event);
    }
  }

  lemma CancelledEnds(r: Remote, w: World, t: nat, event: Event)
    requires t in w.mem.tasks && w.mem.tasks[t].cancelled && t in w.mem.cancelling && w.mem.registered == None
    ensures var v := CancelFinishStep(GoStep(r, w, t, event), t);
            && Erased(v) && v.files == map[] && v.gone && v.mem.registered == None && v.mem.tasks == w.mem.tasks - {t}
            && v.shelf.uploads == w.shelf.uploads && v.shelf.placed == w.shelf.placed
  {
  }

  lemma CancelInvThrough(r: Remote, w: World, event: Event)
    requires Inv(w)
    ensures Inv(CancelThrough(r, w, event))
  {
    CancelInv(w);
    if w.mem.registered.Some? {
      GoInv(r, CancelStep(w), w.mem.registered.value, event);
      CancelFinishInv(GoStep(r, CancelStep(w), w.mem.registered.value, event), w.mem.registered.value);
    }
  }

  /**
    A queued, running, paused, failed or cancelled job can be cancelled in every run. It then has no
    entry, no record and no file, and no continuation whatever, with any crashes and restarts, brings it
    back, exactly if nobody else was finalizing it when it was cancelled.
   */
  lemma CancelIsFinalExactly(r: Remote, kind: Kind, name: string, fetch: bool, ls: seq<Label>, event: Event, id: string)
    requires Run(r, kind, name, fetch, ls).mem.inStore
    requires Run(r, kind, name, fetch, ls).job.status in {Queued, Downloading, Paused, Failed, Cancelled}
    requires FreshId(Run(r, kind, name, fetch, ls), id)
    ensures var w := Run(r, kind, name, fetch, ls);
            var v := CancelThrough(r, w, event);
            && Erased(v) && v.files == map[] && v.gone
            && (StaysErased(r, v) <==> NobodyElseInside(w.mem))
  {
    var w := Run(r, kind, name, fetch, ls);
    RunInv(r, kind, name, fetch, ls);
    CancelErases(r, w, event);
    CancelInvThrough(r, w, event);
    StaysErasedExactly(r, CancelThrough(r, w, event), id);
  }

  /** The same of every state of every run in which the job has neither entry nor record. */
  lemma CancelledStaysExactly(r: Remote, kind: Kind, name: string, fetch: bool, ls: seq<Label>, id: string)
    requires Erased(Run(r, kind, name, fetch, ls)) && FreshId(Run(r, kind, name, fetch, ls), id)
    ensures StaysErased(r, Run(r, kind, name, fetch, ls)) <==> NobodyInside(Run(r, kind, name, fetch, ls).mem)
  {
    RunInv(r, kind, name, fetch, ls);
    RunUnregistered(r, kind, name, fetch, ls);
    StaysErasedExactly(r, Run(r, kind, name, fetch, ls), id);
  }

  /** If every finalization begins with the pause flag down, a cancel is final. */
  lemma CleanCancelIsFinal(r: Remote, kind: Kind, name: string, fetch: bool, ls: seq<Label>)
    requires (kind == Http ==> Usable(r, name)) && Clean(r, Accepted(kind, name, fetch), ls)
    requires Erased(Run(r, kind, name, fetch, ls))
    ensures StaysErased(r, Run(r, kind, name, fetch, ls))
  {
    var w := Run(r, kind, name, fetch, ls);
    CleanIsCalm(r, kind, name, fetch, ls);
    RunUnregistered(r, kind, name, fetch, ls);
    assert NobodyInside(w.mem);
    forall more: seq<Label>
      ensures Erased(Exec(r, w, more))
    {
      ErasedForever(r, w, more);
    }
  }

  // ----- the run on which it is not -----

  lemma Packing(r: Remote, name: string, item: Item)
    ensures var w := Accepted(Torrent, name, false);
            var v := Step(r, Step(r, Step(r, w, PollScan(false, true)), Pause), Go(0, Bundle(true, "", item)));
            && v.kind == Torrent && v.mem.inStore && v.job.userPaused && v.job.status == Encrypting
            && v.mem.registered == None
            && v.mem.tasks == map[0 := Task(PollCompleteBody, CompletePacking, false)]
  {
    var w := Accepted(Torrent, name, false);
    var v1 := PollStep(w, false, true);
    assert Step(r, w, PollScan(false, true)) == v1;
    assert v1.mem.tasks == map[0 := Task(PollCompleteBody, CompleteWaiting, false)];
    var v2 := PauseStep(v1);
    assert Step(r, v1, Pause) == v2;
    StepIsGo(r, v2, 0, Bundle(true, "", item));
    assert GoStep(r, v2, 0, Bundle(true, "", item)) == AcquireStep(v2, 0, Bundle(true, "", item));
  }

  lemma Resurrects(r: Remote, w: World)
    requires w.kind == Torrent && w.mem.inStore && w.job.userPaused && w.job.status == Encrypting
    requires w.mem.registered == None
    requires w.mem.tasks == map[0 := Task(PollCompleteBody, CompletePacking, false)]
    ensures var v := Step(r, Step(r, w, Resume), Cancel);
            && Erased(v) && v.gone
            && Step(r, Step(r, v, Go(0, Break)), Crash(0, Attached)).mem.inStore
  {
    var v := Step(r, Step(r, w, Resume), Cancel);
    assert v == CancelStep(ResumeStep(w));
    StepIsGo(r, v, 0, Break);
    assert GoStep(r, v, 0, Break) == BreakStep(v, 0);
  }

  /**
    A torrent is paused while its finished entry waits, packed all the same, resumed, and cancelled;
    then the packing fails and saves the record again, and the next restart brings the job back.
   */
  lemma CancelledComesBack(r: Remote, name: string, item: Item)
    ensures exists v :: Reaches(r, Accepted(Torrent, name, false), v) && Erased(v) && v.gone
                        && exists u :: Reaches(r, v, u) && u.mem.inStore
  {
    var w := Accepted(Torrent, name, false);
    Stay(r, w);
    Then(r, w, w, PollScan(false, true));
    var v1 := Step(r, w, PollScan(false, true));
    Then(r, w, v1, Pause);
    var v2 := Step(r, v1, Pause);
    Then(r, w, v2, Go(0, Bundle(true, "", item)));
    var v3 := Step(r, v2, Go(0, Bundle(true, "", item)));
    Packing(r, name, item);
    Resurrects(r, v3);
    Then(r, w, v3, Resume);
    Then(r, w, Step(r, v3, Resume), Cancel);
    var v := Step(r, Step(r, v3, Resume), Cancel);
    Stay(r, v);
    Then(r, v, v, Go(0, Break));
    Then(r, v, Step(r, v, Go(0, Break)), Crash(0, Attached));
  }

  /**
    What `resume` unlocks on a completed job: a cancel that was refused before removes the job and its
    published blob, exactly if the pause flag was up.
   */
  lemma ResumeUnlocksWipeExactly(r: Remote, kind: Kind, name: string, fetch: bool, ls: seq<Label>)
    requires var w := Run(r, kind, name, fetch, ls); w.mem.inStore && w.job.status == Completed
    ensures var w := Run(r, kind, name, fetch, ls);
            var v := CancelStep(ResumeStep(w));
            && w.job.fileId.Some? && CancelStep(w) == w
            && (!v.mem.inStore && v.shelf.wiped == w.shelf.wiped + {w.job.fileId.value} <==> w.job.userPaused)
  {
    RunInv(r, kind, name, fetch, ls);
  }
}
