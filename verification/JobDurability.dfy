/**
  Whether a job survives: no crash loses a job that was not cancelled, exactly if no name of its
  download is the record's own.
 */
module JobDurability {
  import opened Bytes
  import opened Manifest
  import opened Jobs
  import opened JobProofs

  // ----- the invariant -----

  /** No local name of the coroutine is the record's. */
  predicate PcClear(pc: Pc)
  {
    match pc
    case HttpTopSleep(dest) => dest != JOB_STATE
    case HttpPauseSleep(dest) => dest != JOB_STATE
    case HttpConnecting(dest, _) => dest != JOB_STATE
    case HttpStreaming(dest, _, _) => dest != JOB_STATE
    case HttpUnwinding(dest) => dest != JOB_STATE
    case HttpClosing(dest) => dest != JOB_STATE
    case FinalizeStart(path) => path != JOB_STATE
    case Appending(id) => id != JOB_STATE
    case WritingDuration(id) => id != JOB_STATE
    case _ => true
  }

  predicate TasksClear(m: Memory)
  {
    forall t <- m.tasks :: PcClear(m.tasks[t].pc)
  }

  /** Nothing but saves touches the record. */
  predicate Clear(r: Remote, w: World)
  {
    && w.clash.foreign == None
    && (w.kind == Http ==>
          && r.disposition != Some(JOB_STATE) && w.job.name != JOB_STATE && TasksClear(w.mem)
          && (w.json.Some? ==> w.json.value.name != JOB_STATE))
  }

  /** Unless it was cancelled, the job is on disk: as its record, or as a published file. */
  predicate Durable(w: World)
  {
    && (w.json == None ==> w.gone || w.shelf.listed != {})
    && (!w.mem.inStore ==> w.gone || w.shelf.listed != {})
  }

  predicate Lasting(r: Remote, w: World)
  {
    Clear(r, w) && Durable(w)
  }

  /** Under other names the work directory is a map beside the record. */
  lemma PlainFile(r: Remote, w: World, n: string, b: bytes)
    requires n != JOB_STATE
    ensures IsFile(w, n) <==> n in w.files
    ensures n in w.files ==> Content(r, w, n) == w.files[n]
    ensures Unlink(w, n) == w.(files := w.files - {n}) && Put(w, n, b) == w.(files := w.files[n := b])
  {
  }

  /** The disk writes on an answer, under other names. */
  function PlainWrites(r: Remote, w: World, dest: string, existing: nat, partial: bool, writes: nat): map<string, bytes>
  {
    var rest := SendsRest(r, existing, partial);
    var name := Announced(r, w, dest);
    var renamed := r.disposition.Some? && r.disposition.value != w.job.name;
    var f1 := if writes >= 1 && existing > 0 && !rest then w.files - {dest} else w.files;
    var f2 := if writes >= 2 && renamed && dest in f1 && name !in f1 then (f1 - {dest})[name := f1[dest]] else f1;
    var f3 := if writes >= 4 && !rest then f2 - {name} else f2;
    if writes >= 5 && name !in f3 then f3[name := []] else f3
  }

  lemma PlainMove(r: Remote, w: World, dest: string, name: string)
    requires dest != JOB_STATE && name != JOB_STATE
    ensures Move(r, w, dest, name)
         == w.(files := if dest in w.files && name !in w.files then (w.files - {dest})[name := w.files[dest]] else w.files)
  {
  }

  lemma PlainOpen(w: World, name: string)
    requires name != JOB_STATE
    ensures Open(w, name) == w.(files := if name in w.files then w.files else w.files[name := []],
                                clash := w.clash.(detached := false))
  {
  }

  lemma PlainAnswer(r: Remote, w: World, dest: string, existing: nat, partial: bool, writes: nat)
    requires dest != JOB_STATE && r.disposition != Some(JOB_STATE) && w.clash.foreign == None
    ensures var v := AnswerWrites(r, w, dest, existing, partial, writes);
            var renamed := writes >= 3 && r.disposition.Some? && r.disposition.value != w.job.name;
            && v.files == PlainWrites(r, w, dest, existing, partial, writes) && v.clash.foreign == None
            && v.job.name == (if renamed then r.disposition.value else w.job.name)
            && v.json == if renamed then Persist(w.(job := v.job)).json else w.json
  {
    var rest := SendsRest(r, existing, partial);
    var name := Announced(r, w, dest);
    var renamed := r.disposition.Some? && r.disposition.value != w.job.name;
    PlainFile(r, w, dest, []);
    var w1 := if writes >= 1 && existing > 0 && !rest then Unlink(w, dest) else w;
    assert w1 == w.(files := w1.files);
    PlainMove(r, w1, dest, name);
    var w2 := if writes >= 2 && renamed then Move(r, w1, dest, name) else w1;
    assert w2 == w.(files := w2.files);
    var w3 := if writes >= 3 && renamed then Persist(w2.(job := w.job.(name := name))) else w2;
    assert w3.files == w2.files;
    PlainFile(r, w3, name, []);
    var w4 := if writes >= 4 && !rest then Unlink(w3, name) else w3;
    PlainOpen(w4, name);
  }

  // ----- every step keeps it -----

  lemma RetryHttpLasting(r: Remote, w: World)
    requires Tabled(w.kind, w.mem) && Lasting(r, w) && w.kind == Http
    ensures Lasting(r, RetryHttp(w))
  {
    PlainFile(r, w, w.job.name, []);
  }

  lemma RetryTorrentLasting(r: Remote, w: World, finished: bool, how: Reattach)
    requires Lasting(r, w) && w.kind == Torrent
    ensures Lasting(r, RetryTorrent(w, finished, how))
  {
  }

  lemma RetryLasting(r: Remote, w: World, finished: bool, how: Reattach)
    requires Inv(w) && Lasting(r, w)
    ensures Lasting(r, RetryStep(w, finished, how))
  {
    var w1 := w.(job := w.job.(userPaused := false));
    if w.kind == Http {
      RetryHttpLasting(r, w1);
    } else {
      RetryTorrentLasting(r, w1, finished, how);
    }
  }

  lemma CancelLasting(r: Remote, w: World, t: nat)
    requires Inv(w) && Lasting(r, w)
    ensures Lasting(r, CancelStep(w)) && Lasting(r, CancelFinishStep(w, t))
  {
  }

  lemma ThreadLasting(r: Remote, w: World, id: string, ok: bool)
    requires Inv(w) && Lasting(r, w)
    ensures Lasting(r, ThreadStep(w, id, ok))
  {
  }

  lemma RequestLasting(r: Remote, w: World, l: Label)
    requires Inv(w) && Lasting(r, w) && !l.Go? && !l.IsCrash()
    ensures Lasting(r, Step(r, w, l))
  {
    match l
    case Retry(finished, how) => RetryLasting(r, w, finished, how);
    case Cancel => CancelLasting(r, w, 0);
    case CancelFinish(t) => CancelLasting(r, w, t);
    case Thread(id, ok) => ThreadLasting(r, w, id, ok);
    case PollScan(raises, finished) => PollLasting(r, w, raises, finished);
    case _ => SavedLasting(r, w);
  }

  lemma PollLasting(r: Remote, w: World, raises: bool, finished: bool)
    requires Inv(w) && Lasting(r, w)
    ensures Lasting(r, PollStep(w, raises, finished))
  {
  }

  lemma SavedLasting(r: Remote, w: World)
    requires Inv(w) && Lasting(r, w)
    ensures Lasting(r, PauseStep(w)) && Lasting(r, ResumeStep(w)) && Lasting(r, FlushStep(w))
  {
  }

  lemma LoopTopLasting(r: Remote, w: World, t: nat, dest: string)
    requires Inv(w) && Lasting(r, w) && w.kind == Http && Running(w, t) && dest != JOB_STATE
    ensures Lasting(r, LoopTop(r, w, t, dest))
  {
  }

  lemma ChunkLasting(r: Remote, w: World, t: nat, n: nat)
    requires Inv(w) && Lasting(r, w) && w.kind == Http && Running(w, t) && w.mem.tasks[t].pc.HttpStreaming?
    ensures Lasting(r, ChunkStep(r, w, t, n))
  {
  }

  lemma AnswerLasting(r: Remote, w: World, t: nat, partial: bool)
    requires Inv(w) && Lasting(r, w) && w.kind == Http && Running(w, t) && w.mem.tasks[t].pc.HttpConnecting?
    ensures Lasting(r, AnswerStep(r, w, t, partial))
  {
    var pc := w.mem.tasks[t].pc;
    PlainAnswer(r, w, pc.dest, pc.existing, partial, 5);
  }

  lemma HttpTurnLasting(r: Remote, w: World, t: nat, event: Event)
    requires Inv(w) && Lasting(r, w) && w.kind == Http && Running(w, t)
    ensures Lasting(r, HttpTurn(r, w, t, event))
  {
    match w.mem.tasks[t].pc
    case HttpStart => LoopTopLasting(r, w, t, w.job.name);
    case HttpTopSleep(dest) => LoopTopLasting(r, w, t, dest);
    case HttpPauseSleep(dest) => LoopTopLasting(r, w, t, dest);
    case HttpConnecting(_, _) => if event.Answer? { AnswerLasting(r, w, t, event.partial); }
    case HttpStreaming(_, _, _) => if event.Chunk? { ChunkLasting(r, w, t, event.n); }
    case _ =>
  }

  lemma TorrentTurnLasting(r: Remote, w: World, t: nat, event: Event)
    requires Inv(w) && Lasting(r, w) && w.kind == Torrent && Running(w, t)
    ensures Lasting(r, TorrentTurn(w, t, event))
  {
  }

  lemma FinalizeHttpLasting(r: Remote, w: World, t: nat, id: string, path: string)
    requires Lasting(r, w) && Running(w, t) && id != JOB_STATE
    ensures Lasting(r, FinalizeHttp(r, w, t, id, path))
  {
  }

  lemma AwaitAppendLasting(r: Remote, w: World, t: nat, id: string)
    requires Lasting(r, w) && Running(w, t) && w.mem.tasks[t].pc == Appending(id)
    ensures Lasting(r, AwaitAppend(w, t, id))
  {
  }

  lemma CompleteLasting(r: Remote, w: World, t: nat, id: string)
    requires Lasting(r, w) && Running(w, t) && (w.kind == Http ==> id != JOB_STATE) && id in w.shelf.listed
    ensures Lasting(r, Complete(w, t, id))
  {
    assert w.shelf.listed != {};
  }

  lemma FinalizeTurnLasting(r: Remote, w: World, t: nat, event: Event)
    requires Inv(w) && Lasting(r, w) && Running(w, t) && Finishing(w.mem.tasks[t].pc)
    ensures Lasting(r, FinalizeTurn(r, w, t, event))
  {
    match w.mem.tasks[t].pc
    case HttpClosing(path) => if event.Proceed? && FreshId(w, event.id) { FinalizeHttpLasting(r, w, t, event.id, path); }
    case FinalizeStart(path) => if event.Proceed? && FreshId(w, event.id) { FinalizeHttpLasting(r, w, t, event.id, path); }
    case Appending(id) => AwaitAppendLasting(r, w, t, id);
    case WritingDuration(id) =>
      assert Started(w.mem.tasks[t].pc, w.shelf);
      CompleteLasting(r, w, t, id);
  }

  lemma EndLasting(r: Remote, w: World, t: nat)
    requires Inv(w) && Lasting(r, w) && t in w.mem.tasks
    ensures Lasting(r, BreakStep(w, t)) && Lasting(r, Cancelling(w, t))
  {
  }

  lemma GoLasting(r: Remote, w: World, t: nat, event: Event)
    requires Inv(w) && Lasting(r, w)
    ensures Lasting(r, GoStep(r, w, t, event))
  {
    if t in w.mem.tasks {
      EndLasting(r, w, t);
      if Running(w, t) {
        if Finishing(w.mem.tasks[t].pc) {
          FinalizeTurnLasting(r, w, t, event);
        } else if w.kind == Http {
          HttpTurnLasting(r, w, t, event);
        } else {
          TorrentTurnLasting(r, w, t, event);
        }
      }
    }
  }

  /** What a restart needs of the disk to know the job again. */
  predicate DiskLasting(r: Remote, w: World)
  {
    && OnDisk(w) && w.clash.foreign == None && (w.json == None ==> w.gone || w.shelf.listed != {})
    && (w.kind == Http ==> r.disposition != Some(JOB_STATE) && (w.json.Some? ==> w.json.value.name != JOB_STATE))
  }

  lemma RestoreHttpLasting(r: Remote, w: World)
    requires w.mem.inStore && Persistable(w.job.status) && TasksClear(w.mem) && w.kind == Http
    requires r.disposition != Some(JOB_STATE) && w.job.name != JOB_STATE
    ensures Lasting(r, RestoreHttp(w))
  {
    var v := RestoreHttp(w);
    if w.job.status == Failed {
      assert v.mem == w.mem;
    } else {
      assert v.mem.tasks == w.mem.tasks[w.mem.nextTask := v.mem.tasks[w.mem.nextTask]];
    }
  }

  lemma RestoreTorrentLasting(r: Remote, w: World, how: Reattach)
    requires w.mem.inStore && Persistable(w.job.status) && w.kind == Torrent
    ensures Lasting(r, RestoreTorrent(w, how))
  {
  }

  lemma RestartLasting(r: Remote, w: World, how: Reattach)
    requires DiskLasting(r, w)
    ensures Lasting(r, Restart(r, w, how))
  {
    if w.json.Some? {
      if w.kind == Http {
        RestoreHttpLasting(r, Reloaded(w, w.json.value));
      } else {
        RestoreTorrentLasting(r, Reloaded(w, w.json.value), how);
      }
    }
  }

  lemma LastingDisk(r: Remote, w: World)
    requires Inv(w) && Lasting(r, w)
    ensures DiskLasting(r, w)
  {
    InvOnDisk(w);
  }

  lemma CrashInAnswerLasting(r: Remote, w: World, t: nat, partial: bool, writes: nat, how: Reattach)
    requires Inv(w) && Lasting(r, w)
    ensures Lasting(r, CrashInAnswerStep(r, w, t, partial, writes, how))
  {
    if CrashInAnswerStep(r, w, t, partial, writes, how) != w {
      var pc := w.mem.tasks[t].pc;
      assert WellPlaced(w.kind, w.mem.tasks[t]) && PcClear(pc);
      InvOnDisk(w);
      PlainAnswer(r, w, pc.dest, pc.existing, partial, writes);
      AnswerOnDisk(r, w, pc.dest, pc.existing, partial, writes);
      RestartLasting(r, AnswerWrites(r, w, pc.dest, pc.existing, partial, writes), how);
    }
  }

  lemma CrashLasting(r: Remote, w: World, l: Label)
    requires Inv(w) && Lasting(r, w) && l.IsCrash()
    ensures Lasting(r, Step(r, w, l))
  {
    StepIsCrash(r, w, l);
    LastingDisk(r, w);
    match l
    case Crash(keep, how) => RestartLasting(r, LoseBuffer(w, keep), how);
    case CrashInAnswer(t, partial, writes, how) => CrashInAnswerLasting(r, w, t, partial, writes, how);
    case CrashInAcquire(t, how) => if Step(r, w, l) != w { RestartLasting(r, Persist(SetStatus(w, Encrypting)), how); }
    case CrashInComplete(t, how) =>
      if Step(r, w, l) != w {
        assert Started(w.mem.tasks[t].pc, w.shelf);
        RestartLasting(r, w.(json := None, clash := NO_CLASH), how);
      }
    case CrashInCancel(removed, jsonToo, how) => RestartLasting(r, PartlyCancelled(w, removed, jsonToo), how);
  }

  lemma StepLasting(r: Remote, w: World, l: Label)
    requires Inv(w) && Lasting(r, w)
    ensures Lasting(r, Step(r, w, l))
  {
    if l.Go? {
      GoLasting(r, w, l.t, l.event);
    } else if l.IsCrash() {
      CrashLasting(r, w, l);
    } else {
      RequestLasting(r, w, l);
    }
  }

  lemma {:induction false} RunLasting(r: Remote, kind: Kind, name: string, fetch: bool, ls: seq<Label>)
    requires kind == Http ==> Usable(r, name)
    ensures Lasting(r, Run(r, kind, name, fetch, ls))
  {
    if ls != [] {
      RunInv(r, kind, name, fetch, ls[..|ls| - 1]);
      RunLasting(r, kind, name, fetch, ls[..|ls| - 1]);
      StepLasting(r, Run(r, kind, name, fetch, ls[..|ls| - 1]), ls[|ls| - 1]);
    }
  }

  // ----- no crash loses a job -----

  /** The job survives: a restart knows it and saves it again, or it is published as a blob with its row. */
  predicate Survives(r: Remote, w: World, how: Reattach)
  {
    || (Restart(r, w, how).mem.inStore && Restart(r, w, how).json.Some?)
    || (exists id <- w.shelf.listed :: id in w.shelf.placed && id !in w.shelf.wiped)
  }

  /**
    No crash loses a job that was not cancelled; `ls` includes the crashes between two disk writes. A
    download may not use the name of the record.
   */
  lemma CrashDurable(r: Remote, kind: Kind, name: string, fetch: bool, ls: seq<Label>, how: Reattach)
    requires kind == Http ==> Usable(r, name)
    ensures var w := Run(r, kind, name, fetch, ls); w.gone || Survives(r, w, how)
  {
    RunInv(r, kind, name, fetch, ls);
    RunLasting(r, kind, name, fetch, ls);
    var w := Run(r, kind, name, fetch, ls);
    if w.json.Some? {
      ReloadedInv(w, w.json.value, how);
    } else if !w.gone {
      var id :| id in w.shelf.listed;
      assert id in w.shelf.placed && id !in w.shelf.wiped;
    }
  }

  /** The record has been unlinked, and nothing has taken its place. */
  predicate Lost(w: World)
  {
    w.json == None && w.clash.foreign == None && w.shelf.listed == {} && !w.gone
  }

  lemma LostIsNotSurviving(r: Remote, w: World, how: Reattach)
    requires Lost(w)
    ensures !w.gone && !Survives(r, w, how)
  {
  }

  lemma FirstTurn(r: Remote, name: string)
    ensures var w := Accepted(Http, name, false);
            && Step(r, w, Go(0, Tick)) == LoopTop(r, w, 0, name)
            && var have := if name == JOB_STATE then |r.encode(Snapshot(w.job))| else 0;
               LoopTop(r, w, 0, name).mem.tasks == map[0 := Task(HttpBody, HttpConnecting(name, have), false)]
  {
  }

  /** The first answer unlinks the record: as the file that a restart drops, or as what is in the way. */
  lemma AnswerUnlinks(r: Remote, name: string)
    requires RecordSound(r) && (name == JOB_STATE || FinalName(r, name) == JOB_STATE)
    ensures var w := LoopTop(r, Accepted(Http, name, false), 0, name);
            Lost(AnswerWrites(r, w, name, w.mem.tasks[0].pc.existing, false, if name == JOB_STATE then 1 else 4))
  {
    FirstTurn(r, name);
  }

  /** The first request is answered from the start, and the process dies once the record is unlinked. */
  function LosingRun(name: string): seq<Label>
  {
    [Go(0, Tick), CrashInAnswer(0, false, if name == JOB_STATE then 1 else 4, Attached)]
  }

  /** A download under the record's name can lose the job. */
  lemma RecordNameLosesJob(r: Remote, name: string)
    requires RecordSound(r) && (name == JOB_STATE || FinalName(r, name) == JOB_STATE)
    ensures Lost(Run(r, Http, name, false, LosingRun(name)))
  {
    var w, ls := Accepted(Http, name, false), LosingRun(name);
    FirstTurn(r, name);
    AnswerUnlinks(r, name);
    var v := LoopTop(r, w, 0, name);
    var u := AnswerWrites(r, v, name, v.mem.tasks[0].pc.existing, false, if name == JOB_STATE then 1 else 4);
    assert Step(r, v, ls[1]) == Restart(r, u, Attached);
    assert Lost(Restart(r, u, Attached));
    ExecOne(r, w, [], ls[0]);
    ExecOne(r, w, [ls[0]], ls[1]);
    assert [ls[0]] + [ls[1]] == ls;
  }

  lemma ExecOne(r: Remote, w: World, ls: seq<Label>, l: Label)
    ensures Exec(r, w, ls + [l]) == Step(r, Exec(r, w, ls), l)
    ensures Exec(r, w, []) == w && [] + [l] == [l]
  {
    assert (ls + [l])[..|ls + [l]| - 1] == ls;
  }

  /**
    For plain names: no run with any crashes loses a job that was not cancelled, exactly if neither the
    name given to `add_url` nor the announced one is the record's.
   */
  lemma DurableExactly(r: Remote, name: string)
    requires RecordSound(r) && PlainName(name) && PlainName(FinalName(r, name))
    ensures (forall ls: seq<Label>, how ::
               var w := Run(r, Http, name, false, ls); w.gone || Survives(r, w, how))
            <==> name != JOB_STATE && FinalName(r, name) != JOB_STATE
  {
    if Usable(r, name) {
      forall ls: seq<Label>, how
        ensures var w := Run(r, Http, name, false, ls); w.gone || Survives(r, w, how)
      {
        CrashDurable(r, Http, name, false, ls, how);
      }
    } else {
      RecordNameLosesJob(r, name);
      LostIsNotSurviving(r, Run(r, Http, name, false, LosingRun(name)), Attached);
    }
  }
}
