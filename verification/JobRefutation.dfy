/**
  What `resume` does to a completed job whose pause flag is up: its record comes back with the state
  "encrypting", and after two restarts a file that was not downloaded is published. The lemmas give
  the run, show that such a completed job occurs, and prove that the flag alone decides.
 */
module JobRefutation {
  import opened Bytes
  import opened Manifest
  import opened Jobs
  import opened JobProofs
  import opened JobDurability
  import opened JobContent
  import opened JobResults

  ghost predicate Reaches(r: Remote, w: World, v: World)
  {
    exists ls: seq<Label> :: Exec(r, w, ls) == v
  }

  lemma Stay(r: Remote, w: World)
    ensures Reaches(r, w, w)
  {
    assert Exec(r, w, []) == w;
  }

  lemma Then(r: Remote, w: World, v: World, l: Label)
    requires Reaches(r, w, v)
    ensures Reaches(r, w, Step(r, v, l))
  {
    var ls: seq<Label> :| Exec(r, w, ls) == v;
    var more := ls + [l];
    assert more[..|more| - 1] == ls;
    assert Exec(r, w, more) == Step(r, v, l);
  }

  // ----- from a completed job to a partial file -----

  /** A process that just restarted the download of an HTTP job, with "encrypting" on record. */
  predicate Stale(w: World)
  {
    && w.kind == Http && !w.job.userPaused && w.job.status == Downloading && w.job.phase == EncryptingPhase
    && w.mem == Spawn(NO_MEMORY.(inStore := true), HttpBody, HttpStart) && w.json == Some(Snapshot(w.job))
    && w.files == map[] && w.shelf.uploads == map[] && w.job.name != JOB_STATE && w.clash.foreign == None
  }

  lemma Resurrected(r: Remote, name: string, w: World)
    requires Inv(w) && Clear(r, w) && Whole(r, name, w) && w.mem.inStore && w.job.status == Completed && w.job.userPaused
    ensures exists v :: Stale(v) && v.shelf.placed == w.shelf.placed && Reaches(r, w, v)
  {
    Stay(r, w);
    Then(r, w, w, Resume);
    var w1 := Step(r, w, Resume);
    assert w1 == ResumeStep(w);
    Then(r, w, w1, Crash(0, Attached));
    var v := Step(r, w1, Crash(0, Attached));
    assert w1.files == map[];
    assert LoseBuffer(w1, 0).files == map[];
    assert Stale(v);
  }

  lemma Opened(r: Remote, v: World)
    requires Stale(v) && r.disposition != Some(JOB_STATE)
    ensures var v2 := Step(r, Step(r, v, Go(0, Tick)), Go(0, Answer(false)));
            && v2.files == map[v2.job.name := []] && v2.json == Some(Snapshot(v2.job)) && v2.kind == Http
            && v2.job == v.job.(name := v2.job.name) && v2.shelf == v.shelf
  {
    var dest := v.job.name;
    var v1 := Step(r, v, Go(0, Tick));
    assert v1 == LoopTop(r, v, 0, dest);
    assert v1.mem.tasks == map[0 := Task(HttpBody, HttpConnecting(dest, 0), false)];
    assert Step(r, v1, Go(0, Answer(false))) == AnswerStep(r, v1, 0, false);
  }

  lemma CrashFinalizes(r: Remote, v: World)
    requires v.kind == Http && v.files == map[v.job.name := []] && v.json == Some(Snapshot(v.job)) && v.clash.foreign == None
    requires v.job.status == Downloading && v.job.phase == EncryptingPhase && v.job.name != JOB_STATE
    ensures var u := Step(r, v, Crash(0, Attached));
            && u.shelf.placed == v.shelf.placed && u.shelf.uploads == map[] && u.kind == Http && u.files == v.files
            && u.mem.tasks == map[0 := Task(FinalizeBody, FinalizeStart(v.job.name), false)]
  {
    assert LoseBuffer(v, 0).files == v.files;
  }

  /** The file is opened and nothing of it is written when the next crash comes. */
  lemma Interrupted(r: Remote, w: World, v: World)
    requires Stale(v) && Reaches(r, w, v) && r.disposition != Some(JOB_STATE)
    ensures exists u, path :: Reaches(r, w, u) && path != JOB_STATE && u.shelf.placed == v.shelf.placed && u.shelf.uploads == map[]
                              && u.kind == Http && u.mem.tasks == map[0 := Task(FinalizeBody, FinalizeStart(path), false)]
                              && u.files == map[path := []]
  {
    Then(r, w, v, Go(0, Tick));
    var v1 := Step(r, v, Go(0, Tick));
    Then(r, w, v1, Go(0, Answer(false)));
    var v2 := Step(r, v1, Go(0, Answer(false)));
    Opened(r, v);
    Then(r, w, v2, Crash(0, Attached));
    CrashFinalizes(r, v2);
  }

  lemma EmptyPublished(r: Remote, w: World, u: World, path: string, id: string)
    requires Reaches(r, w, u) && u.kind == Http && u.mem.tasks == map[0 := Task(FinalizeBody, FinalizeStart(path), false)]
    requires u.files == map[path := []] && u.shelf.uploads == map[] && id !in u.shelf.placed
    requires path != JOB_STATE && id != JOB_STATE
    ensures exists x :: Reaches(r, w, x) && id in x.shelf.placed && x.shelf.placed[id] == Item([], path)
  {
    Then(r, w, u, Go(0, Proceed(id)));
    var u1 := Step(r, u, Go(0, Proceed(id)));
    assert u1 == BeginFinalize(u, 0, id, true, Some(Item([], path)));
    Then(r, w, u1, Thread(id, true));
    var x := Step(r, u1, Thread(id, true));
    assert x == ThreadStep(u1, id, true);
  }

  lemma ResumeCanPublishPartial(r: Remote, name: string, w: World, id: string)
    requires Inv(w) && Clear(r, w) && Whole(r, name, w) && w.mem.inStore && w.job.status == Completed && w.job.userPaused
    requires r.content != [] && id !in w.shelf.placed && id != JOB_STATE
    ensures exists x :: Reaches(r, w, x) && !AllWhole(r, name, x)
  {
    Resurrected(r, name, w);
    var v :| Stale(v) && v.shelf.placed == w.shelf.placed && Reaches(r, w, v);
    Interrupted(r, w, v);
    var u, path :| Reaches(r, w, u) && path != JOB_STATE && u.shelf.placed == v.shelf.placed && u.shelf.uploads == map[]
                   && u.kind == Http && u.mem.tasks == map[0 := Task(FinalizeBody, FinalizeStart(path), false)]
                   && u.files == map[path := []];
    EmptyPublished(r, w, u, path, id);
    var x :| Reaches(r, w, x) && id in x.shelf.placed && x.shelf.placed[id] == Item([], path);
    assert !AllWhole(r, name, x);
  }

  // ----- and otherwise nothing happens -----

  /** Done for good: completed and unpaused, or not known to the process and not on record. */
  predicate Settled(r: Remote, name: string, w: World)
  {
    && Inv(w) && Lasting(r, w) && Whole(r, name, w) && w.json == None
    && (w.mem.inStore ==> w.job.status == Completed && !w.job.userPaused)
  }

  lemma SettledStep(r: Remote, name: string, w: World, l: Label)
    requires Settled(r, name, w)
    ensures Settled(r, name, Step(r, w, l))
  {
    StepInv(r, w, l);
    StepLasting(r, w, l);
    StepWhole(r, name, w, l);
    if l.Go? {
      SettledTurn(r, name, w, l.t, l.event);
    } else if l.IsCrash() {
      SettledCrash(r, name, w, l);
    }
  }

  lemma SettledTurn(r: Remote, name: string, w: World, t: nat, event: Event)
    requires Settled(r, name, w)
    ensures var v := GoStep(r, w, t, event);
            v.json == None && v.mem.inStore == w.mem.inStore && (w.mem.inStore ==> v == w)
  {
  }

  lemma SettledCrash(r: Remote, name: string, w: World, l: Label)
    requires Settled(r, name, w) && l.IsCrash()
    ensures var v := Step(r, w, l); v.json == None && (v == w || !v.mem.inStore)
  {
  }

  lemma {:induction false} SettledForever(r: Remote, name: string, w: World, ls: seq<Label>)
    requires Settled(r, name, w)
    ensures Settled(r, name, Exec(r, w, ls))
  {
    if ls != [] {
      SettledForever(r, name, w, ls[..|ls| - 1]);
      SettledStep(r, name, Exec(r, w, ls[..|ls| - 1]), ls[|ls| - 1]);
    }
  }

  /**
    A job that a calm run has completed can only ever publish whole files, whatever happens after
    that, exactly if its pause flag is down.
   */
  lemma CompletedSafeExactly(r: Remote, name: string, ls: seq<Label>, id: string)
    requires Usable(r, name) && Calm(r, Accepted(Http, name, false), ls) && r.content != [] && id != JOB_STATE
    requires var w := Run(r, Http, name, false, ls);
             w.mem.inStore && w.job.status == Completed && id !in w.shelf.placed
    ensures var w := Run(r, Http, name, false, ls);
            (forall x :: Reaches(r, w, x) ==> AllWhole(r, name, x)) <==> !w.job.userPaused
  {
    RunWhole(r, name, ls);
    var w := Run(r, Http, name, false, ls);
    if w.job.userPaused {
      ResumeCanPublishPartial(r, name, w, id);
    } else {
      forall x | Reaches(r, w, x)
        ensures AllWhole(r, name, x)
      {
        var more: seq<Label> :| Exec(r, w, more) == x;
        SettledForever(r, name, w, more);
      }
    }
  }

  // ----- such jobs occur -----

  ghost predicate CalmlyReaches(r: Remote, w: World, v: World)
  {
    exists ls: seq<Label> :: Calm(r, w, ls) && Exec(r, w, ls) == v
  }

  lemma CalmlyThen(r: Remote, w: World, v: World, l: Label)
    requires CalmlyReaches(r, w, v) && CalmStep(v, l)
    ensures CalmlyReaches(r, w, Step(r, v, l))
  {
    var ls: seq<Label> :| Calm(r, w, ls) && Exec(r, w, ls) == v;
    var more := ls + [l];
    assert more[..|more| - 1] == ls;
    assert Calm(r, w, more) && Exec(r, w, more) == Step(r, v, l);
  }

  /** The whole file is there, and the stream has just ended. */
  predicate Drained(v: World, path: string)
  {
    && v.kind == Http && v.mem.inStore && !v.job.userPaused && v.job.status == Downloading
    && v.mem.tasks == map[0 := Task(HttpBody, HttpClosing(path), false)]
    && path != JOB_STATE && path in v.files && v.shelf == Shelf(map[], map[], {}, {}, {}, false)
  }

  lemma Streamed(r: Remote, name: string)
    requires Usable(r, name)
    ensures var v := Step(r, Step(r, Accepted(Http, name, false), Go(0, Tick)), Go(0, Answer(false)));
            var final := FinalName(r, name);
            && v.kind == Http && v.mem.inStore && !v.job.userPaused && v.job.status == Downloading
            && v.mem.tasks == map[0 := Task(HttpBody, HttpStreaming(final, r.content, 0), false)]
            && v.files == map[final := []] && v.shelf == Shelf(map[], map[], {}, {}, {}, false)
  {
    var w := Accepted(Http, name, false);
    var v1 := Step(r, w, Go(0, Tick));
    assert v1 == LoopTop(r, w, 0, name);
    assert v1.mem.tasks == map[0 := Task(HttpBody, HttpConnecting(name, 0), false)];
    assert Step(r, v1, Go(0, Answer(false))) == AnswerStep(r, v1, 0, false);
  }

  /** The stream is open, with the whole content to come. */
  predicate Streams(r: Remote, v: World, path: string)
  {
    && v.kind == Http && v.mem.inStore && !v.job.userPaused && v.job.status == Downloading
    && v.mem.tasks == map[0 := Task(HttpBody, HttpStreaming(path, r.content, 0), false)]
    && path != JOB_STATE && v.files == map[path := []] && v.shelf == Shelf(map[], map[], {}, {}, {}, false)
  }

  lemma StreamReachable(r: Remote, name: string)
    requires Usable(r, name)
    ensures exists v :: CalmlyReaches(r, Accepted(Http, name, false), v) && Streams(r, v, FinalName(r, name))
  {
    var w := Accepted(Http, name, false);
    assert Calm(r, w, []) && Exec(r, w, []) == w;
    CalmlyThen(r, w, w, Go(0, Tick));
    var v1 := Step(r, w, Go(0, Tick));
    CalmlyThen(r, w, v1, Go(0, Answer(false)));
    Streamed(r, name);
  }

  lemma GoFinalizes(r: Remote, w: World, t: nat, event: Event)
    requires Running(w, t) && Finishing(w.mem.tasks[t].pc) && !event.Break?
    ensures Step(r, w, Go(t, event)) == FinalizeTurn(r, w, t, event)
  {
  }

  /** The content in one chunk, then the end of the stream. */
  lemma WholeChunk(r: Remote, v: World, path: string)
    requires Streams(r, v, path)
    ensures var v1 := GoStep(r, v, 0, Chunk(|r.content|));
            var v2 := GoStep(r, v1, 0, Chunk(0));
            && Drained(v2, path) && v2.files[path] == r.content
            && v1.job.fileId == v2.job.fileId == v.job.fileId
  {
    var v1 := ChunkStep(r, v, 0, |r.content|);
    GoIsChunk(r, v, 0, |r.content|);
    if r.content == [] {
      assert v1.mem.tasks == map[0 := Task(HttpBody, HttpClosing(path), false)];
      GoFinalizes(r, v1, 0, Chunk(0));
    } else {
      assert [] + r.content[..|r.content|] == r.content && r.content[|r.content|..] == [];
      assert v1.mem.tasks == map[0 := Task(HttpBody, HttpStreaming(path, [], |r.content|), false)];
      GoIsChunk(r, v1, 0, 0);
    }
  }

  lemma DrainedReachable(r: Remote, name: string)
    requires Usable(r, name)
    ensures exists v :: CalmlyReaches(r, Accepted(Http, name, false), v) && Drained(v, FinalName(r, name))
  {
    StreamReachable(r, name);
    var w, final := Accepted(Http, name, false), FinalName(r, name);
    var v :| CalmlyReaches(r, w, v) && Streams(r, v, final);
    WholeChunk(r, v, final);
    StepIsGo(r, v, 0, Chunk(|r.content|));
    CalmlyThen(r, w, v, Go(0, Chunk(|r.content|)));
    StepIsGo(r, GoStep(r, v, 0, Chunk(|r.content|)), 0, Chunk(0));
    CalmlyThen(r, w, GoStep(r, v, 0, Chunk(|r.content|)), Go(0, Chunk(0)));
  }

  /** A paused job is being finalized, and its thread has done `stage`. */
  predicate Publishing(v: World, id: string, pc: Pc, stage: Stage)
  {
    && v.kind == Http && v.mem.inStore && v.job.userPaused
    && v.mem.tasks == map[0 := Task(HttpBody, pc, false)]
    && v.shelf.uploads.Keys == {id} && v.shelf.uploads[id].stage == stage
    && v.shelf.placed.Keys == if stage == Sealing then {} else {id}
  }

  lemma PausedDrained(r: Remote, v: World, path: string, id: string)
    requires Drained(v, path) && id != JOB_STATE
    ensures var v1 := PauseStep(v);
            && v1.mem == v.mem && v1.shelf == v.shelf && v1.kind == v.kind && v1.job.userPaused
            && Publishing(FinalizeHttp(r, v1, 0, id, path), id, Appending(id), Sealing)
  {
  }

  lemma PausedThenFinalized(r: Remote, w: World, v: World, path: string, id: string)
    requires CalmlyReaches(r, w, v) && Drained(v, path) && id != JOB_STATE
    ensures exists x :: CalmlyReaches(r, w, x) && Publishing(x, id, Appending(id), Sealing)
  {
    CalmlyThen(r, w, v, Pause);
    var v1 := PauseStep(v);
    PausedDrained(r, v, path, id);
    GoFinalizes(r, v1, 0, Proceed(id));
    CalmlyThen(r, w, v1, Go(0, Proceed(id)));
  }

  lemma FinalizedThenRow(r: Remote, w: World, v: World, id: string)
    requires CalmlyReaches(r, w, v) && Publishing(v, id, Appending(id), Sealing)
    ensures exists x :: CalmlyReaches(r, w, x) && Publishing(x, id, Appending(id), RowWritten)
  {
    CalmlyThen(r, w, v, Thread(id, true));
    var v1 := Step(r, v, Thread(id, true));
    assert v1 == ThreadStep(v, id, true) && Publishing(v1, id, Appending(id), BlobPlaced);
    CalmlyThen(r, w, v1, Thread(id, true));
    var v2 := Step(r, v1, Thread(id, true));
    assert v2 == ThreadStep(v1, id, true) && Publishing(v2, id, Appending(id), RowWritten);
  }

  lemma CompletedPaused(v: World, id: string)
    requires Publishing(v, id, Appending(id), RowWritten)
    ensures var v1 := AwaitAppend(v, 0, id);
            && Publishing(v1, id, WritingDuration(id), RowWritten) && Running(v1, 0)
            && var v2 := Complete(v1, 0, id);
               v2.mem.inStore && v2.job.status == Completed && v2.job.userPaused && v2.shelf.placed.Keys == {id}
  {
  }

  lemma RowThenCompleted(r: Remote, w: World, v: World, id: string)
    requires CalmlyReaches(r, w, v) && Publishing(v, id, Appending(id), RowWritten)
    ensures exists x :: CalmlyReaches(r, w, x) && x.mem.inStore && x.job.status == Completed && x.job.userPaused
                        && x.shelf.placed.Keys == {id}
  {
    CompletedPaused(v, id);
    var v1 := AwaitAppend(v, 0, id);
    GoFinalizes(r, v, 0, Tick);
    CalmlyThen(r, w, v, Go(0, Tick));
    GoFinalizes(r, v1, 0, Tick);
    CalmlyThen(r, w, v1, Go(0, Tick));
  }

  /** A pause that lands between the end of the stream and the finalization leaves its flag up for good. */
  lemma PausedCompletionReachable(r: Remote, name: string, id: string)
    requires Usable(r, name) && id != JOB_STATE
    ensures exists x :: CalmlyReaches(r, Accepted(Http, name, false), x)
                        && x.mem.inStore && x.job.status == Completed && x.job.userPaused && x.shelf.placed.Keys == {id}
  {
    DrainedReachable(r, name);
    var v :| CalmlyReaches(r, Accepted(Http, name, false), v) && Drained(v, FinalName(r, name));
    var w := Accepted(Http, name, false);
    PausedThenFinalized(r, w, v, FinalName(r, name), id);
    var x :| CalmlyReaches(r, w, x) && Publishing(x, id, Appending(id), Sealing);
    FinalizedThenRow(r, w, x, id);
    var y :| CalmlyReaches(r, w, y) && Publishing(y, id, Appending(id), RowWritten);
    RowThenCompleted(r, w, y, id);
  }

  /** So without the condition on `resume` a run publishes something that is not the remote file. */
  lemma PartialFileReachable(r: Remote, name: string, id: string, other: string)
    requires Usable(r, name) && id != JOB_STATE && other != JOB_STATE && r.content != [] && id != other
    ensures exists ls: seq<Label> :: !AllWhole(r, name, Run(r, Http, name, false, ls))
  {
    var w := Accepted(Http, name, false);
    PausedCompletionReachable(r, name, id);
    var x :| CalmlyReaches(r, w, x) && x.mem.inStore && x.job.status == Completed && x.job.userPaused
             && x.shelf.placed.Keys == {id};
    var ls: seq<Label> :| Calm(r, w, ls) && Exec(r, w, ls) == x;
    RunWhole(r, name, ls);
    ResumeCanPublishPartial(r, name, x, other);
    var y :| Reaches(r, x, y) && !AllWhole(r, name, y);
    var more: seq<Label> :| Exec(r, x, more) == y;
    ExecJoins(r, w, ls, more);
    assert Run(r, Http, name, false, ls + more) == y;
  }

  // ----- a download under the name of the record -----

  /** A download into the record's file, with `have` of the content in it. */
  predicate IntoRecord(w: World, pc: Pc, have: bytes)
  {
    && w.kind == Http && w.mem.inStore && !w.job.userPaused && w.job.status == Downloading && w.job.name == JOB_STATE
    && w.mem.tasks == map[0 := Task(HttpBody, pc, false)]
    && w.json == None && w.clash == Clash(Some(have), false) && w.shelf == Shelf(map[], map[], {}, {}, {}, false)
  }

  lemma OpensRecord(r: Remote, name: string)
    requires RecordSound(r) && FinalName(r, name) == JOB_STATE
    ensures var w := Accepted(Http, name, false);
            var v := Step(r, Step(r, w, Go(0, Tick)), Go(0, Answer(false)));
            IntoRecord(v, HttpStreaming(JOB_STATE, r.content, 0), [])
  {
    FirstTurn(r, name);
    var v := LoopTop(r, Accepted(Http, name, false), 0, name);
    assert Step(r, v, Go(0, Answer(false))) == AnswerStep(r, v, 0, false);
  }

  lemma FillsRecord(r: Remote, w: World)
    requires IntoRecord(w, HttpStreaming(JOB_STATE, r.content, 0), [])
    ensures var v := Step(r, Step(r, w, Go(0, Chunk(|r.content|))), Go(0, Chunk(0)));
            IntoRecord(v, HttpClosing(JOB_STATE), r.content)
  {
    GoIsChunk(r, w, 0, |r.content|);
    var v := ChunkStep(r, w, 0, |r.content|);
    if r.content == [] {
      assert v.mem.tasks == map[0 := Task(HttpBody, HttpClosing(JOB_STATE), false)];
      GoFinalizes(r, v, 0, Chunk(0));
    } else {
      assert [] + r.content[..|r.content|] == r.content && r.content[|r.content|..] == [];
      assert v.mem.tasks == map[0 := Task(HttpBody, HttpStreaming(JOB_STATE, [], |r.content|), false)];
      GoIsChunk(r, v, 0, 0);
    }
  }

  /** What the encryption thread gets is the record that was just saved. */
  lemma EncryptsRecord(r: Remote, w: World, id: string, paused: bool)
    requires IntoRecord(w, HttpClosing(JOB_STATE), r.content) && id != JOB_STATE
    ensures var w1 := if paused then PauseStep(w) else w;
            var v := Step(r, Step(r, w1, Go(0, Proceed(id))), Thread(id, true));
            id in v.shelf.placed
            && v.shelf.placed[id] == Item(r.encode(Saved(Encrypting, paused, EncryptingPhase, JOB_STATE, 0)), JOB_STATE)
  {
    var w1 := if paused then PauseStep(w) else w;
    GoFinalizes(r, w1, 0, Proceed(id));
    assert Step(r, w1, Go(0, Proceed(id))) == FinalizeHttp(r, w1, 0, id, JOB_STATE);
  }

  /**
    When the announced name is the record's, a calm run publishes the record in place of the content,
    for any content at all.
   */
  lemma RecordPublished(r: Remote, name: string, id: string)
    requires RecordSound(r) && FinalName(r, name) == JOB_STATE && id != JOB_STATE
    ensures exists v :: CalmlyReaches(r, Accepted(Http, name, false), v) && !AllWhole(r, name, v)
  {
    var w := Accepted(Http, name, false);
    var calm := Saved(Encrypting, false, EncryptingPhase, JOB_STATE, 0);
    var paused := calm.(userPaused := true);
    assert r.decode(r.encode(calm)) == Some(calm) && r.decode(r.encode(paused)) == Some(paused);
    var pause := r.encode(calm) == r.content;
    OpensRecord(r, name);
    assert Calm(r, w, []) && Exec(r, w, []) == w;
    CalmlyThen(r, w, w, Go(0, Tick));
    var v1 := Step(r, w, Go(0, Tick));
    CalmlyThen(r, w, v1, Go(0, Answer(false)));
    var v2 := Step(r, v1, Go(0, Answer(false)));
    FillsRecord(r, v2);
    CalmlyThen(r, w, v2, Go(0, Chunk(|r.content|)));
    var v3 := Step(r, v2, Go(0, Chunk(|r.content|)));
    CalmlyThen(r, w, v3, Go(0, Chunk(0)));
    RecordEncrypted(r, w, Step(r, v3, Go(0, Chunk(0))), id, pause);
    var v :| CalmlyReaches(r, w, v) && id in v.shelf.placed
             && v.shelf.placed[id] == Item(r.encode(if pause then paused else calm), JOB_STATE);
    assert !AllWhole(r, name, v);
  }

  lemma RecordEncrypted(r: Remote, w: World, v: World, id: string, paused: bool)
    requires CalmlyReaches(r, w, v) && IntoRecord(v, HttpClosing(JOB_STATE), r.content) && id != JOB_STATE
    ensures exists u :: CalmlyReaches(r, w, u) && id in u.shelf.placed
                        && u.shelf.placed[id] == Item(r.encode(Saved(Encrypting, paused, EncryptingPhase, JOB_STATE, 0)), JOB_STATE)
  {
    EncryptsRecord(r, v, id, paused);
    if paused {
      CalmlyThen(r, w, v, Pause);
    }
    var v1 := if paused then PauseStep(v) else v;
    assert CalmlyReaches(r, w, v1);
    CalmlyThen(r, w, v1, Go(0, Proceed(id)));
    CalmlyThen(r, w, Step(r, v1, Go(0, Proceed(id))), Thread(id, true));
  }

  /** What is promised of a run and of any crash at its end. */
  predicate KeepsPromise(r: Remote, name: string, ls: seq<Label>, how: Reattach)
  {
    Calm(r, Accepted(Http, name, false), ls) ==>
      var w := Run(r, Http, name, false, ls);
      AllWhole(r, name, w) && (w.gone || Survives(r, w, how))
  }

  lemma UsableKeepsPromise(r: Remote, name: string, ls: seq<Label>, how: Reattach)
    requires Usable(r, name)
    ensures KeepsPromise(r, name, ls, how)
  {
    if Calm(r, Accepted(Http, name, false), ls) {
      OnlyWholeFiles(r, name, ls);
      CrashDurable(r, Http, name, false, ls, how);
    }
  }

  lemma LosingRunBreaksPromise(r: Remote, name: string)
    requires RecordSound(r) && (name == JOB_STATE || FinalName(r, name) == JOB_STATE)
    ensures !KeepsPromise(r, name, LosingRun(name), Attached)
  {
    var w, ls := Accepted(Http, name, false), LosingRun(name);
    RecordNameLosesJob(r, name);
    LostIsNotSurviving(r, Run(r, Http, name, false, ls), Attached);
    assert ls[..1] == [ls[0]] && ls[..1][..0] == [];
    assert Calm(r, w, []) && Calm(r, w, [ls[0]]);
    assert Calm(r, w, ls);
  }

  /**
    For plain names: calm runs publish nothing but the remote content and lose no job, exactly if
    neither the name given to `add_url` nor the announced one is the record's.
   */
  lemma PromisesExactly(r: Remote, name: string)
    requires RecordSound(r) && PlainName(name) && PlainName(FinalName(r, name))
    ensures (forall ls: seq<Label>, how :: KeepsPromise(r, name, ls, how))
            <==> name != JOB_STATE && FinalName(r, name) != JOB_STATE
  {
    if Usable(r, name) {
      forall ls: seq<Label>, how
        ensures KeepsPromise(r, name, ls, how)
      {
        UsableKeepsPromise(r, name, ls, how);
      }
    } else {
      LosingRunBreaksPromise(r, name);
    }
  }
}
