/**
  The life of one download job as a step system. A step is what runs between two awaits: one web
  request, one turn of a coroutine, one write of an encryption thread, or a crash followed by the
  restart's restore. Steps that write the disk several times also have crashes in between.
 */
module Jobs {
  import opened Bytes
  import opened Manifest

  datatype Kind = Http | Torrent

  datatype Status = Queued | Downloading | Paused | Encrypting | Completed | Failed | Cancelled

  /** The free-text `state` of a job, as far as the program tests it. */
  datatype Phase = NoPhase | HttpPhase | SwarmPhase | PackingPhase | EncryptingPhase

  datatype Job = Job(status: Status, userPaused: bool, phase: Phase, name: string,
                     fileId: Option<string>, downloaded: nat)

  /** What `job.json` keeps. */
  datatype Saved = Saved(status: Status, userPaused: bool, phase: Phase, name: string, downloaded: nat)

  /** Where a coroutine waits. `dest` and `path` are its local variables. */
  datatype Pc =
    | HttpStart
    | HttpTopSleep(dest: string)
    | HttpPauseSleep(dest: string)
    | HttpConnecting(dest: string, existing: nat)
    | HttpStreaming(dest: string, rest: bytes, count: nat)
    | HttpUnwinding(dest: string)
    | HttpClosing(dest: string)
    | FinalizeStart(path: string)
    | FetchStart
    | Fetching
    | CompleteWaiting
    | CompletePacking
    | Appending(id: string)
    | WritingDuration(id: string)

  datatype Body = HttpBody | FinalizeBody | FetchBody | CompleteBody | PollCompleteBody

  datatype Task = Task(body: Body, pc: Pc, cancelled: bool)

  datatype Stage = Sealing | BlobPlaced | RowWritten | Broken

  /** The worker thread of one `append_completed`. It outlives the coroutine that awaits it. */
  datatype Upload = Upload(item: Item, stage: Stage)

  /**
    One process's memory of the job: `registered` is its entry in the table of HTTP tasks, `handle`
    says whether it has a torrent handle, `lock` which coroutine holds the finalize lock, `cancelling`
    which tasks cancel requests wait for.
   */
  datatype Memory = Memory(inStore: bool, handle: bool, registered: Option<nat>, tasks: map<nat, Task>, nextTask: nat,
                           lock: Option<nat>, cancelling: set<nat>)

  /**
    The completed directory as far as this job goes, with the threads that write it. `placed` and
    `listed` remember every blob and row ever written, `wiped` the blobs a cancel removed again,
    `recent` the blobs placed by the present process, `leaked` whether one of these was followed by a
    failure.
   */
  datatype Shelf = Shelf(uploads: map<string, Upload>, placed: map<string, Item>, listed: set<string>,
                         wiped: set<string>, recent: set<string>, leaked: bool)

  /** The record is a file of the work directory, so a download may be saved under its name. */
  const JOB_STATE := "job.json"

  /**
    What such a download does to the record: `foreign` is what it has put in its place, and `detached`
    says that a save has since replaced the file that the download has open.
   */
  datatype Clash = Clash(foreign: Option<bytes>, detached: bool)

  const NO_CLASH := Clash(None, true)

  /**
    One job. `json` is the record as last saved, if it is still there, `files` the rest of its work
    directory; `gone` says it was cancelled.
   */
  datatype World = World(kind: Kind, job: Job, mem: Memory, shelf: Shelf,
                         json: Option<Saved>, clash: Clash, files: map<string, bytes>, gone: bool)

  /** The remote file, the name its server announces, if any, and how records are written and read. */
  datatype Remote = Remote(content: bytes, disposition: Option<string>,
                           encode: Saved -> bytes, decode: bytes -> Option<Saved>)

  ghost predicate RecordSound(r: Remote)
  {
    forall s :: r.decode(r.encode(s)) == Some(s) && r.encode(s) != []
  }

  /** The name a download ends up with. */
  function FinalName(r: Remote, name: string): string
  {
    if r.disposition.Some? then r.disposition.value else name
  }

  /** One component of a path, and not the temporary name of every save. */
  predicate PlainName(n: string)
  {
    n != "" && n != "." && n != ".." && '/' !in n && n != ".job.json.tmp"
  }

  /** The name given to `add_url` and the one the server announces are plain, and neither is the record's. */
  predicate Usable(r: Remote, name: string)
  {
    && PlainName(name) && PlainName(FinalName(r, name))
    && name != JOB_STATE && FinalName(r, name) != JOB_STATE
  }

  datatype Event =
    | Tick
    | Answer(partial: bool)
    | Chunk(n: nat)
    | Break
    | Proceed(id: string)
    | Bundle(pack: bool, id: string, item: Item)

  datatype Reattach = Attached | Refetch | Unable

  datatype Label =
    | Pause
    | Resume
    | Retry(finished: bool, how: Reattach)
    | Cancel
    | CancelFinish(t: nat)
    | Flush
    | PollScan(raises: bool, finished: bool)
    | Go(t: nat, event: Event)
    | Thread(id: string, ok: bool)
    | Crash(keep: nat, how: Reattach)
    | CrashInAnswer(t: nat, partial: bool, writes: nat, how: Reattach)
    | CrashInAcquire(t: nat, how: Reattach)
    | CrashInComplete(t: nat, how: Reattach)
    | CrashInCancel(removed: set<string>, jsonToo: bool, how: Reattach)
  {
    predicate IsCrash()
    {
      Crash? || CrashInAnswer? || CrashInAcquire? || CrashInComplete? || CrashInCancel?
    }
  }

  // ----- building blocks -----

  predicate Persistable(s: Status)
  {
    s != Completed && s != Cancelled
  }

  function Snapshot(j: Job): Saved
  {
    Saved(j.status, j.userPaused, j.phase, j.name, j.downloaded)
  }

  /** Writes a temporary file and renames it over the record, or drops the record. */
  function Persist(w: World): World
  {
    w.(json := if Persistable(w.job.status) then Some(Snapshot(w.job)) else None, clash := NO_CLASH)
  }

  // ----- the work directory -----

  predicate IsFile(w: World, n: string)
  {
    if n == JOB_STATE then w.json.Some? || w.clash.foreign.Some? else n in w.files
  }

  function Content(r: Remote, w: World, n: string): bytes
    requires IsFile(w, n)
  {
    if n == JOB_STATE then if w.json.Some? then r.encode(w.json.value) else w.clash.foreign.value else w.files[n]
  }

  function Size(r: Remote, w: World, n: string): nat
  {
    if IsFile(w, n) then |Content(r, w, n)| else 0
  }

  function Unlink(w: World, n: string): (v: World)
    ensures v.json == w.json || v.json == None
    ensures v == w.(json := v.json, clash := v.clash, files := v.files)
  {
    if n == JOB_STATE then w.(json := None, clash := w.clash.(foreign := None)) else w.(files := w.files - {n})
  }

  function Put(w: World, n: string, b: bytes): (v: World)
    ensures v.json == w.json || v.json == None
    ensures v == w.(json := v.json, clash := v.clash, files := v.files)
  {
    if n == JOB_STATE then w.(json := None, clash := w.clash.(foreign := Some(b))) else w.(files := w.files[n := b])
  }

  function Fail(w: World): World
  {
    Persist(w.(job := w.job.(status := Failed)))
  }

  function Spawn(m: Memory, body: Body, pc: Pc): Memory
  {
    m.(tasks := m.tasks[m.nextTask := Task(body, pc, false)], nextTask := m.nextTask + 1,
       registered := if body == HttpBody || body == FetchBody then Some(m.nextTask) else m.registered)
  }

  function At(m: Memory, t: nat, pc: Pc): Memory
    requires t in m.tasks
  {
    m.(tasks := m.tasks[t := m.tasks[t].(pc := pc)])
  }

  /** The coroutine ends: it leaves the table of HTTP tasks, or releases the lock. */
  function End(m: Memory, t: nat): Memory
    requires t in m.tasks
  {
    var body := m.tasks[t].body;
    m.(tasks := m.tasks - {t},
       registered := if body == HttpBody || body == FetchBody then None else m.registered,
       lock := if m.lock == Some(t) then None else m.lock)
  }

  function SetStatus(w: World, s: Status): World
  {
    w.(job := w.job.(status := s))
  }

  // ----- web requests -----

  function PauseStep(w: World): World
  {
    if w.mem.inStore && (w.job.status == Queued || w.job.status == Downloading)
    then Persist(w.(job := w.job.(userPaused := true, status := Paused)))
    else w
  }

  /** `resume` tests the pause flag or the paused status, and nothing else. */
  predicate ResumeApplies(w: World)
  {
    w.mem.inStore && (w.job.userPaused || w.job.status == Paused)
  }

  function ResumeStep(w: World): World
  {
    if ResumeApplies(w) then Persist(w.(job := w.job.(userPaused := false, status := Downloading))) else w
  }

  function RetryHttp(w: World): World
  {
    var dest := w.job.name;
    if w.job.phase == EncryptingPhase && IsFile(w, dest)
    then SetStatus(w, Encrypting).(mem := Spawn(w.mem, FinalizeBody, FinalizeStart(dest)))
    else Unlink(w, dest).(job := w.job.(downloaded := 0, status := Downloading, phase := HttpPhase),
                          mem := Spawn(w.mem, HttpBody, HttpStart))
  }

  function RetryTorrent(w: World, finished: bool, how: Reattach): World
  {
    var job := w.job.(status := Downloading, phase := NoPhase);
    if w.mem.handle then
      if finished || w.job.phase == PackingPhase || w.job.phase == EncryptingPhase
      then w.(job := job, mem := Spawn(w.mem, CompleteBody, CompleteWaiting)) else w.(job := job)
    else
      match how
      case Attached => w.(job := job, mem := w.mem.(handle := true))
      case Refetch => w.(job := job, mem := Spawn(w.mem, FetchBody, FetchStart))
      case Unable => w
  }

  function RetryStep(w: World, finished: bool, how: Reattach): World
  {
    if w.mem.inStore && w.job.status == Failed && w.mem.registered == None then
      var w1 := w.(job := w.job.(userPaused := false));
      if w.kind == Http then RetryHttp(w1) else RetryTorrent(w1, finished, how)
    else w
  }

  /** The end of a cancel: the work directory and any completed blob go, the job leaves the list. */
  function Wipe(w: World): World
  {
    w.(files := map[], json := None, clash := NO_CLASH, mem := w.mem.(inStore := false), gone := true,
       shelf := match w.job.fileId
                case Some(id) => w.shelf.(wiped := w.shelf.wiped + {id})
                case None => w.shelf)
  }

  predicate Cancellable(w: World)
  {
    w.mem.inStore && w.job.status != Completed && w.job.status != Encrypting
  }

  function CancelTask(m: Memory, t: nat): Memory
    requires t in m.tasks
  {
    m.(handle := false, registered := None, tasks := m.tasks[t := m.tasks[t].(cancelled := true)],
       cancelling := m.cancelling + {t})
  }

  function CancelStep(w: World): World
  {
    if !Cancellable(w) then w
    else if w.mem.registered.Some? && w.mem.registered.value in w.mem.tasks
    then w.(mem := CancelTask(w.mem, w.mem.registered.value))
    else Wipe(w.(mem := w.mem.(handle := false, registered := None)))
  }

  function CancelFinishStep(w: World, t: nat): World
  {
    if t in w.mem.cancelling && t !in w.mem.tasks
    then Wipe(w.(mem := w.mem.(cancelling := w.mem.cancelling - {t}))) else w
  }

  // ----- the poll loop -----

  function FlushStep(w: World): World
  {
    if w.mem.inStore && Persistable(w.job.status) then Persist(w) else w
  }

  predicate Polled(w: World)
  {
    && w.kind == Torrent && w.mem.inStore && w.mem.handle
    && w.job.status in {Queued, Downloading, Paused}
    && (forall t <- w.mem.tasks :: w.mem.tasks[t].body != PollCompleteBody)
  }

  function PollStep(w: World, raises: bool, finished: bool): World
  {
    if !Polled(w) then w
    else if raises then Fail(w)
    else
      var w1 := w.(job := w.job.(phase := SwarmPhase, status := if w.job.userPaused then Paused else Downloading));
      if !w.job.userPaused && finished then w1.(mem := Spawn(w.mem, PollCompleteBody, CompleteWaiting)) else w1
  }

  // ----- the HTTP coroutine -----

  /** The top of the download loop: wait while paused, else ask for what is missing. */
  function LoopTop(r: Remote, w: World, t: nat, dest: string): World
    requires t in w.mem.tasks
  {
    if w.job.userPaused then Persist(SetStatus(w, Paused)).(mem := At(w.mem, t, HttpTopSleep(dest)))
    else
      var w1 := Persist(SetStatus(w, Downloading));
      w1.(mem := At(w.mem, t, HttpConnecting(dest, Size(r, w1, dest))))
  }

  /** The server honours a range inside the content when `partial`; else it sends everything. */
  predicate SendsRest(r: Remote, existing: nat, partial: bool)
  {
    existing > 0 && partial && existing < |r.content|
  }

  /** The file name after an answer. */
  function Announced(r: Remote, w: World, dest: string): string
  {
    if r.disposition.Some? && r.disposition.value != w.job.name then r.disposition.value else dest
  }

  /** The rename of a file that is there to a name that is not. */
  function Move(r: Remote, w: World, dest: string, name: string): (v: World)
    ensures v.json == w.json || v.json == None
    ensures v == w.(json := v.json, clash := v.clash, files := v.files)
  {
    if IsFile(w, dest) && !IsFile(w, name) then Put(Unlink(w, dest), name, Content(r, w, dest)) else w
  }

  /** Opening for writing creates the file if need be. */
  function Open(w: World, name: string): (v: World)
    ensures v.json == w.json || v.json == None
    ensures v == w.(json := v.json, clash := v.clash, files := v.files)
  {
    var w1 := if IsFile(w, name) then w else Put(w, name, []);
    w1.(clash := w1.clash.(detached := false))
  }

  /**
    The disk writes on an answer, up to `writes` of them: drop the old file when the server restarts,
    move it to the announced name, save the record with that name, drop what is in the way, open.
   */
  function AnswerWrites(r: Remote, w: World, dest: string, existing: nat, partial: bool, writes: nat): (v: World)
    ensures v == w.(json := v.json, clash := v.clash, files := v.files, job := w.job.(name := v.job.name))
    ensures v.json in {w.json, None} || v.json == Persist(w.(job := v.job)).json
  {
    var rest := SendsRest(r, existing, partial);
    var name := Announced(r, w, dest);
    var renamed := r.disposition.Some? && r.disposition.value != w.job.name;
    var w1 := if writes >= 1 && existing > 0 && !rest then Unlink(w, dest) else w;
    var w2 := if writes >= 2 && renamed then Move(r, w1, dest, name) else w1;
    var w3 := if writes >= 3 && renamed then Persist(w2.(job := w.job.(name := name))) else w2;
    var w4 := if writes >= 4 && !rest then Unlink(w3, name) else w3;
    if writes >= 5 then Open(w4, name) else w4
  }

  function AnswerStep(r: Remote, w: World, t: nat, partial: bool): World
    requires t in w.mem.tasks && w.mem.tasks[t].pc.HttpConnecting?
  {
    var dest, existing := w.mem.tasks[t].pc.dest, w.mem.tasks[t].pc.existing;
    if existing > 0 && partial && existing >= |r.content| then Fail(w).(mem := End(w.mem, t))
    else
      var rest := SendsRest(r, existing, partial);
      var pc := HttpStreaming(Announced(r, w, dest), if rest then r.content[existing..] else r.content,
                              if rest then existing else 0);
      AnswerWrites(r, w, dest, existing, partial, 5).(mem := At(w.mem, t, pc))
  }

  /** A chunk arrives: dropped with its connection if a pause was requested, else written and counted. */
  function ChunkStep(r: Remote, w: World, t: nat, n: nat): World
    requires t in w.mem.tasks && w.mem.tasks[t].pc.HttpStreaming?
  {
    var pc := w.mem.tasks[t].pc;
    if pc.rest == [] then w.(mem := At(w.mem, t, HttpClosing(pc.dest)))
    else if w.job.userPaused then w.(mem := At(w.mem, t, HttpUnwinding(pc.dest)))
    else
      var m := if n == 0 then 1 else if n <= |pc.rest| then n else |pc.rest|;
      var before := if IsFile(w, pc.dest) then Content(r, w, pc.dest) else [];
      var w1 := if pc.dest == JOB_STATE && w.clash.detached then w else Put(w, pc.dest, before + pc.rest[..m]);
      w1.(job := w.job.(downloaded := pc.count + m, phase := HttpPhase),
          mem := At(w.mem, t, HttpStreaming(pc.dest, pc.rest[m..], pc.count + m)))
  }

  // ----- finalization -----

  predicate FreshId(w: World, id: string)
  {
    id !in w.shelf.uploads && id !in w.shelf.placed && id != JOB_STATE
  }

  function NewUpload(item: Option<Item>): Upload
  {
    match item
    case Some(x) => Upload(x, Sealing)
    case None => Upload(Item([], ""), Broken)
  }

  /** The first section of `_finalize_path`: the counter starts again if there is a file, and the job is saved. */
  function StartEncrypting(w: World, isFile: bool): World
  {
    Persist(w.(job := w.job.(status := Encrypting, phase := EncryptingPhase,
                             downloaded := if isFile then 0 else w.job.downloaded)))
  }

  /** The same with the worker thread, which gets `item`. */
  function BeginFinalize(w: World, t: nat, id: string, isFile: bool, item: Option<Item>): World
    requires t in w.mem.tasks
  {
    StartEncrypting(w, isFile).(
      mem := At(w.mem, t, Appending(id)),
      shelf := w.shelf.(uploads := w.shelf.uploads[id := NewUpload(item)]))
  }

  function ItemAt(r: Remote, w: World, path: string): Option<Item>
  {
    if IsFile(w, path) then Some(Item(Content(r, w, path), path)) else None
  }

  /** The thread starts on what the path holds after the save. */
  function FinalizeHttp(r: Remote, w: World, t: nat, id: string, path: string): World
    requires t in w.mem.tasks
  {
    BeginFinalize(w, t, id, IsFile(w, path), ItemAt(r, StartEncrypting(w, IsFile(w, path)), path))
  }

  predicate IsComplete(body: Body)
  {
    body == CompleteBody || body == PollCompleteBody
  }

  /** The last section: record the id, drop `job.json`, drop the work directory. */
  function Complete(w: World, t: nat, id: string): World
    requires t in w.mem.tasks
  {
    w.(job := w.job.(status := Completed, fileId := Some(id), name := id), json := None, clash := NO_CLASH, files := map[],
       mem := End(w.mem, t).(handle := w.mem.handle && !IsComplete(w.mem.tasks[t].body)))
  }

  // ----- torrent completion -----

  predicate Acquires(w: World)
  {
    && w.mem.lock == None && w.mem.inStore && w.mem.handle
    && w.job.status != Encrypting && w.job.status != Completed
  }

  function AcquireStep(w: World, t: nat, event: Event): World
    requires t in w.mem.tasks
  {
    if w.mem.lock != None || !(event.Bundle? || event.Break?) then w
    else if !Acquires(w) then w.(mem := End(w.mem, t))
    else if event.Break? then Fail(w).(mem := End(w.mem, t))
    else if event.pack then
      Persist(w.(job := w.job.(status := Encrypting, phase := PackingPhase, downloaded := 0))).(
        mem := At(w.mem.(lock := Some(t)), t, CompletePacking))
    else if FreshId(w, event.id)
    then BeginFinalize(w.(mem := w.mem.(lock := Some(t))), t, event.id, true, Some(event.item))
    else w
  }

  // ----- one turn of a coroutine -----

  /** A cancelled coroutine gets its CancelledError; one that never ran ends without a trace. */
  function Cancelling(w: World, t: nat): World
    requires t in w.mem.tasks
  {
    var pc := w.mem.tasks[t].pc;
    if pc.HttpStart? || pc.FetchStart? then w.(mem := w.mem.(tasks := w.mem.tasks - {t}))
    else SetStatus(w, Cancelled).(mem := End(w.mem, t))
  }

  function HttpTurn(r: Remote, w: World, t: nat, event: Event): World
    requires t in w.mem.tasks
  {
    match w.mem.tasks[t].pc
    case HttpStart => LoopTop(r, w, t, w.job.name)
    case HttpTopSleep(dest) => LoopTop(r, w, t, dest)
    case HttpPauseSleep(dest) => if w.job.userPaused && w.job.status != Cancelled then w else LoopTop(r, w, t, dest)
    case HttpConnecting(_, _) => if event.Answer? then AnswerStep(r, w, t, event.partial) else w
    case HttpStreaming(_, _, _) => if event.Chunk? then ChunkStep(r, w, t, event.n) else w
    case HttpUnwinding(dest) => Persist(SetStatus(w, Paused)).(mem := At(w.mem, t, HttpPauseSleep(dest)))
    case _ => w
  }

  function TorrentTurn(w: World, t: nat, event: Event): World
    requires t in w.mem.tasks
  {
    match w.mem.tasks[t].pc
    case FetchStart => w.(mem := At(w.mem, t, Fetching))
    case Fetching =>
      if event.Tick? then Persist(SetStatus(w, Downloading)).(mem := End(w.mem, t).(handle := true)) else w
    case CompleteWaiting => AcquireStep(w, t, event)
    case CompletePacking =>
      if event.Bundle? && FreshId(w, event.id)
      then BeginFinalize(w.(job := w.job.(name := event.item.name)), t, event.id, true, Some(event.item)) else w
    case _ => w
  }

  /** The turn of a coroutine that waits for its append: on to the duration, or the append's exception. */
  function AwaitAppend(w: World, t: nat, id: string): World
    requires t in w.mem.tasks
  {
    if id !in w.shelf.uploads then w
    else if w.shelf.uploads[id].stage == RowWritten then w.(mem := At(w.mem, t, WritingDuration(id)))
    else if w.shelf.uploads[id].stage == Broken then Fail(w).(mem := End(w.mem, t))
    else w
  }

  function FinalizeTurn(r: Remote, w: World, t: nat, event: Event): World
    requires t in w.mem.tasks
  {
    match w.mem.tasks[t].pc
    case HttpClosing(path) =>
      if event.Proceed? && FreshId(w, event.id) then FinalizeHttp(r, w, t, event.id, path) else w
    case FinalizeStart(path) =>
      if event.Proceed? && FreshId(w, event.id) then FinalizeHttp(r, w, t, event.id, path) else w
    case Appending(id) => AwaitAppend(w, t, id)
    case WritingDuration(id) => if event.Tick? then Complete(w, t, id) else w
    case _ => w
  }

  /** Where an exception may strike: it ends the coroutine and fails the job. */
  predicate MayBreak(pc: Pc)
  {
    pc.HttpConnecting? || pc.HttpStreaming? || pc.HttpUnwinding? || pc.HttpClosing? || pc.Fetching?
    || pc.CompletePacking? || pc.WritingDuration?
  }

  /** The coroutine is at or in `_finalize_path`. */
  predicate Finishing(pc: Pc)
  {
    pc.HttpClosing? || pc.FinalizeStart? || pc.Appending? || pc.WritingDuration?
  }

  function BreakStep(w: World, t: nat): World
    requires t in w.mem.tasks
  {
    Fail(w).(mem := End(w.mem, t),
             shelf := if w.mem.tasks[t].pc.WritingDuration? then w.shelf.(leaked := true) else w.shelf)
  }

  function GoStep(r: Remote, w: World, t: nat, event: Event): World
  {
    if t !in w.mem.tasks then w
    else if w.mem.tasks[t].cancelled then Cancelling(w, t)
    else if event.Break? && MayBreak(w.mem.tasks[t].pc) then BreakStep(w, t)
    else if Finishing(w.mem.tasks[t].pc) then FinalizeTurn(r, w, t, event)
    else if w.kind == Http then HttpTurn(r, w, t, event)
    else TorrentTurn(w, t, event)
  }

  // ----- the worker thread -----

  /** One write of `append_completed`: the blob, then the row; any of them may fail. */
  function Append(s: Shelf, id: string, ok: bool): Shelf
  {
    if id !in s.uploads then s
    else
      var u := s.uploads[id];
      if u.stage == Sealing then
        if ok then s.(uploads := s.uploads[id := u.(stage := BlobPlaced)], placed := s.placed[id := u.item],
                      recent := s.recent + {id})
        else s.(uploads := s.uploads[id := u.(stage := Broken)])
      else if u.stage == BlobPlaced then
        if ok then s.(uploads := s.uploads[id := u.(stage := RowWritten)], listed := s.listed + {id})
        else s.(uploads := s.uploads[id := u.(stage := Broken)], leaked := true)
      else s
  }

  function ThreadStep(w: World, id: string, ok: bool): World
  {
    w.(shelf := Append(w.shelf, id, ok))
  }

  // ----- crash and restart -----

  function RestoreHttp(w: World): World
  {
    var dest := w.job.name;
    if w.job.status == Failed then Persist(w)
    else if (w.job.status == Encrypting || w.job.phase == EncryptingPhase || w.job.phase == PackingPhase) && IsFile(w, dest)
    then Persist(SetStatus(w, Encrypting)).(mem := Spawn(w.mem, FinalizeBody, FinalizeStart(dest)))
    else if w.job.status == Paused || w.job.userPaused
    then Persist(w.(job := w.job.(userPaused := true, status := Paused))).(mem := Spawn(w.mem, HttpBody, HttpStart))
    else Persist(SetStatus(w, Downloading)).(mem := Spawn(w.mem, HttpBody, HttpStart))
  }

  function ReattachStep(w: World, how: Reattach): World
    requires !how.Unable?
  {
    if how.Attached? then w.(mem := w.mem.(handle := true))
    else Persist(SetStatus(w, Downloading)).(mem := Spawn(w.mem, FetchBody, FetchStart))
  }

  function RestoreTorrent(w: World, how: Reattach): World
  {
    if w.job.status == Failed then
      Persist(if how.Unable? then w else ReattachStep(w, how))
    else if how.Unable? then Fail(w)
    else
      var w1 := ReattachStep(w, how);
      if w.job.status == Encrypting || w.job.phase == PackingPhase || w.job.phase == EncryptingPhase then
        Persist(w1.(job := w1.job.(status := Downloading, userPaused := false))).(
          mem := Spawn(w1.mem, CompleteBody, CompleteWaiting))
      else if w.job.status == Paused || w.job.userPaused then
        Persist(w1.(job := w1.job.(userPaused := true, status := Paused)))
      else Persist(SetStatus(w1, Downloading))
  }

  const NO_JOB := Job(Queued, false, NoPhase, "", None, 0)

  const NO_MEMORY := Memory(false, false, None, map[], 0, None, {})

  /** The record a restart finds: the one last saved, or what a download has made of it. */
  function Loaded(r: Remote, w: World): Option<Saved>
  {
    var found := if w.json.Some? then w.json else if w.clash.foreign.Some? then r.decode(w.clash.foreign.value) else None;
    if found.Some? && Persistable(found.value.status) then found else None
  }

  function Reloaded(w: World, s: Saved): World
  {
    w.(mem := NO_MEMORY.(inStore := true), shelf := w.shelf.(uploads := map[], recent := {}, leaked := false),
       job := Job(s.status, s.userPaused, s.phase, s.name, None, s.downloaded))
  }

  /** A new process: nothing in memory, then the job is reloaded from its record, if there is one. */
  function Restart(r: Remote, w: World, how: Reattach): World
  {
    match Loaded(r, w)
    case None => w.(mem := NO_MEMORY, shelf := w.shelf.(uploads := map[], recent := {}, leaked := false), job := NO_JOB)
    case Some(s) => if w.kind == Http then RestoreHttp(Reloaded(w, s)) else RestoreTorrent(Reloaded(w, s), how)
  }

  predicate StreamsTo(m: Memory, n: string)
  {
    exists t <- m.tasks :: m.tasks[t].pc.HttpStreaming? && m.tasks[t].pc.dest == n
  }

  function Cut(b: bytes, keep: nat): bytes
  {
    if keep < |b| then b[..keep] else b
  }

  /** Bytes still in the output buffer are lost: the file being streamed keeps at most `keep` of them. */
  function LoseBuffer(w: World, keep: nat): World
  {
    w.(files := map n | n in w.files :: if StreamsTo(w.mem, n) then Cut(w.files[n], keep) else w.files[n],
       clash := if w.clash.foreign.Some? && StreamsTo(w.mem, JOB_STATE)
                then w.clash.(foreign := Some(Cut(w.clash.foreign.value, keep))) else w.clash)
  }

  /** A crash between two of the disk writes that one step makes. */
  function CrashInAnswerStep(r: Remote, w: World, t: nat, partial: bool, writes: nat, how: Reattach): World
  {
    if t in w.mem.tasks && !w.mem.tasks[t].cancelled && w.mem.tasks[t].pc.HttpConnecting?
       && !(w.mem.tasks[t].pc.existing > 0 && partial && w.mem.tasks[t].pc.existing >= |r.content|)
    then Restart(r, AnswerWrites(r, w, w.mem.tasks[t].pc.dest, w.mem.tasks[t].pc.existing, partial, writes), how)
    else w
  }

  function CrashInAcquireStep(r: Remote, w: World, t: nat, how: Reattach): World
  {
    if t in w.mem.tasks && !w.mem.tasks[t].cancelled && w.mem.tasks[t].pc.CompleteWaiting? && Acquires(w)
    then Restart(r, Persist(SetStatus(w, Encrypting)), how) else w
  }

  function CrashInCompleteStep(r: Remote, w: World, t: nat, how: Reattach): World
  {
    if t in w.mem.tasks && !w.mem.tasks[t].cancelled && w.mem.tasks[t].pc.WritingDuration?
    then Restart(r, w.(json := None, clash := NO_CLASH), how) else w
  }

  /** The work directory as far as a cancel has removed it when the process dies. */
  function PartlyCancelled(w: World, removed: set<string>, jsonToo: bool): World
  {
    w.(files := w.files - removed, json := if jsonToo then None else w.json,
       clash := if jsonToo then NO_CLASH else w.clash, gone := true)
  }

  function CrashInCancelStep(r: Remote, w: World, removed: set<string>, jsonToo: bool, how: Reattach): World
  {
    if Cancellable(w) && (w.mem.registered == None || w.mem.cancelling != {})
    then Restart(r, PartlyCancelled(w, removed, jsonToo), how) else w
  }

  function Step(r: Remote, w: World, l: Label): World
  {
    match l
    case Pause => PauseStep(w)
    case Resume => ResumeStep(w)
    case Retry(finished, how) => RetryStep(w, finished, how)
    case Cancel => CancelStep(w)
    case CancelFinish(t) => CancelFinishStep(w, t)
    case Flush => FlushStep(w)
    case PollScan(raises, finished) => PollStep(w, raises, finished)
    case Go(t, event) => GoStep(r, w, t, event)
    case Thread(id, ok) => ThreadStep(w, id, ok)
    case Crash(keep, how) => Restart(r, LoseBuffer(w, keep), how)
    case CrashInAnswer(t, partial, writes, how) => CrashInAnswerStep(r, w, t, partial, writes, how)
    case CrashInAcquire(t, how) => CrashInAcquireStep(r, w, t, how)
    case CrashInComplete(t, how) => CrashInCompleteStep(r, w, t, how)
    case CrashInCancel(removed, jsonToo, how) => CrashInCancelStep(r, w, removed, jsonToo, how)
  }

  function Exec(r: Remote, w: World, ls: seq<Label>): World
  {
    if ls == [] then w else Step(r, Exec(r, w, ls[..|ls| - 1]), ls[|ls| - 1])
  }

  // ----- a new job -----

  /** The job as `add_url` or `add_torrent_bytes` leaves it when it returns. */
  function Accepted(kind: Kind, name: string, fetch: bool): World
  {
    var job := Job(Downloading, false, NoPhase, name, None, 0);
    var m := NO_MEMORY.(inStore := true, handle := kind == Torrent && !fetch);
    var mem := if kind == Http then Spawn(m, HttpBody, HttpStart)
               else if fetch then Spawn(m, FetchBody, FetchStart)
               else m;
    World(kind, job, mem, Shelf(map[], map[], {}, {}, {}, false), Some(Snapshot(job)), NO_CLASH, map[], false)
  }
}
