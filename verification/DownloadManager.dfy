/**
  The download manager as it is written, an object that changes step by step, for one job: every
  request handler, every section of a coroutine between two awaits, and the HTTP coroutine from its
  first turn to its end. Each method is proved against the steps it takes.
 */
module DownloadManager {
  import opened Bytes
  import opened Manifest
  import opened Jobs
  import opened JobProofs
  import opened JobDurability
  import opened JobContent

  /** The job's fields. */
  class JobRecord {
    var status: Status
    var userPaused: bool
    var phase: Phase
    var name: string
    var fileId: Option<string>
    var downloaded: nat

    constructor (name: string)
      ensures Value() == Job(Queued, false, NoPhase, name, None, 0)
    {
      status, userPaused, phase := Queued, false, NoPhase;
      this.name, fileId, downloaded := name, None, 0;
    }

    /** `from_persist_dict`. */
    method Load(s: Saved)
      modifies this
      ensures Value() == Job(s.status, s.userPaused, s.phase, s.name, None, s.downloaded)
    {
      status, userPaused, phase, name, fileId, downloaded := s.status, s.userPaused, s.phase, s.name, None, s.downloaded;
    }

    function Value(): Job
      reads this
    {
      Job(status, userPaused, phase, name, fileId, downloaded)
    }
  }

  /** The job's directory: its record, the rest of its files, and what a download does to the record. */
  class WorkDir {
    var json: Option<Saved>
    var clash: Clash
    var files: map<string, bytes>

    constructor ()
      ensures json == None && clash == NO_CLASH && files == map[]
    {
      json, clash, files := None, NO_CLASH, map[];
    }

    /** `write_text` to a temporary file, and its rename over the record. */
    method Save(s: Saved)
      modifies this`json, this`clash
      ensures json == Some(s) && clash == NO_CLASH
    {
      json := Some(s);
      clash := NO_CLASH;
    }

    method DropRecord()
      modifies this`json, this`clash
      ensures json == None && clash == NO_CLASH
    {
      json := None;
      clash := NO_CLASH;
    }
  }

  predicate IsRequest(l: Label)
  {
    l.Pause? || l.Resume? || l.Retry? || l.Cancel? || l.Flush?
  }

  lemma ExecPrefix(r: Remote, w: World, ls: seq<Label>, i: nat)
    requires i < |ls|
    ensures Exec(r, w, ls[..i + 1]) == Step(r, Exec(r, w, ls[..i]), ls[i])
  {
    ExecOne(r, w, ls[..i], ls[i]);
    assert ls[..i] + [ls[i]] == ls[..i + 1];
  }

  /** What may happen while a coroutine waits: requests, and the writes of an encryption thread. */
  predicate Meanwhile(l: Label)
  {
    IsRequest(l) || l.Thread?
  }

  /** What happens at one await, and how the wait ends. */
  datatype Await = Await(meanwhile: seq<Label>, event: Event)

  predicate Served(a: Await)
  {
    forall l <- a.meanwhile :: Meanwhile(l)
  }

  /** The steps of a coroutine, and those taken while it waits. */
  function Labels(t: nat, script: seq<Await>): seq<Label>
  {
    if script == [] then [] else
      var last := script[|script| - 1];
      Labels(t, script[..|script| - 1]) + last.meanwhile + [Go(t, last.event)]
  }

  predicate Own(t: nat, l: Label)
  {
    Meanwhile(l) || (l.Go? && l.t == t)
  }

  predicate OwnAll(t: nat, ls: seq<Label>)
  {
    forall l <- ls :: Own(t, l)
  }

  lemma {:induction false} OwnLabels(t: nat, script: seq<Await>)
    requires forall a <- script :: Served(a)
    ensures OwnAll(t, Labels(t, script))
    decreases |script|
  {
    if script != [] {
      assert Served(script[|script| - 1]);
      OwnLabels(t, script[..|script| - 1]);
    }
  }

  // ----- a download is sound, whatever comes in -----

  predicate Downloads(w: World, t: nat)
  {
    w.kind == Http && t < w.mem.nextTask && t in w.mem.tasks && InHttp(w.mem.tasks[t].pc)
  }

  /** A calm run, and what it keeps. */
  predicate Sound(r: Remote, name: string, w: World, ls: seq<Label>)
  {
    Calm(r, w, ls) && Inv(Exec(r, w, ls)) && Lasting(r, Exec(r, w, ls)) && Whole(r, name, Exec(r, w, ls))
  }

  lemma SoundThen(r: Remote, name: string, w: World, ls: seq<Label>, l: Label)
    requires Sound(r, name, w, ls) && CalmStep(Exec(r, w, ls), l)
    ensures Sound(r, name, w, ls + [l])
  {
    ExecOne(r, w, ls, l);
    assert (ls + [l])[..|ls + [l]| - 1] == ls;
    StepInv(r, Exec(r, w, ls), l);
    StepLasting(r, Exec(r, w, ls), l);
    StepWhole(r, name, Exec(r, w, ls), l);
  }

  /** While its coroutine downloads, a job is neither being finalized nor done. */
  lemma DownloadingIsCalm(r: Remote, name: string, w: World, t: nat, l: Label)
    requires Inv(w) && Whole(r, name, w) && Downloads(w, t)
    ensures CalmStep(w, l)
  {
  }

  lemma NextSound(r: Remote, name: string, w: World, t: nat, ls: seq<Label>, l: Label)
    requires Sound(r, name, w, ls) && Downloads(Exec(r, w, ls), t)
    ensures Sound(r, name, w, ls + [l])
  {
    DownloadingIsCalm(r, name, Exec(r, w, ls), t, l);
    SoundThen(r, name, w, ls, l);
  }

  /** A coroutine that is past its download, or gone, does not come back to it. */
  lemma StillDownloading(r: Remote, w: World, t: nat, l: Label)
    requires w.kind == Http && t < w.mem.nextTask && Own(t, l) && Downloads(Step(r, w, l), t)
    ensures Downloads(w, t)
  {
    if l.Go? {
      TurnGoesOn(r, w, t, l.event);
    } else if t in w.mem.tasks {
      KeepsTask(r, w, t, l);
    } else {
      NoTask(r, w, t, l);
    }
  }

  lemma FinalizeGoesOn(r: Remote, w: World, t: nat, event: Event)
    requires t in w.mem.tasks && !InHttp(w.mem.tasks[t].pc)
    ensures var m := FinalizeTurn(r, w, t, event).mem; t in m.tasks ==> !InHttp(m.tasks[t].pc)
  {
    match w.mem.tasks[t].pc
    case FinalizeStart(path) =>
    case Appending(id) =>
    case WritingDuration(id) =>
    case _ =>
  }

  lemma HttpGoesOn(r: Remote, w: World, t: nat, event: Event)
    requires t in w.mem.tasks && !InHttp(w.mem.tasks[t].pc)
    ensures HttpTurn(r, w, t, event) == w
  {
  }

  lemma TurnGoesOn(r: Remote, w: World, t: nat, event: Event)
    requires w.kind == Http && Downloads(GoStep(r, w, t, event), t)
    ensures t in w.mem.tasks && InHttp(w.mem.tasks[t].pc)
  {
    if t in w.mem.tasks && !InHttp(w.mem.tasks[t].pc) {
      FinalizeGoesOn(r, w, t, event);
      HttpGoesOn(r, w, t, event);
    }
  }

  lemma NoTask(r: Remote, w: World, t: nat, l: Label)
    requires t < w.mem.nextTask && t !in w.mem.tasks && Meanwhile(l)
    ensures t !in Step(r, w, l).mem.tasks
  {
  }

  lemma NextGrows(r: Remote, w: World, t: nat, l: Label)
    requires Own(t, l) && w.kind == Http
    ensures Step(r, w, l).mem.nextTask >= w.mem.nextTask && Step(r, w, l).kind == Http
  {
    if l.Go? {
      TurnNext(r, w, t, l.event);
    }
  }

  lemma FinalizeNext(r: Remote, w: World, t: nat, event: Event)
    requires t in w.mem.tasks
    ensures FinalizeTurn(r, w, t, event).mem.nextTask == w.mem.nextTask && FinalizeTurn(r, w, t, event).kind == w.kind
  {
  }

  lemma HttpNext(r: Remote, w: World, t: nat, event: Event)
    requires t in w.mem.tasks
    ensures HttpTurn(r, w, t, event).mem.nextTask == w.mem.nextTask && HttpTurn(r, w, t, event).kind == w.kind
  {
    match w.mem.tasks[t].pc
    case HttpConnecting(_, _) => if event.Answer? { AnswerNext(r, w, t, event.partial); }
    case HttpStreaming(_, _, _) => if event.Chunk? { ChunkKeeps(r, w, t, event.n); }
    case _ =>
  }

  lemma AnswerNext(r: Remote, w: World, t: nat, partial: bool)
    requires t in w.mem.tasks && w.mem.tasks[t].pc.HttpConnecting?
    ensures AnswerStep(r, w, t, partial).mem.nextTask == w.mem.nextTask && AnswerStep(r, w, t, partial).kind == w.kind
  {
  }

  lemma TurnNext(r: Remote, w: World, t: nat, event: Event)
    requires w.kind == Http
    ensures GoStep(r, w, t, event).mem.nextTask == w.mem.nextTask && GoStep(r, w, t, event).kind == Http
  {
    if t in w.mem.tasks {
      FinalizeNext(r, w, t, event);
      HttpNext(r, w, t, event);
    }
  }

  lemma {:induction false} RunGrows(r: Remote, w: World, t: nat, ls: seq<Label>)
    requires w.kind == Http && OwnAll(t, ls)
    ensures Exec(r, w, ls).mem.nextTask >= w.mem.nextTask && Exec(r, w, ls).kind == Http
    decreases |ls|
  {
    if ls != [] {
      var n := |ls| - 1;
      RunGrows(r, w, t, ls[..n]);
      NextGrows(r, Exec(r, w, ls[..n]), t, ls[n]);
    }
  }

  lemma LastSound(r: Remote, name: string, w: World, t: nat, ls: seq<Label>)
    requires ls != [] && Sound(r, name, w, ls[..|ls| - 1]) && Downloads(Exec(r, w, ls[..|ls| - 1]), t)
    ensures Sound(r, name, w, ls)
  {
    var n := |ls| - 1;
    NextSound(r, name, w, t, ls[..n], ls[n]);
    assert ls[..n] + [ls[n]] == ls;
  }

  lemma DownloadedBefore(r: Remote, w: World, t: nat, ls: seq<Label>)
    requires w.kind == Http && t < w.mem.nextTask && OwnAll(t, ls) && ls != [] && Downloads(Exec(r, w, ls), t)
    ensures OwnAll(t, ls[..|ls| - 1]) && Downloads(Exec(r, w, ls[..|ls| - 1]), t)
  {
    var n := |ls| - 1;
    RunGrows(r, w, t, ls[..n]);
    StillDownloading(r, Exec(r, w, ls[..n]), t, ls[n]);
  }

  /** As long as the coroutine downloads, the run is sound. */
  lemma {:induction false} DownloadSound(r: Remote, name: string, w: World, t: nat, ls: seq<Label>)
    requires Sound(r, name, w, []) && w.kind == Http && t < w.mem.nextTask
    requires OwnAll(t, ls) && Downloads(Exec(r, w, ls), t)
    ensures Sound(r, name, w, ls)
    decreases |ls|
  {
    if ls != [] {
      DownloadedBefore(r, w, t, ls);
      DownloadSound(r, name, w, t, ls[..|ls| - 1]);
      LastSound(r, name, w, t, ls);
    }
  }

  lemma LabelsNext(t: nat, script: seq<Await>, k: nat)
    requires k < |script|
    ensures Labels(t, script[..k + 1]) == Labels(t, script[..k]) + script[k].meanwhile + [Go(t, script[k].event)]
  {
    assert script[..k + 1][..k] == script[..k];
  }

  /** So is the run up to the turn that ends the download, in whatever way. */
  lemma TurnSound(r: Remote, name: string, w: World, t: nat, script: seq<Await>, k: nat)
    requires Sound(r, name, w, []) && w.kind == Http && t < w.mem.nextTask
    requires k < |script| && forall a <- script :: Served(a)
    requires Downloads(Exec(r, w, Labels(t, script[..k]) + script[k].meanwhile), t)
    ensures Sound(r, name, w, Labels(t, script[..k + 1]))
  {
    var ls := Labels(t, script[..k]) + script[k].meanwhile;
    OwnLabels(t, script[..k]);
    assert Served(script[k]);
    DownloadSound(r, name, w, t, ls);
    NextSound(r, name, w, t, ls, Go(t, script[k].event));
    LabelsNext(t, script, k);
  }

  // ----- turns -----

  /** The states a coroutine goes through: `before` the k-th await, and at its end, when it is `met`. */
  datatype Course = Course(before: seq<World>, met: seq<World>)

  function CourseOf(r: Remote, w: World, t: nat, script: seq<Await>): Course
  {
    Course(seq(|script| + 1, k requires 0 <= k <= |script| => Exec(r, w, Labels(t, script[..k]))),
           seq(|script|, k requires 0 <= k < |script| => Exec(r, w, Labels(t, script[..k]) + script[k].meanwhile)))
  }

  /** One await: what is served meanwhile, and the turn. */
  predicate FollowsAt(r: Remote, t: nat, script: seq<Await>, c: Course, k: nat)
    requires |c.before| == |script| + 1 && |c.met| == |script| && k < |script|
  {
    && c.met[k] == Exec(r, c.before[k], script[k].meanwhile)
    && c.before[k + 1] == GoStep(r, c.met[k], t, script[k].event)
  }

  predicate FollowsTo(r: Remote, t: nat, script: seq<Await>, c: Course, n: nat)
    requires |c.before| == |script| + 1 && |c.met| == |script| && n <= |script|
  {
    n > 0 ==> FollowsTo(r, t, script, c, n - 1) && FollowsAt(r, t, script, c, n - 1)
  }

  predicate Follows(r: Remote, t: nat, script: seq<Await>, c: Course)
  {
    |c.before| == |script| + 1 && |c.met| == |script| && FollowsTo(r, t, script, c, |script|)
  }

  lemma {:induction false} FollowsEach(r: Remote, t: nat, script: seq<Await>, c: Course, n: nat, k: nat)
    requires |c.before| == |script| + 1 && |c.met| == |script| && k < n <= |script|
    requires FollowsTo(r, t, script, c, n)
    ensures FollowsAt(r, t, script, c, k)
  {
    if k < n - 1 {
      FollowsEach(r, t, script, c, n - 1, k);
    }
  }

  lemma AwaitFollows(r: Remote, w: World, t: nat, script: seq<Await>, k: nat)
    requires k < |script|
    ensures var ls := Labels(t, script[..k]);
            && Exec(r, w, ls + script[k].meanwhile) == Exec(r, Exec(r, w, ls), script[k].meanwhile)
            && Exec(r, w, Labels(t, script[..k + 1])) == GoStep(r, Exec(r, w, ls + script[k].meanwhile), t, script[k].event)
  {
    var ls := Labels(t, script[..k]);
    ExecJoins(r, w, ls, script[k].meanwhile);
    LabelsNext(t, script, k);
    ExecOne(r, w, ls + script[k].meanwhile, Go(t, script[k].event));
  }

  lemma {:induction false} CourseFollowsTo(r: Remote, w: World, t: nat, script: seq<Await>, n: nat)
    requires n <= |script|
    ensures FollowsTo(r, t, script, CourseOf(r, w, t, script), n)
  {
    if n > 0 {
      CourseFollowsTo(r, w, t, script, n - 1);
      AwaitFollows(r, w, t, script, n - 1);
    }
  }

  /** The coroutine had not left its download before the turn that led to await `k`. */
  predicate UpTo(t: nat, c: Course, k: nat)
  {
    k > 0 ==> k <= |c.met| && Downloads(c.met[k - 1], t)
  }

  predicate Inside(pc: Pc)
  {
    InHttp(pc) || pc.Appending? || pc.WritingDuration?
  }

  /** In the body of an answer, or just past it. */
  predicate Reading(pc: Pc, dest: string)
  {
    (pc.HttpStreaming? || pc.HttpUnwinding? || pc.HttpClosing?) && pc.dest == dest
  }

  predicate Interrupted(k: Task, event: Event)
  {
    k.cancelled || (event.Break? && MayBreak(k.pc))
  }

  /** Whether the event is what a coroutine at `pc` waits for. */
  predicate Awaited(w: World, pc: Pc, event: Event)
  {
    match pc
    case HttpConnecting(_, _) => event.Answer?
    case HttpStreaming(_, _, _) => event.Chunk?
    case HttpClosing(_) => event.Proceed? && FreshId(w, event.id)
    case Appending(id) => id in w.shelf.uploads && w.shelf.uploads[id].stage in {RowWritten, Broken}
    case WritingDuration(_) => event.Tick?
    case _ => true
  }

  lemma NotAwaited(r: Remote, w: World, t: nat, event: Event)
    requires w.kind == Http && t in w.mem.tasks && Inside(w.mem.tasks[t].pc)
    requires !Interrupted(w.mem.tasks[t], event) && !Awaited(w, w.mem.tasks[t].pc, event)
    ensures GoStep(r, w, t, event) == w
  {
  }

  lemma StillPaused(r: Remote, w: World, t: nat, event: Event)
    requires w.kind == Http && t in w.mem.tasks && w.mem.tasks[t].pc.HttpPauseSleep?
    requires !Interrupted(w.mem.tasks[t], event) && w.job.userPaused && w.job.status != Cancelled
    ensures GoStep(r, w, t, event) == w
  {
  }

  /** The thread gets `item`, to be published under `id`. */
  predicate Hands(w: World, t: nat, id: string, item: Item)
  {
    && t in w.mem.tasks && w.mem.tasks[t].pc == Appending(id)
    && id in w.shelf.uploads && w.shelf.uploads[id].item == item
  }

  lemma WholeHands(r: Remote, name: string, w: World, t: nat, id: string, item: Item)
    requires Whole(r, name, w)
    ensures forall n <- w.files :: n == FinalName(r, name) && w.files[n] <= r.content
    ensures Hands(w, t, id, item) ==>
              w.files == map[FinalName(r, name) := r.content] && item == Item(r.content, FinalName(r, name))
  {
  }

  /** What the end of a download leaves on disk, and what the thread gets. */
  lemma DownloadResult(r: Remote, name: string, w: World, t: nat, script: seq<Await>, j: nat)
    requires Sound(r, name, w, []) && w.kind == Http && t < w.mem.nextTask && j <= |script|
    requires (forall a <- script :: Served(a)) && UpTo(t, CourseOf(r, w, t, script), j)
    ensures Whole(r, name, Exec(r, w, Labels(t, script[..j])))
  {
    if j > 0 {
      TurnSound(r, name, w, t, script, j - 1);
    } else {
      assert script[..0] == [];
    }
  }

  /** How one wait ends: the coroutine goes on, waits for something else, or is gone. */
  datatype Wake = Up | Again | Gone

  /** The thread of `id` works on `item`, and has written what its stage says. */
  predicate Works(s: Shelf, id: string, item: Item)
  {
    && id in s.uploads && s.uploads[id].item == item
    && (s.uploads[id].stage in {BlobPlaced, RowWritten} ==> id in s.placed && s.placed[id] == item)
    && (s.uploads[id].stage == RowWritten ==> id in s.listed)
  }

  predicate RowStands(s: Shelf, id: string, item: Item)
  {
    Works(s, id, item) && s.uploads[id].stage == RowWritten
  }

  /** Every thread keeps its item and what it has written. */
  ghost predicate GoesOn(s: Shelf, after: Shelf)
  {
    forall id, item | Works(s, id, item) ::
      Works(after, id, item) && (s.uploads[id].stage == RowWritten ==> after.uploads[id].stage == RowWritten)
  }

  lemma GoesOnTwice(a: Shelf, b: Shelf, c: Shelf)
    requires GoesOn(a, b) && GoesOn(b, c)
    ensures GoesOn(a, c)
  {
  }

  lemma StandsOn(s: Shelf, after: Shelf, id: string, item: Item)
    requires GoesOn(s, after) && RowStands(s, id, item)
    ensures RowStands(after, id, item)
  {
  }

  lemma AppendGoesOn(s: Shelf, id: string, ok: bool)
    ensures GoesOn(s, Append(s, id, ok))
  {
  }

  lemma MeanwhileGoesOn(r: Remote, w: World, l: Label)
    requires Meanwhile(l)
    ensures GoesOn(w.shelf, Step(r, w, l).shelf)
  {
    if l.Thread? {
      AppendGoesOn(w.shelf, l.id, l.ok);
    }
  }

  lemma KeepsTask(r: Remote, w: World, t: nat, l: Label)
    requires t < w.mem.nextTask && t in w.mem.tasks && Meanwhile(l)
    ensures t in Step(r, w, l).mem.tasks && Step(r, w, l).mem.tasks[t].pc == w.mem.tasks[t].pc
    ensures Step(r, w, l).mem.nextTask >= w.mem.nextTask
  {
    if IsRequest(l) {
      RequestKeepsTask(r, w, t, l);
    }
  }

  lemma RequestKeepsTask(r: Remote, w: World, t: nat, l: Label)
    requires t < w.mem.nextTask && t in w.mem.tasks && IsRequest(l)
    ensures t in Step(r, w, l).mem.tasks && Step(r, w, l).mem.tasks[t].pc == w.mem.tasks[t].pc
    ensures Step(r, w, l).mem.nextTask >= w.mem.nextTask
  {
    match l
    case Retry(finished, how) => RetryKeepsTask(w, t, finished, how);
    case Cancel => CancelKeepsTask(w, t);
    case _ =>
  }

  lemma RetryKeepsTask(w: World, t: nat, finished: bool, how: Reattach)
    requires t < w.mem.nextTask && t in w.mem.tasks
    ensures var v := RetryStep(w, finished, how);
            t in v.mem.tasks && v.mem.tasks[t].pc == w.mem.tasks[t].pc && v.mem.nextTask >= w.mem.nextTask
  {
  }

  lemma CancelKeepsTask(w: World, t: nat)
    requires t in w.mem.tasks
    ensures var v := CancelStep(w);
            t in v.mem.tasks && v.mem.tasks[t].pc == w.mem.tasks[t].pc && v.mem.nextTask >= w.mem.nextTask
  {
  }

  class Manager {
    const kind: Kind
    const job: JobRecord
    const dir: WorkDir
    var inStore: bool
    var handle: bool
    var registered: Option<nat>
    var tasks: map<nat, Task>
    var nextTask: nat
    var lock: Option<nat>
    var cancelling: set<nat>
    var shelf: Shelf
    var gone: bool

    function Memory(): Memory
      reads this
    {
      Jobs.Memory.Memory(inStore, handle, registered, tasks, nextTask, lock, cancelling)
    }

    /** The state as the step system has it. */
    function View(): World
      reads this, job, dir
    {
      World(kind, job.Value(), Memory(), shelf, dir.json, dir.clash, dir.files, gone)
    }

    /** `_add_http`. */
    constructor AddHttp(name: string)
      ensures View() == Accepted(Http, name, false)
      ensures fresh(job) && fresh(dir)
    {
      kind, inStore, handle, registered := Http, true, false, None;
      tasks, nextTask, lock, cancelling := map[], 0, None, {};
      shelf, gone := Shelf(map[], map[], {}, {}, {}, false), false;
      job := new JobRecord(name);
      dir := new WorkDir();
      new;
      PersistJob();
      job.status := Downloading;
      PersistJob();
      CreateTask(HttpBody, HttpStart);
    }

    // ----- store -----

    method PersistJob()
      modifies dir`json, dir`clash
      ensures View() == Persist(old(View()))
    {
      if job.status == Completed || job.status == Cancelled {
        dir.DropRecord();
      } else {
        dir.Save(Saved(job.status, job.userPaused, job.phase, job.name, job.downloaded));
      }
    }

    // ----- the work directory -----

    predicate IsFile(n: string)
      reads dir
    {
      if n == JOB_STATE then dir.json.Some? || dir.clash.foreign.Some? else n in dir.files
    }

    function Content(r: Remote, n: string): bytes
      requires IsFile(n)
      reads dir
    {
      if n == JOB_STATE then
        if dir.json.Some? then r.encode(dir.json.value) else dir.clash.foreign.value
      else dir.files[n]
    }

    method UnlinkFile(n: string)
      modifies dir
      ensures View() == Unlink(old(View()), n)
    {
      if n == JOB_STATE {
        dir.json := None;
        dir.clash := dir.clash.(foreign := None);
      } else {
        dir.files := dir.files - {n};
      }
    }

    method PutFile(n: string, b: bytes)
      modifies dir
      ensures View() == Put(old(View()), n, b)
    {
      if n == JOB_STATE {
        dir.json := None;
        dir.clash := dir.clash.(foreign := Some(b));
      } else {
        dir.files := dir.files[n := b];
      }
    }

    method FailJob()
      modifies job`status, dir`json, dir`clash
      ensures View() == Fail(old(View()))
    {
      job.status := Failed;
      PersistJob();
    }

    // ----- tasks -----

    method CreateTask(body: Body, pc: Pc)
      modifies `tasks, `nextTask, `registered
      ensures View() == old(View()).(mem := Spawn(old(Memory()), body, pc))
    {
      tasks := tasks[nextTask := Task(body, pc, false)];
      if body == HttpBody || body == FetchBody {
        registered := Some(nextTask);
      }
      nextTask := nextTask + 1;
    }

    method Suspend(t: nat, pc: Pc)
      requires t in tasks
      modifies `tasks
      ensures View() == old(View()).(mem := At(old(Memory()), t, pc))
    {
      tasks := tasks[t := tasks[t].(pc := pc)];
    }

    method Leave(t: nat)
      requires t in tasks
      modifies `tasks, `registered, `lock
      ensures View() == old(View()).(mem := End(old(Memory()), t))
    {
      var body := tasks[t].body;
      tasks := tasks - {t};
      if body == HttpBody || body == FetchBody {
        registered := None;
      }
      if lock == Some(t) {
        lock := None;
      }
    }

    // ----- requests -----

    method Pause() returns (ok: bool)
      modifies job`userPaused, job`status, dir`json, dir`clash
      ensures View() == PauseStep(old(View()))
      ensures ok == (old(inStore) && old(job.status) in {Queued, Downloading})
    {
      if !inStore || (job.status != Queued && job.status != Downloading) {
        return false;
      }
      job.userPaused := true;
      job.status := Paused;
      PersistJob();
      return true;
    }

    method Resume() returns (ok: bool)
      modifies job`userPaused, job`status, dir`json, dir`clash
      ensures View() == ResumeStep(old(View()))
      ensures ok == (old(inStore) && (old(job.userPaused) || old(job.status) == Paused))
    {
      if !inStore || (!job.userPaused && job.status != Paused) {
        return false;
      }
      job.userPaused := false;
      job.status := Downloading;
      PersistJob();
      return true;
    }

    method Retry(finished: bool, how: Reattach) returns (ok: bool)
      modifies this, job, dir
      ensures View() == RetryStep(old(View()), finished, how)
      ensures ok <==> old(inStore) && old(job.status) == Failed && old(registered) == None
                      && (kind == Http || old(handle) || !how.Unable?)
    {
      if !inStore || job.status != Failed || registered.Some? {
        return false;
      }
      job.userPaused := false;
      if kind == Torrent {
        ok := DoRetryTorrent(finished, how);
      } else {
        DoRetryHttp();
        ok := true;
      }
    }

    method DoRetryHttp()
      requires kind == Http
      modifies this, job, dir
      ensures View() == RetryHttp(old(View()))
    {
      var dest := job.name;
      if job.phase == EncryptingPhase && IsFile(dest) {
        job.status := Encrypting;
        CreateTask(FinalizeBody, FinalizeStart(dest));
        return;
      }
      if IsFile(dest) {
        UnlinkFile(dest);
      }
      job.downloaded := 0;
      job.status := Downloading;
      job.phase := HttpPhase;
      CreateTask(HttpBody, HttpStart);
    }

    method DoRetryTorrent(finished: bool, how: Reattach) returns (ok: bool)
      modifies this, job, dir
      ensures View() == RetryTorrent(old(View()), finished, how) && (ok <==> old(handle) || !how.Unable?)
    {
      if handle {
        var done := finished || job.phase == PackingPhase || job.phase == EncryptingPhase;
        job.status := Downloading;
        job.phase := NoPhase;
        if done {
          CreateTask(CompleteBody, CompleteWaiting);
        }
        return true;
      }
      if how.Unable? {
        return false;
      }
      job.status := Downloading;
      job.phase := NoPhase;
      if how.Attached? {
        handle := true;
      } else {
        CreateTask(FetchBody, FetchStart);
      }
      return true;
    }

    /** The end of `cancel`. */
    method RemoveJob()
      modifies this, dir
      ensures View() == Wipe(old(View()))
    {
      dir.files := map[];
      dir.DropRecord();
      if job.fileId.Some? {
        shelf := shelf.(wiped := shelf.wiped + {job.fileId.value});
      }
      inStore := false;
      gone := true;
    }

    /** `cancel` up to its await, or to its end if it has nothing to wait for. */
    method Cancel() returns (ok: bool)
      modifies this, dir
      ensures View() == CancelStep(old(View()))
      ensures ok <==> old(inStore) && old(job.status) in {Queued, Downloading, Paused, Failed, Cancelled}
    {
      if !inStore || job.status == Completed || job.status == Encrypting {
        return false;
      }
      handle := false;
      var task := registered;
      registered := None;
      if task.Some? && task.value in tasks {
        tasks := tasks[task.value := tasks[task.value].(cancelled := true)];
        cancelling := cancelling + {task.value};
      } else {
        RemoveJob();
      }
      return true;
    }

    method Flush()
      modifies dir`json, dir`clash
      ensures View() == FlushStep(old(View()))
    {
      if inStore && job.status != Completed && job.status != Cancelled {
        PersistJob();
      }
    }

    // ----- the HTTP coroutine, section by section -----

    method Top(r: Remote, t: nat, dest: string)
      requires t in tasks
      modifies `tasks, job`status, dir`json, dir`clash
      ensures View() == LoopTop(r, old(View()), t, dest)
    {
      if job.userPaused {
        job.status := Paused;
        PersistJob();
        Suspend(t, HttpTopSleep(dest));
        return;
      }
      job.status := Downloading;
      PersistJob();
      var existing := if IsFile(dest) then |Content(r, dest)| else 0;
      Suspend(t, HttpConnecting(dest, existing));
    }

    method MoveFile(r: Remote, dest: string, name: string)
      modifies dir
      ensures View() == Move(r, old(View()), dest, name)
    {
      if IsFile(dest) && !IsFile(name) {
        var b := Content(r, dest);
        UnlinkFile(dest);
        PutFile(name, b);
      }
    }

    method OpenFile(name: string)
      modifies dir
      ensures View() == Open(old(View()), name)
    {
      if !IsFile(name) {
        PutFile(name, []);
      }
      dir.clash := dir.clash.(detached := false);
    }

    /** The answer's headers: restart or continue, take the announced name, open the file. */
    method TakeHeaders(r: Remote, path: string, existing: nat, rest: bool, ghost partial: bool) returns (dest: string)
      requires rest == SendsRest(r, existing, partial)
      modifies job`name, dir
      ensures View() == AnswerWrites(r, old(View()), path, existing, partial, 5)
      ensures dest == Announced(r, old(View()), path)
    {
      dest := path;
      if existing > 0 && !rest {
        UnlinkFile(dest);
      }
      if r.disposition.Some? && r.disposition.value != job.name {
        MoveFile(r, dest, r.disposition.value);
        job.name := r.disposition.value;
        dest := job.name;
        PersistJob();
      }
      if !rest {
        UnlinkFile(dest);
      }
      OpenFile(dest);
    }

    /** An answer: an error status, or the body from the start or from where the file ends. */
    method Answered(r: Remote, t: nat, partial: bool)
      requires t in tasks && tasks[t].pc.HttpConnecting?
      modifies `tasks, `registered, `lock, job`status, job`name, dir
      ensures View() == AnswerStep(r, old(View()), t, partial)
    {
      var existing := tasks[t].pc.existing;
      if existing > 0 && partial && existing >= |r.content| {
        FailJob();
        Leave(t);
        return;
      }
      var rest := existing > 0 && partial;
      var dest := TakeHeaders(r, tasks[t].pc.dest, existing, rest, partial);
      if rest {
        Suspend(t, HttpStreaming(dest, r.content[existing..], existing));
      } else {
        Suspend(t, HttpStreaming(dest, r.content, 0));
      }
    }

    method GotChunk(r: Remote, t: nat, n: nat)
      requires t in tasks && tasks[t].pc.HttpStreaming?
      modifies `tasks, job`downloaded, job`phase, dir
      ensures View() == ChunkStep(r, old(View()), t, n)
    {
      var dest, rest, count := tasks[t].pc.dest, tasks[t].pc.rest, tasks[t].pc.count;
      if rest == [] {
        Suspend(t, HttpClosing(dest));
        return;
      }
      if job.userPaused {
        Suspend(t, HttpUnwinding(dest));
        return;
      }
      var m := if n == 0 then 1 else if n <= |rest| then n else |rest|;
      if dest != JOB_STATE || !dir.clash.detached {
        PutFile(dest, (if IsFile(dest) then Content(r, dest) else []) + rest[..m]);
      }
      job.downloaded := count + m;
      job.phase := HttpPhase;
      Suspend(t, HttpStreaming(dest, rest[m..], count + m));
    }

    /** `_finalize_path` up to the worker thread, which gets what the path holds after the save. */
    method StartFinalize(r: Remote, t: nat, id: string, path: string)
      requires t in tasks
      modifies `tasks, `shelf, job`status, job`phase, job`downloaded, dir`json, dir`clash
      ensures View() == FinalizeHttp(r, old(View()), t, id, path)
    {
      SetEncrypting(IsFile(path));
      var item := if IsFile(path) then Some(Item(Content(r, path), path)) else None;
      shelf := shelf.(uploads := shelf.uploads[id := NewUpload(item)]);
      Suspend(t, Appending(id));
    }

    method SetEncrypting(isFile: bool)
      modifies job`status, job`phase, job`downloaded, dir`json, dir`clash
      ensures View() == StartEncrypting(old(View()), isFile)
    {
      job.status := Encrypting;
      job.phase := EncryptingPhase;
      if isFile {
        job.downloaded := 0;
      }
      PersistJob();
    }

    /** The same for a packed torrent or its only file. */
    method StartFinalizeBundle(t: nat, id: string, item: Item)
      requires t in tasks
      modifies `tasks, `shelf, job`status, job`phase, job`downloaded, dir`json, dir`clash
      ensures View() == BeginFinalize(old(View()), t, id, true, Some(item))
    {
      SetEncrypting(true);
      shelf := shelf.(uploads := shelf.uploads[id := NewUpload(Some(item))]);
      Suspend(t, Appending(id));
    }

    /** `_finalize_path` after `write_duration`. */
    method FinishFinalize(t: nat, id: string)
      requires t in tasks
      modifies this, job, dir
      ensures View() == Complete(old(View()), t, id)
    {
      job.fileId := Some(id);
      job.status := Completed;
      job.name := id;
      dir.DropRecord();
      dir.files := map[];
      if tasks[t].body == CompleteBody || tasks[t].body == PollCompleteBody {
        handle := false;
      }
      Leave(t);
    }

    /** The coroutine after its append: the row is there, or the append raised. */
    method AppendReturned(t: nat, id: string)
      requires t in tasks && id in shelf.uploads && shelf.uploads[id].stage in {RowWritten, Broken}
      modifies `tasks, `registered, `lock, job`status, dir`json, dir`clash
      ensures View() == AwaitAppend(old(View()), t, id)
    {
      if shelf.uploads[id].stage == RowWritten {
        Suspend(t, WritingDuration(id));
      } else {
        FailJob();
        Leave(t);
      }
    }

    /** An exception in a coroutine. */
    method Raise(t: nat)
      requires t in tasks
      modifies `tasks, `registered, `lock, `shelf, job`status, dir`json, dir`clash
      ensures View() == BreakStep(old(View()), t)
    {
      if tasks[t].pc.WritingDuration? {
        shelf := shelf.(leaked := true);
      }
      FailJob();
      Leave(t);
    }

    /** A `CancelledError` in a coroutine. */
    method OnCancelled(t: nat)
      requires t in tasks
      modifies `tasks, `registered, `lock, job`status
      ensures View() == Cancelling(old(View()), t)
    {
      if tasks[t].pc.HttpStart? || tasks[t].pc.FetchStart? {
        tasks := tasks - {t};
      } else {
        job.status := Cancelled;
        Leave(t);
      }
    }

    // ----- torrents -----

    /** One scan of `_poll_once`. */
    method Poll(raises: bool, finished: bool)
      requires kind == Torrent && (forall t <- tasks :: tasks[t].body != PollCompleteBody)
      modifies this, job, dir
      ensures View() == PollStep(old(View()), raises, finished)
    {
      if !inStore || !handle || job.status == Completed || job.status == Failed || job.status == Cancelled
         || job.status == Encrypting {
        return;
      }
      assert job.status.Queued? || job.status.Downloading? || job.status.Paused?;
      if raises {
        FailJob();
        return;
      }
      job.phase := SwarmPhase;
      if job.userPaused {
        job.status := Paused;
        return;
      }
      job.status := Downloading;
      if finished {
        CreateTask(PollCompleteBody, CompleteWaiting);
      }
    }

    /** `_complete_torrent` from the lock to its first await inside. */
    method LockTaken(t: nat, event: Event)
      requires t in tasks && lock == None && (event.Bundle? || event.Break?)
      modifies this, job, dir
      ensures View() == AcquireStep(old(View()), t, event)
    {
      if !inStore || !handle || job.status == Encrypting || job.status == Completed {
        Leave(t);
        return;
      }
      if event.Bundle? && !event.pack && !FreshId(View(), event.id) {
        return;  // a new id is a fresh one
      }
      job.status := Encrypting;
      PersistJob();
      if event.Break? {
        FailJob();
        Leave(t);
        return;
      }
      lock := Some(t);
      if event.pack {
        job.phase := PackingPhase;
        job.downloaded := 0;
        PersistJob();
        Suspend(t, CompletePacking);
      } else {
        StartFinalizeBundle(t, event.id, event.item);
      }
    }

    /** `_fetch_torrent_then_add` when the torrent was added. */
    method TorrentAdded(t: nat)
      requires t in tasks && tasks[t].pc.Fetching?
      modifies this, job, dir
      ensures View() == TorrentTurn(old(View()), t, Tick)
    {
      job.status := Downloading;
      PersistJob();
      Leave(t);
      handle := true;
    }

    // ----- restart -----

    method DoRestoreHttp()
      requires kind == Http
      modifies this, job, dir
      ensures View() == RestoreHttp(old(View()))
    {
      var dest := job.name;
      if job.status == Failed {
        PersistJob();
        return;
      }
      if (job.status == Encrypting || job.phase == EncryptingPhase || job.phase == PackingPhase) && IsFile(dest) {
        job.status := Encrypting;
        PersistJob();
        CreateTask(FinalizeBody, FinalizeStart(dest));
        return;
      }
      StartAgain();
    }

    /** The end of `_restore_http`: the download goes on, or stays paused. */
    method StartAgain()
      modifies this, job, dir
      ensures View() == var w := old(View());
                        var paused := w.job.status == Paused || w.job.userPaused;
                        Persist(w.(job := w.job.(userPaused := paused, status := if paused then Paused else Downloading))).(
                          mem := Spawn(w.mem, HttpBody, HttpStart))
    {
      if job.status == Paused || job.userPaused {
        job.userPaused := true;
        job.status := Paused;
      } else {
        job.status := Downloading;
      }
      PersistJob();
      CreateTask(HttpBody, HttpStart);
    }

    method Reattach(how: Reattach)
      requires !how.Unable?
      modifies this, job, dir
      ensures View() == ReattachStep(old(View()), how)
    {
      if how.Attached? {
        handle := true;
        return;
      }
      job.status := Downloading;
      PersistJob();
      CreateTask(FetchBody, FetchStart);
    }

    method DoRestoreTorrent(how: Reattach)
      requires kind == Torrent
      modifies this, job, dir
      ensures View() == RestoreTorrent(old(View()), how)
    {
      if job.status == Failed {
        if !how.Unable? {
          Reattach(how);
        }
        PersistJob();
        return;
      }
      var needsFinalize := job.status == Encrypting || job.phase == PackingPhase || job.phase == EncryptingPhase;
      var paused := job.status == Paused || job.userPaused || needsFinalize;
      if how.Unable? {
        FailJob();
        return;
      }
      Reattach(how);
      GoOn(needsFinalize, paused);
    }

    /** The tail of `_restore_torrent`. */
    method GoOn(needsFinalize: bool, paused: bool)
      modifies this, job, dir
      ensures var w := old(View());
              View() == if needsFinalize then
                          Persist(w.(job := w.job.(status := Downloading, userPaused := false))).(
                            mem := Spawn(w.mem, CompleteBody, CompleteWaiting))
                        else if paused then Persist(w.(job := w.job.(userPaused := true, status := Paused)))
                        else Persist(SetStatus(w, Downloading))
    {
      if needsFinalize {
        job.status := Downloading;
        job.userPaused := false;
        PersistJob();
        CreateTask(CompleteBody, CompleteWaiting);
        return;
      }
      if paused {
        job.userPaused := true;
        job.status := Paused;
      } else {
        job.status := Downloading;
      }
      PersistJob();
    }

    // ----- everything that happens to a job -----

    /** The end of a cancel that waited for a coroutine. */
    method FinishCancel(t: nat)
      modifies this, dir
      ensures View() == CancelFinishStep(old(View()), t)
    {
      if t in cancelling && t !in tasks {
        cancelling := cancelling - {t};
        RemoveJob();
      }
    }

    /** A torrent's coroutine after its packing. */
    method Packed(t: nat, event: Event)
      requires t in tasks && event.Bundle? && FreshId(View(), event.id)
      modifies this, job, dir
      ensures View() == BeginFinalize(old(View()).(job := old(job.Value()).(name := event.item.name)), t, event.id, true,
                                        Some(event.item))
    {
      job.name := event.item.name;
      StartFinalizeBundle(t, event.id, event.item);
    }

    method TorrentSection(t: nat, event: Event)
      requires t in tasks
      modifies this, job, dir
      ensures View() == TorrentTurn(old(View()), t, event)
    {
      match tasks[t].pc
      case FetchStart => Suspend(t, Fetching);
      case Fetching =>
        if event.Tick? {
          TorrentAdded(t);
        }
      case CompleteWaiting =>
        if lock == None && (event.Bundle? || event.Break?) {
          LockTaken(t, event);
        }
      case CompletePacking =>
        if event.Bundle? && FreshId(View(), event.id) {
          Packed(t, event);
        }
      case _ =>
    }

    method FinalizeSection(r: Remote, t: nat, event: Event)
      requires t in tasks
      modifies this, job, dir
      ensures View() == FinalizeTurn(r, old(View()), t, event)
    {
      match tasks[t].pc
      case HttpClosing(path) =>
        if event.Proceed? && FreshId(View(), event.id) {
          StartFinalize(r, t, event.id, path);
        }
      case FinalizeStart(path) =>
        if event.Proceed? && FreshId(View(), event.id) {
          StartFinalize(r, t, event.id, path);
        }
      case Appending(id) =>
        if id in shelf.uploads && (shelf.uploads[id].stage == RowWritten || shelf.uploads[id].stage == Broken) {
          AppendReturned(t, id);
        }
      case WritingDuration(id) =>
        if event.Tick? {
          FinishFinalize(t, id);
        }
      case _ =>
    }

    /** The code of the coroutine from one await to the next. */
    method Section(r: Remote, t: nat, event: Event)
      requires t in tasks && InHttp(tasks[t].pc) && !tasks[t].pc.HttpClosing?
      modifies this, job, dir
      ensures View() == HttpTurn(r, old(View()), t, event)
    {
      match tasks[t].pc
      case HttpStart => Top(r, t, job.name);
      case HttpTopSleep(dest) => Top(r, t, dest);
      case HttpPauseSleep(dest) =>
        if !job.userPaused || job.status == Cancelled {
          Top(r, t, dest);
        }
      case HttpConnecting(_, _) =>
        if event.Answer? {
          Answered(r, t, event.partial);
        }
      case HttpStreaming(_, _, _) =>
        if event.Chunk? {
          GotChunk(r, t, event.n);
        }
      case HttpUnwinding(dest) =>
        job.status := Paused;
        PersistJob();
        Suspend(t, HttpPauseSleep(dest));
    }

    /** One turn of any coroutine. */
    method TakeTurn(r: Remote, t: nat, event: Event)
      modifies this, job, dir
      ensures View() == GoStep(r, old(View()), t, event)
    {
      if t !in tasks {
        return;
      }
      if tasks[t].cancelled {
        OnCancelled(t);
      } else if event.Break? && MayBreak(tasks[t].pc) {
        Raise(t);
      } else if Finishing(tasks[t].pc) {
        FinalizeSection(r, t, event);
      } else if kind == Http {
        HttpSection(r, t, event);
      } else {
        TorrentSection(t, event);
      }
    }

    method HttpSection(r: Remote, t: nat, event: Event)
      requires t in tasks
      modifies this, job, dir
      ensures View() == HttpTurn(r, old(View()), t, event)
    {
      if InHttp(tasks[t].pc) && !tasks[t].pc.HttpClosing? {
        Section(r, t, event);
      }
    }

    /** The worker thread of an append: its next write, or its exception. */
    method AppendThread(id: string, ok: bool)
      modifies `shelf
      ensures View() == ThreadStep(old(View()), id, ok)
    {
      if id !in shelf.uploads {
        return;
      }
      var u := shelf.uploads[id];
      if u.stage == Sealing && ok {
        shelf := shelf.(uploads := shelf.uploads[id := u.(stage := BlobPlaced)], placed := shelf.placed[id := u.item],
                        recent := shelf.recent + {id});
      } else if u.stage == BlobPlaced && ok {
        shelf := shelf.(uploads := shelf.uploads[id := u.(stage := RowWritten)], listed := shelf.listed + {id});
      } else if u.stage == Sealing || u.stage == BlobPlaced {
        shelf := shelf.(uploads := shelf.uploads[id := u.(stage := Broken)],
                        leaked := shelf.leaked || u.stage == BlobPlaced);
      }
    }

    /** The process dies: what was buffered is lost, and so is everything in memory. */
    method Die(keep: nat)
      modifies dir
      ensures View() == LoseBuffer(old(View()), keep)
    {
      var v := LoseBuffer(View(), keep);
      dir.files := v.files;
      dir.clash := v.clash;
    }

    /** A new process finds the record and restores the job. */
    method Reboot(r: Remote, how: Reattach)
      modifies this, job, dir
      ensures View() == Restart(r, old(View()), how)
    {
      var found := Loaded(r, View());
      inStore, handle, registered, lock, cancelling := found.Some?, false, None, None, {};
      tasks, nextTask := map[], 0;
      shelf := shelf.(uploads := map[], recent := {}, leaked := false);
      job.Load(if found.Some? then found.value else Saved(Queued, false, NoPhase, "", 0));
      if found.Some? {
        if kind == Http {
          DoRestoreHttp();
        } else {
          DoRestoreTorrent(how);
        }
      }
    }

    /** Whatever may happen to a job, but for a crash between two writes of one step. */
    method Handle(r: Remote, l: Label)
      requires l.Crash? || !l.IsCrash()
      modifies this, job, dir
      ensures View() == Step(r, old(View()), l)
    {
      if IsRequest(l) {
        Serve(r, l);
      } else if l.CancelFinish? {
        FinishCancel(l.t);
      } else if l.PollScan? {
        if kind == Torrent && forall t | t in tasks :: tasks[t].body != PollCompleteBody {
          Poll(l.raises, l.finished);
        }
      } else if l.Go? {
        TakeTurn(r, l.t, l.event);
      } else if l.Thread? {
        AppendThread(l.id, l.ok);
      } else {
        Die(l.keep);
        Reboot(r, l.how);
      }
    }

    method HandleNext(r: Remote, ls: seq<Label>, i: nat, ghost start: World)
      requires i < |ls| && (ls[i].Crash? || !ls[i].IsCrash()) && View() == Exec(r, start, ls[..i])
      modifies this, job, dir
      ensures View() == Exec(r, start, ls[..i + 1])
    {
      ExecPrefix(r, start, ls, i);
      Handle(r, ls[i]);
    }

    /** The object goes through any run of such steps exactly as the step system does. */
    method HandleAll(r: Remote, ls: seq<Label>)
      requires forall i | 0 <= i < |ls| :: ls[i].Crash? || !ls[i].IsCrash()
      modifies this, job, dir
      ensures View() == Exec(r, old(View()), ls)
    {
      ghost var start := View();
      for i := 0 to |ls|
        invariant View() == Exec(r, start, ls[..i])
      {
        HandleNext(r, ls, i, start);
      }
      assert ls[..|ls|] == ls;
    }

    // ----- the HTTP coroutine as a whole -----

    /** A request. */
    method Serve(r: Remote, l: Label)
      requires IsRequest(l)
      modifies this, job, dir
      ensures View() == Step(r, old(View()), l)
    {
      match l {
        case Pause => var _ := Pause();
        case Resume => var _ := Resume();
        case Retry(finished, how) => var _ := Retry(finished, how);
        case Cancel => var _ := Cancel();
        case Flush => Flush();
      }
    }

    /** The first `k` awaits are over. */
    ghost predicate Reached(c: Course, t: nat, k: nat)
      reads this, job, dir
    {
      k < |c.before| && t < nextTask && View() == c.before[k]
    }

    /** What the coroutine waited for at the next one is there, and it goes on. */
    ghost predicate Awake(c: Course, t: nat, script: seq<Await>, k: nat)
      reads this, job, dir
    {
      && k < |c.met| && k < |script| && t < nextTask && View() == c.met[k]
      && t in tasks && !Interrupted(tasks[t], script[k].event) && Awaited(View(), tasks[t].pc, script[k].event)
    }

    method ServeOne(r: Remote, t: nat, l: Label)
      requires t in tasks && t < nextTask && Meanwhile(l)
      modifies this, job, dir
      ensures View() == Step(r, old(View()), l)
      ensures t in tasks && t < nextTask && tasks[t].pc == old(tasks[t].pc)
      ensures GoesOn(old(shelf), shelf)
    {
      KeepsTask(r, View(), t, l);
      MeanwhileGoesOn(r, View(), l);
      if l.Thread? {
        AppendThread(l.id, l.ok);
      } else {
        Serve(r, l);
      }
    }

    method ServeNext(r: Remote, t: nat, ls: seq<Label>, i: nat, ghost start: World, ghost first: Shelf)
      requires i < |ls| && Meanwhile(ls[i]) && View() == Exec(r, start, ls[..i])
      requires t in tasks && t < nextTask && GoesOn(first, shelf)
      modifies this, job, dir
      ensures View() == Exec(r, start, ls[..i + 1])
      ensures t in tasks && t < nextTask && tasks[t].pc == old(tasks[t].pc) && GoesOn(first, shelf)
    {
      ExecPrefix(r, start, ls, i);
      ghost var before := shelf;
      ServeOne(r, t, ls[i]);
      GoesOnTwice(first, before, shelf);
    }

    method ServeAll(r: Remote, t: nat, ls: seq<Label>)
      requires t in tasks && t < nextTask && forall l <- ls :: Meanwhile(l)
      modifies this, job, dir
      ensures View() == Exec(r, old(View()), ls)
      ensures t in tasks && t < nextTask && tasks[t].pc == old(tasks[t].pc)
      ensures GoesOn(old(shelf), shelf)
    {
      ghost var start := View();
      for i := 0 to |ls|
        invariant View() == Exec(r, start, ls[..i])
        invariant t in tasks && t < nextTask && tasks[t].pc == old(tasks[t].pc)
        invariant GoesOn(old(shelf), shelf)
      {
        ServeNext(r, t, ls, i, start, old(shelf));
      }
      assert ls[..|ls|] == ls;
    }

    method Interrupt(r: Remote, t: nat, event: Event)
      requires t in tasks && Interrupted(tasks[t], event)
      modifies this, job, dir
      ensures View() == GoStep(r, old(View()), t, event)
      ensures t !in tasks && nextTask == old(nextTask)
      ensures GoesOn(old(shelf), shelf)
    {
      if tasks[t].cancelled {
        OnCancelled(t);
      } else {
        Raise(t);
      }
    }

    /** One wait. */
    method Doze(r: Remote, t: nat, script: seq<Await>, k: nat, ghost c: Course) returns (wake: Wake)
      requires kind == Http && Follows(r, t, script, c) && Reached(c, t, k) && t in tasks && Inside(tasks[t].pc)
      requires k < |script| && Served(script[k])
      modifies this, job, dir
      ensures wake == Up ==> Awake(c, t, script, k)
      ensures wake != Up ==> Reached(c, t, k + 1)
      ensures if wake == Gone then t !in tasks else t in tasks && tasks[t].pc == old(tasks[t].pc)
      ensures InHttp(old(tasks[t].pc)) ==> UpTo(t, c, k + 1)
      ensures GoesOn(old(shelf), shelf)
    {
      var a := script[k];
      FollowsEach(r, t, script, c, |script|, k);
      ServeAll(r, t, a.meanwhile);
      if Interrupted(tasks[t], a.event) {
        Interrupt(r, t, a.event);
        return Gone;
      }
      if Awaited(View(), tasks[t].pc, a.event) {
        return Up;
      }
      NotAwaited(r, View(), t, a.event);
      return Again;
    }

    /** `await`: until the coroutine goes on, is cancelled or gets an exception, or the script is over. */
    method Sleep(r: Remote, t: nat, script: seq<Await>, i: nat, ghost c: Course) returns (k: nat, go: bool)
      requires kind == Http && Follows(r, t, script, c) && Reached(c, t, i) && t in tasks && Inside(tasks[t].pc)
      requires forall a <- script :: Served(a)
      modifies this, job, dir
      ensures i <= k
      ensures InHttp(old(tasks[t].pc)) ==> k == i || UpTo(t, c, k)
      ensures go ==> Awake(c, t, script, k) && tasks[t].pc == old(tasks[t].pc)
      ensures !go ==> Reached(c, t, k) && (k == |script| || t !in tasks)
      ensures GoesOn(old(shelf), shelf)
    {
      k := i;
      var wake := Again;
      while k < |script| && wake == Again
        invariant i <= k && (InHttp(old(tasks[t].pc)) ==> k == i || UpTo(t, c, k))
        invariant wake == Up ==> Awake(c, t, script, k)
        invariant wake != Up ==> Reached(c, t, k)
        invariant if wake == Gone then t !in tasks else t in tasks && tasks[t].pc == old(tasks[t].pc)
        invariant GoesOn(old(shelf), shelf)
        decreases |script| - k, wake == Again
      {
        assert Served(script[k]);
        wake := Doze(r, t, script, k, c);
        k := if wake == Up then k else k + 1;
      }
      go := wake == Up;
    }

    /** Where the loop of `_http_download` starts over, with `dest` as its local variable. */
    predicate AtTop(pc: Pc, dest: string)
      reads job
    {
      match pc
      case HttpStart => dest == job.name
      case HttpTopSleep(d) => d == dest
      case HttpPauseSleep(d) => d == dest && (!job.userPaused || job.status == Cancelled)
      case _ => false
    }

    /** One chunk, or the end of the body. */
    method ChunkTurn(r: Remote, t: nat, dest: string, script: seq<Await>, k: nat, ghost c: Course)
      requires kind == Http && Follows(r, t, script, c) && Awake(c, t, script, k)
      requires tasks[t].pc.HttpStreaming? && tasks[t].pc.dest == dest
      modifies this, job, dir
      ensures Reached(c, t, k + 1) && UpTo(t, c, k + 1)
      ensures t in tasks && Reading(tasks[t].pc, dest)
    {
      FollowsEach(r, t, script, c, |script|, k);
      GotChunk(r, t, script[k].event.n);
    }

    /** The loop over the body's chunks: until it ends or a pause is requested. */
    method ReadBody(r: Remote, t: nat, dest: string, script: seq<Await>, i: nat, ghost c: Course)
      returns (k: nat, go: bool)
      requires kind == Http && Follows(r, t, script, c) && (forall a <- script :: Served(a))
      requires Awake(c, t, script, i) && tasks[t].pc.HttpStreaming? && tasks[t].pc.dest == dest && UpTo(t, c, i)
      modifies this, job, dir
      ensures i <= k && UpTo(t, c, k)
      ensures go ==> Awake(c, t, script, k) && Reading(tasks[t].pc, dest) && !tasks[t].pc.HttpStreaming?
      ensures !go ==> Reached(c, t, k) && (k == |script| || t !in tasks)
    {
      k, go := i, true;
      while go && tasks[t].pc.HttpStreaming?
        invariant i <= k && UpTo(t, c, k)
        invariant go ==> Awake(c, t, script, k) && Reading(tasks[t].pc, dest)
        invariant !go ==> Reached(c, t, k) && (k == |script| || t !in tasks)
        decreases |script| - k, go
      {
        ChunkTurn(r, t, dest, script, k, c);
        k, go := Sleep(r, t, script, k + 1, c);
      }
    }

    /** The code before the request: pause here, or ask for what is missing. */
    method TopTurn(r: Remote, t: nat, dest: string, script: seq<Await>, k: nat, ghost c: Course)
      requires kind == Http && Follows(r, t, script, c) && Awake(c, t, script, k) && AtTop(tasks[t].pc, dest)
      modifies this, job, dir
      ensures Reached(c, t, k + 1) && UpTo(t, c, k + 1) && t in tasks
      ensures if old(job.userPaused) then tasks[t].pc == HttpTopSleep(dest)
              else tasks[t].pc.HttpConnecting? && tasks[t].pc.dest == dest
    {
      FollowsEach(r, t, script, c, |script|, k);
      Top(r, t, dest);
    }

    /** The answer: an error status, or a body that goes to `dest`. */
    method AnswerTurn(r: Remote, t: nat, script: seq<Await>, k: nat, ghost c: Course) returns (ok: bool, dest: string)
      requires kind == Http && Follows(r, t, script, c) && Awake(c, t, script, k) && tasks[t].pc.HttpConnecting?
      modifies this, job, dir
      ensures Reached(c, t, k + 1) && UpTo(t, c, k + 1)
      ensures if ok then t in tasks && tasks[t].pc.HttpStreaming? && tasks[t].pc.dest == dest else t !in tasks
    {
      FollowsEach(r, t, script, c, |script|, k);
      Answered(r, t, script[k].event.partial);
      ok := t in tasks;
      dest := if ok then tasks[t].pc.dest else "";
    }

    /** `except _UserPaused`: save the job, then sleep until it is resumed. */
    method SitOut(r: Remote, t: nat, dest: string, script: seq<Await>, i: nat, ghost c: Course)
      returns (k: nat, go: bool)
      requires kind == Http && Follows(r, t, script, c) && (forall a <- script :: Served(a))
      requires Awake(c, t, script, i) && tasks[t].pc == HttpUnwinding(dest)
      modifies this, job, dir
      ensures i < k && UpTo(t, c, k)
      ensures go ==> Awake(c, t, script, k) && AtTop(tasks[t].pc, dest)
      ensures !go ==> Reached(c, t, k) && (k == |script| || t !in tasks)
    {
      Unwound(r, t, dest, script, i, c);
      k, go := Sleep(r, t, script, i + 1, c);
      while go && job.userPaused && job.status != Cancelled
        invariant i < k && UpTo(t, c, k)
        invariant go ==> Awake(c, t, script, k) && tasks[t].pc == HttpPauseSleep(dest)
        invariant !go ==> Reached(c, t, k) && (k == |script| || t !in tasks)
        decreases |script| - k, go
      {
        k, go := SleepOn(r, t, dest, script, k, c);
      }
    }

    /** Still paused: the coroutine sleeps once more. */
    method SleepOn(r: Remote, t: nat, dest: string, script: seq<Await>, i: nat, ghost c: Course)
      returns (k: nat, go: bool)
      requires kind == Http && Follows(r, t, script, c) && (forall a <- script :: Served(a))
      requires Awake(c, t, script, i) && tasks[t].pc == HttpPauseSleep(dest) && job.userPaused && job.status != Cancelled
      modifies this, job, dir
      ensures i < k && UpTo(t, c, k)
      ensures go ==> Awake(c, t, script, k) && tasks[t].pc == HttpPauseSleep(dest)
      ensures !go ==> Reached(c, t, k) && (k == |script| || t !in tasks)
    {
      FollowsEach(r, t, script, c, |script|, i);
      StillPaused(r, View(), t, script[i].event);
      k, go := Sleep(r, t, script, i + 1, c);
    }

    method Unwound(r: Remote, t: nat, dest: string, script: seq<Await>, k: nat, ghost c: Course)
      requires kind == Http && Follows(r, t, script, c) && Awake(c, t, script, k) && tasks[t].pc == HttpUnwinding(dest)
      modifies this, job, dir
      ensures Reached(c, t, k + 1) && UpTo(t, c, k + 1) && t in tasks && tasks[t].pc == HttpPauseSleep(dest)
    {
      FollowsEach(r, t, script, c, |script|, k);
      job.status := Paused;
      PersistJob();
      Suspend(t, HttpPauseSleep(dest));
    }

    /** Completed under `id`: blob and row are there and hold `item`, and nothing is left of the work directory. */
    ghost predicate Finished(id: string, item: Item)
      reads this, job, dir
    {
      && job.status == Completed && job.fileId == Some(id) && dir.json == None && dir.files == map[]
      && id in shelf.placed && shelf.placed[id] == item && id in shelf.listed
    }

    method Begin(r: Remote, t: nat, path: string, script: seq<Await>, k: nat, ghost c: Course)
      returns (ghost id: string, ghost item: Item)
      requires kind == Http && Follows(r, t, script, c) && Awake(c, t, script, k) && tasks[t].pc == HttpClosing(path)
      modifies this, job, dir
      ensures Reached(c, t, k + 1) && Hands(View(), t, id, item) && Works(shelf, id, item)
    {
      FollowsEach(r, t, script, c, |script|, k);
      id := script[k].event.id;
      StartFinalize(r, t, script[k].event.id, path);
      item := shelf.uploads[id].item;
    }

    method Append(r: Remote, t: nat, ghost id: string, script: seq<Await>, k: nat, ghost c: Course)
      requires kind == Http && Follows(r, t, script, c) && Awake(c, t, script, k) && tasks[t].pc == Appending(id)
      modifies this, job, dir
      ensures Reached(c, t, k + 1) && shelf == old(shelf)
      ensures t in tasks ==>
                tasks[t].pc == WritingDuration(id) && id in shelf.uploads && shelf.uploads[id].stage == RowWritten
    {
      FollowsEach(r, t, script, c, |script|, k);
      AppendReturned(t, tasks[t].pc.id);
    }

    method Finish(r: Remote, t: nat, ghost id: string, script: seq<Await>, k: nat, ghost c: Course)
      requires kind == Http && Follows(r, t, script, c) && Awake(c, t, script, k) && tasks[t].pc == WritingDuration(id)
      modifies this, job, dir
      ensures Reached(c, t, k + 1) && shelf == old(shelf) && t !in tasks
      ensures job.status == Completed && job.fileId == Some(id) && dir.json == None && dir.files == map[]
    {
      FollowsEach(r, t, script, c, |script|, k);
      FinishFinalize(t, tasks[t].pc.id);
    }

    /** The thread has written the row, or the append raised. */
    method AwaitRow(r: Remote, t: nat, script: seq<Await>, i: nat, ghost c: Course, ghost id: string, ghost item: Item)
      returns (k: nat, go: bool)
      requires kind == Http && Follows(r, t, script, c) && (forall a <- script :: Served(a))
      requires Reached(c, t, i) && t in tasks && tasks[t].pc == Appending(id) && Works(shelf, id, item)
      modifies this, job, dir
      ensures i <= k && Reached(c, t, k)
      ensures if go then t in tasks && tasks[t].pc == WritingDuration(id) && RowStands(shelf, id, item)
              else k == |script| || t !in tasks
    {
      k, go := Sleep(r, t, script, i, c);
      if go {
        Append(r, t, id, script, k, c);
        k, go := k + 1, t in tasks;
      }
    }

    method AwaitDuration(r: Remote, t: nat, script: seq<Await>, i: nat, ghost c: Course, ghost id: string, ghost item: Item)
      returns (k: nat, done: bool)
      requires kind == Http && Follows(r, t, script, c) && (forall a <- script :: Served(a))
      requires Reached(c, t, i) && t in tasks && tasks[t].pc == WritingDuration(id) && RowStands(shelf, id, item)
      modifies this, job, dir
      ensures i <= k && Reached(c, t, k) && (k == |script| || t !in tasks)
      ensures done ==> Finished(id, item) && i < k
    {
      ghost var before := shelf;
      k, done := Sleep(r, t, script, i, c);
      StandsOn(before, shelf, id, item);
      if done {
        Finish(r, t, id, script, k, c);
        k := k + 1;
      }
    }

    /** `_finalize_path`: the job is saved, the thread appends `item`, the duration is written, the rest goes. */
    method FinalizePath(r: Remote, t: nat, path: string, script: seq<Await>, i: nat, ghost c: Course)
      returns (k: nat, done: bool, ghost id: string, ghost item: Item)
      requires kind == Http && Follows(r, t, script, c) && (forall a <- script :: Served(a))
      requires Awake(c, t, script, i) && tasks[t].pc == HttpClosing(path)
      modifies this, job, dir
      ensures i < k && Reached(c, t, k) && (k == |script| || t !in tasks) && UpTo(t, c, i + 1)
      ensures Hands(c.before[i + 1], t, id, item)
      ensures done ==> Finished(id, item) && i + 1 < k
    {
      id, item := Begin(r, t, path, script, i, c);
      var go;
      k, go := AwaitRow(r, t, script, i + 1, c, id, item);
      done := false;
      if go {
        k, done := AwaitDuration(r, t, script, k, c, id, item);
      }
    }

    /** The answer and its body. */
    method ReadAnswer(r: Remote, t: nat, script: seq<Await>, i: nat, ghost c: Course)
      returns (k: nat, go: bool, dest: string)
      requires kind == Http && Follows(r, t, script, c) && (forall a <- script :: Served(a))
      requires Awake(c, t, script, i) && tasks[t].pc.HttpConnecting?
      modifies this, job, dir
      ensures i < k && UpTo(t, c, k)
      ensures go ==> Awake(c, t, script, k) && tasks[t].pc in {HttpUnwinding(dest), HttpClosing(dest)}
      ensures !go ==> Reached(c, t, k) && (k == |script| || t !in tasks)
    {
      go, dest := AnswerTurn(r, t, script, i, c);
      k := i + 1;
      if go {
        k, go := Sleep(r, t, script, k, c);
        if go {
          k, go := ReadBody(r, t, dest, script, k, c);
        }
      }
    }

    /** Once around the loop: a sleep while paused, or a request with its answer, and the pause it may end in. */
    method Round(r: Remote, t: nat, path: string, script: seq<Await>, i: nat, ghost c: Course)
      returns (k: nat, go: bool, dest: string)
      requires kind == Http && Follows(r, t, script, c) && (forall a <- script :: Served(a))
      requires Awake(c, t, script, i) && AtTop(tasks[t].pc, path)
      modifies this, job, dir
      ensures i < k && UpTo(t, c, k)
      ensures go ==> Awake(c, t, script, k) && (AtTop(tasks[t].pc, dest) || tasks[t].pc == HttpClosing(dest))
      ensures !go ==> Reached(c, t, k) && (k == |script| || t !in tasks)
    {
      dest := path;
      var paused := job.userPaused;
      TopTurn(r, t, dest, script, i, c);
      k, go := Sleep(r, t, script, i + 1, c);
      if go && !paused {
        k, go, dest := ReadAnswer(r, t, script, k, c);
        if go && tasks[t].pc.HttpUnwinding? {
          k, go := SitOut(r, t, dest, script, k, c);
        }
      }
    }

    /** The end of the coroutine: gone already, or finalizing its file. */
    method Conclude(r: Remote, t: nat, go: bool, dest: string, script: seq<Await>, i: nat, ghost c: Course)
      returns (k: nat, done: bool, ghost j: nat, ghost id: string, ghost item: Item)
      requires kind == Http && Follows(r, t, script, c) && (forall a <- script :: Served(a)) && UpTo(t, c, i)
      requires if go then Awake(c, t, script, i) && tasks[t].pc == HttpClosing(dest)
               else Reached(c, t, i) && (i == |script| || t !in tasks)
      modifies this, job, dir
      ensures j <= k && Reached(c, t, k) && (k == |script| || t !in tasks)
      ensures UpTo(t, c, j) && (j == k || Hands(c.before[j], t, id, item))
      ensures done ==> j < k && Finished(id, item)
    {
      k, done, j, id, item := i, false, i, "", Item([], "");
      if go {
        j := i + 1;
        k, done, id, item := FinalizePath(r, t, dest, script, i, c);
      }
    }

    /**
      `_http_download`: sleep while paused, ask for the rest, write chunk after chunk, start over after
      a pause, finalize at the end of the stream. `script` says what happens at each await; `k` awaits
      of it are used up when the coroutine has ended or the script is over, and the first `j` of them
      are the download, to the turn that hands its file to the thread.
     */
    method HttpDownload(r: Remote, t: nat, script: seq<Await>, ghost c: Course)
      returns (k: nat, done: bool, ghost j: nat, ghost id: string, ghost item: Item)
      requires kind == Http && Follows(r, t, script, c) && (forall a <- script :: Served(a))
      requires Reached(c, t, 0) && t in tasks && tasks[t].pc.HttpStart?
      modifies this, job, dir
      ensures j <= k && Reached(c, t, k) && (k == |script| || t !in tasks)
      ensures UpTo(t, c, j) && (j == k || Hands(c.before[j], t, id, item))
      ensures done ==> j < k && Finished(id, item)
    {
      var go;
      k, go := Sleep(r, t, script, 0, c);
      var dest := job.name;
      while go && !tasks[t].pc.HttpClosing?
        invariant UpTo(t, c, k)
        invariant go ==> Awake(c, t, script, k) && (AtTop(tasks[t].pc, dest) || tasks[t].pc == HttpClosing(dest))
        invariant !go ==> Reached(c, t, k) && (k == |script| || t !in tasks)
        decreases |script| - k, go
      {
        k, go, dest := Round(r, t, dest, script, k, c);
      }
      k, done, j, id, item := Conclude(r, t, go, dest, script, k, c);
    }
  }

  /**
    A new job and its coroutine: whatever requests and failures come in between, what is on disk while
    it downloads is a prefix of the remote content under its final name; the thread gets the whole
    content, and a coroutine that runs to its end has published it.
   */
  method Download(r: Remote, name: string, script: seq<Await>)
    returns (m: Manager, k: nat, done: bool, ghost j: nat)
    requires Usable(r, name) && forall a <- script :: Served(a)
    ensures j <= k <= |script| && m.View() == Exec(r, Accepted(Http, name, false), Labels(0, script[..k]))
    ensures var w := Exec(r, Accepted(Http, name, false), Labels(0, script[..j]));
            && (forall n <- w.files :: n == FinalName(r, name) && w.files[n] <= r.content)
            && (j < k ==> w.files == map[FinalName(r, name) := r.content])
    ensures k < |script| ==> 0 !in m.tasks
    ensures done ==> m.job.fileId.Some? && m.Finished(m.job.fileId.value, Item(r.content, FinalName(r, name)))
  {
    m := new Manager.AddHttp(name);
    ghost var start := m.View();
    AcceptedInv(Http, name, false);
    RunLasting(r, Http, name, false, []);
    AcceptedWhole(r, name);
    assert Sound(r, name, start, []);
    ghost var id, item;
    CourseFollowsTo(r, start, 0, script, |script|);
    assert script[..0] == [];
    k, done, j, id, item := m.HttpDownload(r, 0, script, CourseOf(r, start, 0, script));
    DownloadResult(r, name, start, 0, script, j);
    WholeHands(r, name, Exec(r, start, Labels(0, script[..j])), 0, id, item);
  }
}
