/**
  One job and the pull protocol together: the encryption thread's two writes are the server's blob and
  row, `write_duration` is its metadata, and everything else goes on beside it, other jobs' files
  included. The theorems follow a file from the remote server to the client that keeps it.
 */
module EndToEnd {
  import opened Bytes
  import opened Manifest
  import Codec
  import Jobs
  import JobProofs
  import JobDurability
  import JobContent
  import P = PullProtocol
  import PullRuns
  import ServerView
  import Store

  datatype World = World(job: Jobs.World, pull: P.World)

  datatype Label =
    | Job(job: Jobs.Label)
    | Publish(id: string, key: bytes, base: bytes, seed: bytes)
    | List(id: string, key: bytes, base: bytes, seed: bytes)
    | Duration(id: string)
    | Pull(pull: P.Label)

  predicate IsThread(l: Jobs.Label)
  {
    l.Thread? && l.ok
  }

  predicate Uploading(w: World, id: string, stage: Jobs.Stage)
  {
    id in w.job.shelf.uploads && w.job.shelf.uploads[id].stage == stage
  }

  /** Not about a file of this job: the pull processes, the web interface, and other jobs' files. */
  predicate Foreign(w: World, l: P.Label)
  {
    l.Place? || l.AddRow? || l.WriteMeta? ==> l.id !in w.job.shelf.placed
  }

  /** What a step of the job does to the server: a cancel may remove a completed blob. */
  ghost function Cleared(e: P.Env, before: Jobs.World, after: Jobs.World, pull: P.World): P.World
    requires P.EnvSound(e)
  {
    if after.shelf.wiped != before.shelf.wiped && before.job.fileId.Some?
    then P.Step(e, pull, P.WebDelete(before.job.fileId.value)) else pull
  }

  /** One step; a label that does not apply changes nothing. */
  ghost function Step(e: P.Env, r: Jobs.Remote, w: World, l: Label): World
    requires P.EnvSound(e)
  {
    match l
    case Job(job) =>
      if IsThread(job) then w
      else var after := Jobs.Step(r, w.job, job); World(after, Cleared(e, w.job, after, w.pull))
    case Publish(id, key, base, seed) =>
      if Uploading(w, id, Jobs.Sealing) && P.CanPlace(w.pull, P.Place(id, w.job.shelf.uploads[id].item, key, base, seed))
      then World(Jobs.Step(r, w.job, Jobs.Thread(id, true)),
                 P.Step(e, w.pull, P.Place(id, w.job.shelf.uploads[id].item, key, base, seed)))
      else w
    case List(id, key, base, seed) =>
      if Uploading(w, id, Jobs.BlobPlaced) && P.CanAddRow(w.pull, P.AddRow(id, key, base, seed))
      then World(Jobs.Step(r, w.job, Jobs.Thread(id, true)), P.Step(e, w.pull, P.AddRow(id, key, base, seed)))
      else w
    case Duration(id) =>
      if exists t <- w.job.mem.tasks :: w.job.mem.tasks[t].pc == Jobs.WritingDuration(id)
      then w.(pull := P.Step(e, w.pull, P.WriteMeta(id))) else w
    case Pull(pull) =>
      if Foreign(w, pull) then w.(pull := P.Step(e, w.pull, pull)) else w
  }

  ghost function Exec(e: P.Env, r: Jobs.Remote, w: World, ls: seq<Label>): World
    requires P.EnvSound(e)
  {
    if ls == [] then w else Step(e, r, Exec(e, r, w, ls[..|ls| - 1]), ls[|ls| - 1])
  }

  function Start(kind: Jobs.Kind, name: string, fetch: bool): World
  {
    World(Jobs.Accepted(kind, name, fetch), P.START)
  }

  /** Metadata is written while its blob is there, whoever writes it. */
  ghost predicate TimelyStep(w: World, l: Label)
  {
    (l.Duration? ==> l.id in w.pull.server.blobs) && (l.Pull? ==> P.Timely(w.pull, l.pull))
  }

  ghost predicate Timely(e: P.Env, r: Jobs.Remote, w: World, ls: seq<Label>)
    requires P.EnvSound(e)
  {
    ls != [] ==> Timely(e, r, w, ls[..|ls| - 1]) && TimelyStep(Exec(e, r, w, ls[..|ls| - 1]), ls[|ls| - 1])
  }

  /** `resume` leaves the job alone once it is being finalized. */
  ghost predicate Calm(e: P.Env, r: Jobs.Remote, w: World, ls: seq<Label>)
    requires P.EnvSound(e)
  {
    ls != [] ==>
      && Calm(e, r, w, ls[..|ls| - 1])
      && (ls[|ls| - 1].Job? ==> JobContent.CalmStep(Exec(e, r, w, ls[..|ls| - 1]).job, ls[|ls| - 1].job))
  }

  // ----- the link -----

  /** The job's blobs and rows are the server's, as published. */
  ghost predicate Linked(s: Jobs.Shelf, w: P.World)
  {
    && (forall id <- s.placed :: id in w.published && w.published[id] == s.placed[id])
    && s.listed <= w.rowed
    && s.wiped <= w.webGone
  }

  ghost predicate Inv(e: P.Env, w: World)
  {
    P.Inv(e, w.pull) && JobProofs.Inv(w.job) && Linked(w.job.shelf, w.pull)
  }

  /** Published files are never forgotten. */
  lemma PullGrows(e: P.Env, w: P.World, l: P.Label)
    requires P.EnvSound(e)
    ensures var v := P.Step(e, w, l);
            && w.rowed <= v.rowed && w.webGone <= v.webGone
            && (forall id <- w.published :: id in v.published && v.published[id] == w.published[id])
  {
  }

  predicate SameFiles(s: Jobs.Shelf, v: Jobs.Shelf)
  {
    v.placed == s.placed && v.listed == s.listed && v.wiped == s.wiped
  }

  lemma FinalizeShelf(r: Jobs.Remote, w: Jobs.World, t: nat, event: Jobs.Event)
    requires t in w.mem.tasks
    ensures SameFiles(w.shelf, Jobs.FinalizeTurn(r, w, t, event).shelf)
  {
  }

  lemma HttpShelf(r: Jobs.Remote, w: Jobs.World, t: nat, event: Jobs.Event)
    requires t in w.mem.tasks
    ensures SameFiles(w.shelf, Jobs.HttpTurn(r, w, t, event).shelf)
  {
  }

  lemma TurnShelf(r: Jobs.Remote, w: Jobs.World, t: nat, event: Jobs.Event)
    requires t in w.mem.tasks
    ensures SameFiles(w.shelf, Jobs.HttpTurn(r, w, t, event).shelf)
    ensures SameFiles(w.shelf, Jobs.TorrentTurn(w, t, event).shelf)
    ensures SameFiles(w.shelf, Jobs.FinalizeTurn(r, w, t, event).shelf)
  {
    HttpShelf(r, w, t, event);
    FinalizeShelf(r, w, t, event);
  }

  lemma RestoreShelf(w: Jobs.World, how: Jobs.Reattach)
    ensures Jobs.RestoreHttp(w).shelf == w.shelf && Jobs.RestoreTorrent(w, how).shelf == w.shelf
  {
  }

  lemma RestartShelf(r: Jobs.Remote, w: Jobs.World, how: Jobs.Reattach)
    ensures SameFiles(w.shelf, Jobs.Restart(r, w, how).shelf)
  {
    if Jobs.Loaded(r, w).Some? {
      RestoreShelf(Jobs.Reloaded(w, Jobs.Loaded(r, w).value), how);
    }
  }

  lemma CrashShelf(r: Jobs.Remote, w: Jobs.World, l: Jobs.Label)
    requires l.IsCrash()
    ensures SameFiles(w.shelf, Jobs.Step(r, w, l).shelf)
  {
    JobProofs.StepIsCrash(r, w, l);
    match l
    case Crash(keep, how) => RestartShelf(r, Jobs.LoseBuffer(w, keep), how);
    case CrashInAnswer(t, partial, writes, how) =>
      if Jobs.Step(r, w, l) != w {
        RestartShelf(r, Jobs.AnswerWrites(r, w, w.mem.tasks[t].pc.dest, w.mem.tasks[t].pc.existing, partial, writes), how);
      }
    case CrashInAcquire(t, how) => RestartShelf(r, Jobs.Persist(Jobs.SetStatus(w, Jobs.Encrypting)), how);
    case CrashInComplete(t, how) => RestartShelf(r, w.(json := Bytes.None, clash := Jobs.NO_CLASH), how);
    case CrashInCancel(removed, jsonToo, how) =>
      RestartShelf(r, Jobs.PartlyCancelled(w, removed, jsonToo), how);
  }

  lemma GoShelf(r: Jobs.Remote, w: Jobs.World, t: nat, event: Jobs.Event)
    ensures SameFiles(w.shelf, Jobs.GoStep(r, w, t, event).shelf)
  {
    if t in w.mem.tasks {
      TurnShelf(r, w, t, event);
    }
  }

  lemma RequestShelf(r: Jobs.Remote, w: Jobs.World, l: Jobs.Label)
    requires !l.IsCrash() && !l.Go? && !IsThread(l)
    ensures var s := Jobs.Step(r, w, l).shelf;
            && s.placed == w.shelf.placed && s.listed == w.shelf.listed
            && (s.wiped == w.shelf.wiped || (w.job.fileId.Some? && s.wiped == w.shelf.wiped + {w.job.fileId.value}))
  {
  }

  /** A job writes blobs and rows through its threads only, and removes blobs through cancel only. */
  lemma JobShelf(r: Jobs.Remote, w: Jobs.World, l: Jobs.Label)
    requires !IsThread(l)
    ensures var s := Jobs.Step(r, w, l).shelf;
            && s.placed == w.shelf.placed && s.listed == w.shelf.listed
            && (s.wiped == w.shelf.wiped || (w.job.fileId.Some? && s.wiped == w.shelf.wiped + {w.job.fileId.value}))
  {
    if l.IsCrash() {
      CrashShelf(r, w, l);
    } else if l.Go? {
      GoShelf(r, w, l.t, l.event);
    } else {
      RequestShelf(r, w, l);
    }
  }

  lemma JobStepLinked(e: P.Env, r: Jobs.Remote, w: World, l: Jobs.Label)
    requires P.EnvSound(e) && !IsThread(l) && Linked(w.job.shelf, w.pull)
    requires w.job.job.fileId.Some? ==> w.job.job.fileId.value in w.job.shelf.placed
    ensures var v := Step(e, r, w, Job(l)); Linked(v.job.shelf, v.pull)
  {
    JobShelf(r, w.job, l);
    if w.job.job.fileId.Some? {
      PullGrows(e, w.pull, P.WebDelete(w.job.job.fileId.value));
    }
  }

  lemma JobStepInv(e: P.Env, r: Jobs.Remote, w: World, l: Jobs.Label)
    requires P.EnvSound(e) && Inv(e, w) && !IsThread(l)
    ensures Inv(e, Step(e, r, w, Job(l)))
  {
    JobProofs.StepInv(r, w.job, l);
    JobStepLinked(e, r, w, l);
    if w.job.job.fileId.Some? {
      P.StepKeeps(e, w.pull, P.WebDelete(w.job.job.fileId.value));
    }
  }

  lemma PlaceLinked(e: P.Env, s: Jobs.Shelf, w: P.World, place: P.Label)
    requires P.EnvSound(e) && Linked(s, w) && place.Place? && P.CanPlace(w, place)
    requires place.id in s.uploads && s.uploads[place.id] == Jobs.Upload(place.item, Jobs.Sealing)
    ensures Linked(Jobs.Append(s, place.id, true), P.Step(e, w, place))
  {
  }

  lemma AddRowLinked(e: P.Env, s: Jobs.Shelf, w: P.World, row: P.Label)
    requires P.EnvSound(e) && Linked(s, w) && row.AddRow? && P.CanAddRow(w, row)
    requires row.id in s.uploads && s.uploads[row.id].stage == Jobs.BlobPlaced
    ensures Linked(Jobs.Append(s, row.id, true), P.Step(e, w, row))
  {
  }

  lemma WritePull(e: P.Env, r: Jobs.Remote, w: World, l: Label)
    requires P.EnvSound(e) && P.Inv(e, w.pull) && (l.Publish? || l.List?)
    ensures P.Inv(e, Step(e, r, w, l).pull)
  {
    if l.Publish? && Uploading(w, l.id, Jobs.Sealing) {
      P.StepKeeps(e, w.pull, P.Place(l.id, w.job.shelf.uploads[l.id].item, l.key, l.base, l.seed));
    } else if l.List? {
      P.StepKeeps(e, w.pull, P.AddRow(l.id, l.key, l.base, l.seed));
    }
  }

  lemma WriteIsThread(e: P.Env, r: Jobs.Remote, w: World, l: Label)
    requires P.EnvSound(e) && (l.Publish? || l.List?)
    ensures Step(e, r, w, l).job in {w.job, Jobs.ThreadStep(w.job, l.id, true)}
  {
    assert Jobs.Step(r, w.job, Jobs.Thread(l.id, true)) == Jobs.ThreadStep(w.job, l.id, true);
  }

  lemma WriteJob(e: P.Env, r: Jobs.Remote, w: World, l: Label)
    requires P.EnvSound(e) && JobProofs.Inv(w.job) && (l.Publish? || l.List?)
    ensures JobProofs.Inv(Step(e, r, w, l).job)
  {
    WriteIsThread(e, r, w, l);
    JobProofs.ThreadInv(w.job, l.id, true);
  }

  lemma WriteLinked(e: P.Env, r: Jobs.Remote, w: World, l: Label)
    requires P.EnvSound(e) && Linked(w.job.shelf, w.pull) && (l.Publish? || l.List?)
    ensures var v := Step(e, r, w, l); Linked(v.job.shelf, v.pull)
  {
    WriteIsThread(e, r, w, l);
    PullIsLabel(e, r, w, l);
    if Step(e, r, w, l) != w {
      if l.Publish? {
        PlaceLinked(e, w.job.shelf, w.pull, P.Place(l.id, w.job.shelf.uploads[l.id].item, l.key, l.base, l.seed));
      } else {
        AddRowLinked(e, w.job.shelf, w.pull, P.AddRow(l.id, l.key, l.base, l.seed));
      }
    }
  }

  lemma WriteInv(e: P.Env, r: Jobs.Remote, w: World, l: Label)
    requires P.EnvSound(e) && Inv(e, w) && (l.Publish? || l.List?)
    ensures Inv(e, Step(e, r, w, l))
  {
    WritePull(e, r, w, l);
    WriteJob(e, r, w, l);
    WriteLinked(e, r, w, l);
  }

  lemma StepInv(e: P.Env, r: Jobs.Remote, w: World, l: Label)
    requires P.EnvSound(e) && Inv(e, w) && TimelyStep(w, l)
    ensures Inv(e, Step(e, r, w, l))
  {
    match l
    case Job(job) => if !IsThread(job) { JobStepInv(e, r, w, job); }
    case Publish(_, _, _, _) => WriteInv(e, r, w, l);
    case List(_, _, _, _) => WriteInv(e, r, w, l);
    case Duration(id) => PullInv(e, w, P.WriteMeta(id));
    case Pull(pull) => PullInv(e, w, pull);
  }

  lemma PullInv(e: P.Env, w: World, l: P.Label)
    requires P.EnvSound(e) && Inv(e, w) && P.Timely(w.pull, l)
    ensures Inv(e, w.(pull := P.Step(e, w.pull, l)))
  {
    P.StepKeeps(e, w.pull, l);
    PullGrows(e, w.pull, l);
  }

  lemma {:induction false} RunInv(e: P.Env, r: Jobs.Remote, kind: Jobs.Kind, name: string, fetch: bool, ls: seq<Label>)
    requires P.EnvSound(e) && Timely(e, r, Start(kind, name, fetch), ls)
    ensures Inv(e, Exec(e, r, Start(kind, name, fetch), ls))
  {
    var w := Start(kind, name, fetch);
    if ls == [] {
      JobProofs.AcceptedInv(kind, name, fetch);
      P.RunKeeps(e, []);
    } else {
      RunInv(e, r, kind, name, fetch, ls[..|ls| - 1]);
      StepInv(e, r, Exec(e, r, w, ls[..|ls| - 1]), ls[|ls| - 1]);
    }
  }

  lemma StepLasting(e: P.Env, r: Jobs.Remote, w: World, l: Label)
    requires P.EnvSound(e) && JobProofs.Inv(w.job) && JobDurability.Lasting(r, w.job)
    ensures JobDurability.Lasting(r, Step(e, r, w, l).job)
  {
    match l
    case Job(job) => JobDurability.StepLasting(r, w.job, job);
    case Publish(id, _, _, _) => JobDurability.StepLasting(r, w.job, Jobs.Thread(id, true));
    case List(id, _, _, _) => JobDurability.StepLasting(r, w.job, Jobs.Thread(id, true));
    case _ =>
  }

  lemma {:induction false} RunLasting(e: P.Env, r: Jobs.Remote, kind: Jobs.Kind, name: string, fetch: bool, ls: seq<Label>)
    requires P.EnvSound(e) && Timely(e, r, Start(kind, name, fetch), ls) && (kind == Jobs.Http ==> Jobs.Usable(r, name))
    ensures JobDurability.Lasting(r, Exec(e, r, Start(kind, name, fetch), ls).job)
  {
    var w := Start(kind, name, fetch);
    if ls == [] {
      JobDurability.RunLasting(r, kind, name, fetch, []);
    } else {
      RunInv(e, r, kind, name, fetch, ls[..|ls| - 1]);
      RunLasting(e, r, kind, name, fetch, ls[..|ls| - 1]);
      StepLasting(e, r, Exec(e, r, w, ls[..|ls| - 1]), ls[|ls| - 1]);
    }
  }

  lemma StepWhole(e: P.Env, r: Jobs.Remote, name: string, w: World, l: Label)
    requires P.EnvSound(e) && JobProofs.Inv(w.job) && JobDurability.Lasting(r, w.job) && JobContent.Whole(r, name, w.job)
    requires l.Job? ==> JobContent.CalmStep(w.job, l.job)
    ensures JobContent.Whole(r, name, Step(e, r, w, l).job)
  {
    match l
    case Job(job) => JobContent.StepWhole(r, name, w.job, job);
    case Publish(id, _, _, _) => JobContent.StepWhole(r, name, w.job, Jobs.Thread(id, true));
    case List(id, _, _, _) => JobContent.StepWhole(r, name, w.job, Jobs.Thread(id, true));
    case _ =>
  }

  lemma {:induction false} RunWhole(e: P.Env, r: Jobs.Remote, name: string, ls: seq<Label>)
    requires P.EnvSound(e) && Jobs.Usable(r, name)
    requires Timely(e, r, Start(Jobs.Http, name, false), ls) && Calm(e, r, Start(Jobs.Http, name, false), ls)
    ensures JobContent.Whole(r, name, Exec(e, r, Start(Jobs.Http, name, false), ls).job)
  {
    var w := Start(Jobs.Http, name, false);
    if ls == [] {
      JobContent.AcceptedWhole(r, name);
    } else {
      RunInv(e, r, Jobs.Http, name, false, ls[..|ls| - 1]);
      RunLasting(e, r, Jobs.Http, name, false, ls[..|ls| - 1]);
      RunWhole(e, r, name, ls[..|ls| - 1]);
      StepWhole(e, r, name, Exec(e, r, w, ls[..|ls| - 1]), ls[|ls| - 1]);
    }
  }

  // ----- the completed directory -----

  /** The step of the protocol that is part of a step, if there is one. */
  ghost function PullLabel(r: Jobs.Remote, w: World, l: Label): Option<P.Label>
  {
    match l
    case Job(job) =>
      if !IsThread(job) && Jobs.Step(r, w.job, job).shelf.wiped != w.job.shelf.wiped && w.job.job.fileId.Some?
      then Some(P.WebDelete(w.job.job.fileId.value)) else None
    case Publish(id, key, base, seed) =>
      if Uploading(w, id, Jobs.Sealing) && P.CanPlace(w.pull, P.Place(id, w.job.shelf.uploads[id].item, key, base, seed))
      then Some(P.Place(id, w.job.shelf.uploads[id].item, key, base, seed)) else None
    case List(id, key, base, seed) =>
      if Uploading(w, id, Jobs.BlobPlaced) && P.CanAddRow(w.pull, P.AddRow(id, key, base, seed))
      then Some(P.AddRow(id, key, base, seed)) else None
    case Duration(id) =>
      if exists t <- w.job.mem.tasks :: w.job.mem.tasks[t].pc == Jobs.WritingDuration(id) then Some(P.WriteMeta(id)) else None
    case Pull(pull) => if Foreign(w, pull) then Some(pull) else None
  }

  lemma PullIsLabel(e: P.Env, r: Jobs.Remote, w: World, l: Label)
    requires P.EnvSound(e)
    ensures var p := PullLabel(r, w, l);
            Step(e, r, w, l).pull == if p.Some? then P.Step(e, w.pull, p.value) else w.pull
    ensures TimelyStep(w, l) && PullLabel(r, w, l).Some? ==> P.Timely(w.pull, PullLabel(r, w, l).value)
  {
  }

  /** What the store does to the directory in a step. */
  ghost function DiskStep(e: P.Env, r: Jobs.Remote, w: World, d: Store.Disk, l: Label): Store.Disk
    requires P.EnvSound(e)
  {
    match PullLabel(r, w, l)
    case Some(p) => PullRuns.DiskStep(e, w.pull, d, p)
    case None => d
  }

  ghost function DiskExec(e: P.Env, r: Jobs.Remote, w: World, d: Store.Disk, ls: seq<Label>): Store.Disk
    requires P.EnvSound(e)
  {
    if ls == [] then d
    else
      var before := ls[..|ls| - 1];
      DiskStep(e, r, Exec(e, r, w, before), DiskExec(e, r, w, d, before), ls[|ls| - 1])
  }

  lemma LabelShows(e: P.Env, pull: P.World, d: Store.Disk, p: Option<P.Label>, after: P.World, disk: Store.Disk)
    requires P.EnvSound(e) && P.Inv(e, pull) && ServerView.Shows(d, pull.server)
    requires p.Some? ==> P.Timely(pull, p.value)
    requires after == if p.Some? then P.Step(e, pull, p.value) else pull
    requires disk == if p.Some? then PullRuns.DiskStep(e, pull, d, p.value) else d
    ensures ServerView.Shows(disk, after.server)
  {
    if p.Some? {
      PullRuns.DiskSimulates(e, pull, d, p.value);
    }
  }

  lemma DiskStepShows(e: P.Env, r: Jobs.Remote, w: World, d: Store.Disk, l: Label)
    requires P.EnvSound(e) && P.Inv(e, w.pull) && TimelyStep(w, l) && ServerView.Shows(d, w.pull.server)
    ensures ServerView.Shows(DiskStep(e, r, w, d, l), Step(e, r, w, l).pull.server)
  {
    PullIsLabel(e, r, w, l);
    LabelShows(e, w.pull, d, PullLabel(r, w, l), Step(e, r, w, l).pull, DiskStep(e, r, w, d, l));
  }

  lemma {:induction false} DiskRunShows(e: P.Env, r: Jobs.Remote, kind: Jobs.Kind, name: string, fetch: bool, ls: seq<Label>)
    requires P.EnvSound(e) && Timely(e, r, Start(kind, name, fetch), ls)
    ensures ServerView.Shows(DiskExec(e, r, Start(kind, name, fetch), PullRuns.NEW_DISK, ls),
                             Exec(e, r, Start(kind, name, fetch), ls).pull.server)
  {
    if ls == [] {
      PullRuns.NewDiskShows();
    } else {
      var before := ls[..|ls| - 1];
      DiskRunShows(e, r, kind, name, fetch, before);
      RunInv(e, r, kind, name, fetch, before);
      DiskStepShows(e, r, Exec(e, r, Start(kind, name, fetch), before),
                    DiskExec(e, r, Start(kind, name, fetch), PullRuns.NEW_DISK, before), ls[|ls| - 1]);
    }
  }

  /** So after any run the manifest text on disk is the protocol's rows, and a DELETE finds what it says. */
  lemma ServedFromDisk(e: P.Env, r: Jobs.Remote, kind: Jobs.Kind, name: string, fetch: bool, ls: seq<Label>)
    requires P.EnvSound(e) && Timely(e, r, Start(kind, name, fetch), ls)
    ensures var d := DiskExec(e, r, Start(kind, name, fetch), PullRuns.NEW_DISK, ls);
            var w := Exec(e, r, Start(kind, name, fetch), ls).pull;
            && Store.ParsedManifest(d) == Parsed.Ok(w.server.rows)
            && (forall id <- w.published :: Store.Exists(d, id) <==> ServerView.Present(w.server, id))
  {
    DiskRunShows(e, r, kind, name, fetch, ls);
    RunInv(e, r, kind, name, fetch, ls);
    PullRuns.ShownDisk(e, Exec(e, r, Start(kind, name, fetch), ls).pull,
                       DiskExec(e, r, Start(kind, name, fetch), PullRuns.NEW_DISK, ls));
  }

  // ----- from the remote server to the client -----

  lemma KeptIntact(e: P.Env, r: Jobs.Remote, name: string, job: Jobs.World, pull: P.World, p: nat, id: string)
    requires P.Inv(e, pull) && Linked(job.shelf, pull) && JobContent.Whole(r, name, job)
    requires id in job.shelf.placed && p in pull.procs && id in pull.procs[p].kept
    ensures pull.procs[p].kept[id] == Item(r.content, P.LocalName(Jobs.FinalName(r, name), id))
    ensures forall q | P.Decided(pull, q, id) :: q == p
  {
    assert P.ProcInv(e, pull, pull.procs[p]);
    assert P.GoodItem(pull, id, pull.procs[p].kept[id]);
    assert P.Decided(pull, p, id);
  }

  /**
    Whatever a client keeps of a file of this job is the remote content, byte for byte, under the name
    recorded at finalization, and no other client has it: downloaded with any pauses, failures, retries
    and restarts, encrypted, published, listed, parsed, fetched and decrypted, with any number of clients.
   */
  lemma DeliveredIntact(e: P.Env, r: Jobs.Remote, name: string, ls: seq<Label>, p: nat, id: string)
    requires P.EnvSound(e) && Jobs.Usable(r, name)
    requires Timely(e, r, Start(Jobs.Http, name, false), ls) && Calm(e, r, Start(Jobs.Http, name, false), ls)
    requires var w := Exec(e, r, Start(Jobs.Http, name, false), ls);
             id in w.job.shelf.placed && p in w.pull.procs && id in w.pull.procs[p].kept
    ensures var pull := Exec(e, r, Start(Jobs.Http, name, false), ls).pull;
            && pull.procs[p].kept[id] == Item(r.content, P.LocalName(Jobs.FinalName(r, name), id))
            && (forall q | P.Decided(pull, q, id) :: q == p)
  {
    var w := Exec(e, r, Start(Jobs.Http, name, false), ls);
    RunInv(e, r, Jobs.Http, name, false, ls);
    RunWhole(e, r, name, ls);
    KeptIntact(e, r, name, w.job, w.pull, p, id);
  }

  /** Every manifest row of this job decrypts to its id and the name recorded at finalization. */
  lemma RowsCarryName(e: P.Env, r: Jobs.Remote, name: string, ls: seq<Label>, row: Row)
    requires P.EnvSound(e) && Jobs.Usable(r, name)
    requires Timely(e, r, Start(Jobs.Http, name, false), ls) && Calm(e, r, Start(Jobs.Http, name, false), ls)
    requires var w := Exec(e, r, Start(Jobs.Http, name, false), ls);
             row in w.pull.server.rows && row.id in w.job.shelf.placed
    ensures DecryptLine(e.suite, e.text, row.b64) == Parsed.Ok(Payload(row.id, Jobs.FinalName(r, name)))
  {
    var w := Exec(e, r, Start(Jobs.Http, name, false), ls);
    RunInv(e, r, Jobs.Http, name, false, ls);
    RunWhole(e, r, name, ls);
    assert P.GoodRow(e, w.pull, row);
  }

  /** The file is on the server and nobody's, or exactly one client's, or was removed from the web. */
  ghost predicate Accounted(w: P.World, id: string)
  {
    || id in w.webGone
    || (id in w.server.blobs && forall p :: !P.Decided(w, p, id))
    || (id !in w.server.blobs && (exists p :: P.Decided(w, p, id))
        && forall p, q :: P.Decided(w, p, id) && P.Decided(w, q, id) ==> p == q)
  }

  /**
    No job is lost on the way, of either kind: at every step of every run, unless it was cancelled, its
    record is on disk, or a file of it is on the server, or exactly one client has it, or it was removed
    from the web interface.
   */
  lemma NeverLost(e: P.Env, r: Jobs.Remote, kind: Jobs.Kind, name: string, fetch: bool, ls: seq<Label>)
    requires P.EnvSound(e) && Timely(e, r, Start(kind, name, fetch), ls) && (kind == Jobs.Http ==> Jobs.Usable(r, name))
    ensures var w := Exec(e, r, Start(kind, name, fetch), ls);
            || w.job.gone || w.job.json.Some?
            || (exists id <- w.job.shelf.listed :: Accounted(w.pull, id))
  {
    var w := Exec(e, r, Start(kind, name, fetch), ls);
    RunInv(e, r, kind, name, fetch, ls);
    RunLasting(e, r, kind, name, fetch, ls);
    if !w.job.gone && w.job.json == None {
      var id :| id in w.job.shelf.listed;
      assert id in w.pull.rowed;
      Whereabouts(e, w.pull, id);
    }
  }

  lemma Whereabouts(e: P.Env, w: P.World, id: string)
    requires P.Inv(e, w) && id in w.rowed
    ensures Accounted(w, id)
  {
    forall p | P.Decided(w, p, id)
      ensures id !in w.server.blobs
    {
      assert P.ProcInv(e, w, w.procs[p]);
    }
    if id !in w.server.blobs && id !in w.webGone {
      assert id in w.rowed - w.webGone;
    }
  }
}
