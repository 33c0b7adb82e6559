/** A whole delivery happens: for any remote file there is a run at whose end a client keeps it. */
module Delivery {
  import opened Bytes
  import opened Manifest
  import Codec
  import Store
  import Jobs
  import JobProofs
  import JobContent
  import JobRefutation
  import JobResults
  import P = PullProtocol
  import opened EndToEnd

  ghost predicate Reaches(e: P.Env, r: Jobs.Remote, w: World, v: World)
    requires P.EnvSound(e)
  {
    exists ls: seq<Label> :: Timely(e, r, w, ls) && Calm(e, r, w, ls) && Exec(e, r, w, ls) == v
  }

  lemma Then(e: P.Env, r: Jobs.Remote, w: World, v: World, l: Label)
    requires P.EnvSound(e) && Reaches(e, r, w, v) && TimelyStep(v, l)
    requires l.Job? ==> !l.job.Resume?
    ensures Reaches(e, r, w, Step(e, r, v, l))
  {
    var ls: seq<Label> :| Timely(e, r, w, ls) && Calm(e, r, w, ls) && Exec(e, r, w, ls) == v;
    var more := ls + [l];
    assert more[..|more| - 1] == ls && more[|more| - 1] == l;
    assert Timely(e, r, w, more) && Calm(e, r, w, more) && Exec(e, r, w, more) == Step(e, r, v, l);
  }

  lemma JobAlone(e: P.Env, r: Jobs.Remote, v: World, t: nat, event: Jobs.Event)
    requires P.EnvSound(e) && v.job.job.fileId == None
    ensures Step(e, r, v, Job(Jobs.Go(t, event))) == World(Jobs.GoStep(r, v.job, t, event), v.pull)
  {
    assert Jobs.Step(r, v.job, Jobs.Go(t, event)) == Jobs.GoStep(r, v.job, t, event);
  }

  /** Steps of the job that leave the server alone. */
  lemma ThenJob(e: P.Env, r: Jobs.Remote, w: World, v: World, t: nat, event: Jobs.Event)
    requires P.EnvSound(e) && Reaches(e, r, w, v) && v.job.job.fileId == None
    ensures Reaches(e, r, w, World(Jobs.GoStep(r, v.job, t, event), v.pull))
  {
    JobAlone(e, r, v, t, event);
    Then(e, r, w, v, Job(Jobs.Go(t, event)));
  }

  lemma ThenPull(e: P.Env, r: Jobs.Remote, w: World, v: World, l: P.Label)
    requires P.EnvSound(e) && Reaches(e, r, w, v) && !l.Place? && !l.AddRow? && !l.WriteMeta?
    ensures Reaches(e, r, w, World(v.job, P.Step(e, v.pull, l)))
  {
    Then(e, r, w, v, Pull(l));
  }

  const PAIRED := P.START.(paired := "client", procs := map[0 := P.Proc("client", P.Idle([]), map[])])

  lemma Paired(e: P.Env, r: Jobs.Remote, w: World)
    requires P.EnvSound(e) && w.pull == P.START
    ensures Reaches(e, r, w, World(w.job, PAIRED))
  {
    assert Timely(e, r, w, []) && Calm(e, r, w, []) && Exec(e, r, w, []) == w;
    var join, pair := P.Join(0, "client"), P.Pair(0, false);
    ThenPull(e, r, w, w, join);
    var p1 := P.Step(e, P.START, join);
    assert p1 == P.START.(procs := map[0 := P.Proc("client", P.Idle([]), map[])]);
    ThenPull(e, r, w, World(w.job, p1), pair);
    assert P.Step(e, p1, pair) == PAIRED;
  }

  /** The whole file is downloaded and its encryption thread runs. */
  predicate Uploads(v: Jobs.World, item: Item, id: string)
  {
    v.shelf.uploads == map[id := Jobs.Upload(item, Jobs.Sealing)] && v.shelf.placed == map[]
  }

  function EventAt(r: Jobs.Remote, id: string, k: nat): Jobs.Event
  {
    if k == 0 then Jobs.Tick else if k == 1 then Jobs.Answer(false) else if k == 2 then Jobs.Chunk(|r.content|)
    else if k == 3 then Jobs.Chunk(0) else Jobs.Proceed(id)
  }

  /** The first turns of an undisturbed download; five of them reach the encryption thread. */
  function Turn(r: Jobs.Remote, w: Jobs.World, id: string, k: nat): Jobs.World
  {
    if k == 0 then w else Jobs.GoStep(r, Turn(r, w, id, k - 1), 0, EventAt(r, id, k - 1))
  }

  lemma KeepsNoId(r: Jobs.Remote, w: Jobs.World, t: nat, event: Jobs.Event)
    requires w.job.fileId == None && (t in w.mem.tasks ==> !w.mem.tasks[t].pc.WritingDuration?)
    ensures Jobs.GoStep(r, w, t, event).job.fileId == None
  {
    if t in w.mem.tasks {
      SectionKeepsNoId(r, w, t, event);
    }
  }

  lemma SectionKeepsNoId(r: Jobs.Remote, w: Jobs.World, t: nat, event: Jobs.Event)
    requires w.job.fileId == None && t in w.mem.tasks && !w.mem.tasks[t].pc.WritingDuration?
    ensures Jobs.HttpTurn(r, w, t, event).job.fileId == None && Jobs.TorrentTurn(w, t, event).job.fileId == None
    ensures Jobs.FinalizeTurn(r, w, t, event).job.fileId == None
  {
  }

  lemma Opened(r: Jobs.Remote, name: string, id: string)
    requires Jobs.Usable(r, name)
    ensures var w := Jobs.Accepted(Jobs.Http, name, false);
            && Turn(r, w, id, 1).job.fileId == None
            && JobRefutation.Streams(r, Turn(r, w, id, 2), Jobs.FinalName(r, name)) && Turn(r, w, id, 2).job.fileId == None
  {
    var w := Jobs.Accepted(Jobs.Http, name, false);
    JobRefutation.Streamed(r, name);
    KeepsNoId(r, w, 0, Jobs.Tick);
    assert Turn(r, w, id, 0) == w;
    assert Turn(r, w, id, 1) == Jobs.Step(r, w, Jobs.Go(0, Jobs.Tick));
    assert Turn(r, w, id, 1).mem.tasks[0].pc.HttpConnecting?;
    KeepsNoId(r, Turn(r, w, id, 1), 0, Jobs.Answer(false));
    assert Turn(r, w, id, 2) == Jobs.Step(r, Turn(r, w, id, 1), Jobs.Go(0, Jobs.Answer(false)));
  }

  lemma Streamed(r: Jobs.Remote, name: string, id: string)
    requires Jobs.Usable(r, name)
    ensures var w, final := Jobs.Accepted(Jobs.Http, name, false), Jobs.FinalName(r, name);
            var v := Turn(r, w, id, 4);
            && Turn(r, w, id, 3).job.fileId == None && v.job.fileId == None
            && JobRefutation.Drained(v, final) && v.files[final] == r.content
  {
    var w := Jobs.Accepted(Jobs.Http, name, false);
    Opened(r, name, id);
    var v2 := Turn(r, w, id, 2);
    JobRefutation.WholeChunk(r, v2, Jobs.FinalName(r, name));
    var v3 := Jobs.GoStep(r, v2, 0, Jobs.Chunk(|r.content|));
    assert Turn(r, w, id, 3) == v3;
    assert Turn(r, w, id, 4) == Jobs.GoStep(r, v3, 0, Jobs.Chunk(0));
  }

  lemma Finalized(r: Jobs.Remote, v: Jobs.World, path: string, id: string)
    requires JobRefutation.Drained(v, path) && id != Jobs.JOB_STATE
    ensures Uploads(Jobs.GoStep(r, v, 0, Jobs.Proceed(id)), Item(v.files[path], path), id)
  {
    JobRefutation.GoFinalizes(r, v, 0, Jobs.Proceed(id));
  }

  lemma NoIdYet(r: Jobs.Remote, name: string, id: string, k: nat)
    requires Jobs.Usable(r, name) && k <= 4
    ensures Turn(r, Jobs.Accepted(Jobs.Http, name, false), id, k).job.fileId == None
  {
    Opened(r, name, id);
    Streamed(r, name, id);
    assert k in {0, 1, 2, 3, 4};
  }

  lemma {:induction false} DownloadReached(e: P.Env, r: Jobs.Remote, name: string, w: World, pull: P.World, id: string, k: nat)
    requires P.EnvSound(e) && Jobs.Usable(r, name) && w.job == Jobs.Accepted(Jobs.Http, name, false) && k <= 5
    requires Reaches(e, r, w, World(w.job, pull))
    ensures Reaches(e, r, w, World(Turn(r, w.job, id, k), pull))
    decreases k
  {
    if k > 0 {
      var v := Turn(r, w.job, id, k - 1);
      DownloadReached(e, r, name, w, pull, id, k - 1);
      NoIdYet(r, name, id, k - 1);
      NextTurn(e, r, w, v, pull, EventAt(r, id, k - 1), Turn(r, w.job, id, k));
    }
  }

  lemma NextTurn(e: P.Env, r: Jobs.Remote, w: World, v: Jobs.World, pull: P.World, event: Jobs.Event, after: Jobs.World)
    requires P.EnvSound(e) && Reaches(e, r, w, World(v, pull)) && v.job.fileId == None
    requires after == Jobs.GoStep(r, v, 0, event)
    ensures Reaches(e, r, w, World(after, pull))
  {
    ThenJob(e, r, w, World(v, pull), 0, event);
  }

  // ----- publication -----

  /** The server offers the file, and its first client has nothing to do yet. */
  ghost predicate Offered(w: P.World, id: string)
  {
    && w.paired == "client" && |w.server.rows| == 1 && w.server.rows[0].id == id && id in w.server.blobs
    && w.procs == map[0 := P.Proc("client", P.Idle([]), map[])]
  }

  lemma Placed(e: P.Env, item: Item, id: string, key: bytes, base: bytes)
    requires P.EnvSound(e) && Store.IsFileId(id) && |key| == 32 && |base| == 12 && Codec.Encryptable(item.plain)
    ensures var place, row := P.Place(id, item, key, base, []), P.AddRow(id, key, base, []);
            var p1 := P.Step(e, PAIRED, place);
            P.CanPlace(PAIRED, place) && P.CanAddRow(p1, row) && Offered(P.Step(e, p1, row), id)
  {
  }

  /** The thread's two writes are the server's. */
  lemma Writes(e: P.Env, r: Jobs.Remote, v: Jobs.World, pull: P.World, id: string, key: bytes, base: bytes)
    requires P.EnvSound(e) && id in v.shelf.uploads
    ensures v.shelf.uploads[id].stage == Jobs.Sealing
            && P.CanPlace(pull, P.Place(id, v.shelf.uploads[id].item, key, base, [])) ==>
              Step(e, r, World(v, pull), Publish(id, key, base, []))
              == World(Jobs.ThreadStep(v, id, true), P.Step(e, pull, P.Place(id, v.shelf.uploads[id].item, key, base, [])))
    ensures v.shelf.uploads[id].stage == Jobs.BlobPlaced && P.CanAddRow(pull, P.AddRow(id, key, base, [])) ==>
              Step(e, r, World(v, pull), List(id, key, base, []))
              == World(Jobs.ThreadStep(v, id, true), P.Step(e, pull, P.AddRow(id, key, base, [])))
  {
    assert Jobs.Step(r, v, Jobs.Thread(id, true)) == Jobs.ThreadStep(v, id, true);
  }

  lemma Offer(e: P.Env, r: Jobs.Remote, w: World, v: Jobs.World, item: Item, id: string, key: bytes, base: bytes)
    requires P.EnvSound(e) && Reaches(e, r, w, World(v, PAIRED)) && Uploads(v, item, id)
    requires Store.IsFileId(id) && |key| == 32 && |base| == 12 && Codec.Encryptable(item.plain)
    ensures exists u :: Reaches(e, r, w, u) && Offered(u.pull, id) && id in u.job.shelf.placed
  {
    var w0 := World(v, PAIRED);
    Placed(e, item, id, key, base);
    Writes(e, r, v, PAIRED, id, key, base);
    Then(e, r, w, w0, Publish(id, key, base, []));
    var v1, p1 := Jobs.ThreadStep(v, id, true), P.Step(e, PAIRED, P.Place(id, item, key, base, []));
    Writes(e, r, v1, p1, id, key, base);
    Then(e, r, w, World(v1, p1), List(id, key, base, []));
    assert id in Jobs.ThreadStep(v1, id, true).shelf.placed;
  }

  // ----- the client -----

  function ClientLabel(size: nat, k: nat): P.Label
  {
    if k == 0 then P.List(0) else if k == 1 then P.Begin(0) else if k == 2 then P.Receive(0, size, [])
    else if k == 3 then P.Decrypt(0) else if k == 4 then P.Delete(0) else P.Reply(0)
  }

  /** The steps of an undisturbed pull. */
  ghost function Client(e: P.Env, w: P.World, size: nat, k: nat): P.World
    requires P.EnvSound(e)
  {
    if k == 0 then w else P.Step(e, Client(e, w, size, k - 1), ClientLabel(size, k - 1))
  }

  /** What the offered file's row and blob are good for. */
  ghost predicate Good(e: P.Env, w: P.World, id: string)
  {
    && Offered(w, id) && Codec.Decode(e.suite, w.server.blobs[id]).error == None
    && DecryptLine(e.suite, e.text, w.server.rows[0].b64).Ok?
  }

  lemma OfferedIsGood(e: P.Env, w: P.World, id: string)
    requires P.EnvSound(e) && P.Inv(e, w) && Offered(w, id)
    ensures Good(e, w, id)
  {
    assert P.GoodRow(e, w, w.server.rows[0]);
  }

  /** The client alone has moved, to this stage. */
  ghost predicate At(w: P.World, v: P.World, stage: P.Stage)
  {
    v == w.(procs := map[0 := P.Proc("client", stage, map[])])
  }

  lemma Fetches(e: P.Env, w: P.World, id: string)
    requires P.EnvSound(e) && Good(e, w, id)
    ensures exists name :: At(w, Client(e, w, |w.server.blobs[id]|, 2), P.Fetching([], id, name, [], |w.server.blobs[id]|))
  {
    var size := |w.server.blobs[id]|;
    var v1 := P.WithStage(w, 0, P.Idle(w.server.rows));
    assert Client(e, w, size, 1) == P.Step(e, Client(e, w, size, 0), P.List(0)) == v1;
    assert At(w, v1, P.Idle(w.server.rows)) && w.server.rows[1..] == [];
    var st := P.BeginStage(e, v1, v1.procs[0]);
    assert st.Fetching? && st == P.Fetching([], id, st.name, [], size);
    assert Client(e, w, size, 2) == P.WithStage(v1, 0, st);
    assert At(w, P.WithStage(v1, 0, st), st);
  }

  lemma ReceivesAll(e: P.Env, w: P.World, v: P.World, id: string, name: string)
    requires P.EnvSound(e) && Good(e, w, id) && At(w, v, P.Fetching([], id, name, [], |w.server.blobs[id]|))
    ensures var blob := w.server.blobs[id];
            At(w, P.Step(e, v, P.Receive(0, |blob|, [])), P.Fetching([], id, name, blob, |blob|))
  {
    var blob := w.server.blobs[id];
    assert [] + blob[0..|blob|] == blob;
  }

  lemma DecryptsAll(e: P.Env, w: P.World, v: P.World, id: string, name: string)
    requires P.EnvSound(e) && Good(e, w, id) && At(w, v, P.Fetching([], id, name, w.server.blobs[id], |w.server.blobs[id]|))
    ensures At(w, P.Step(e, v, P.Decrypt(0)), P.Decrypted([], id, name, Codec.Decode(e.suite, w.server.blobs[id]).plain))
  {
  }

  lemma DeletesAndKeeps(e: P.Env, w: P.World, v: P.World, id: string, name: string, plain: bytes)
    requires P.EnvSound(e) && Good(e, w, id) && At(w, v, P.Decrypted([], id, name, plain))
    ensures var u := P.Step(e, P.Step(e, v, P.Delete(0)), P.Reply(0)); 0 in u.procs && id in u.procs[0].kept
  {
    var v5 := P.Step(e, v, P.Delete(0));
    assert v5 == P.DeleteStep(v, 0) && v5.procs[0].stage == P.Replied([], id, name, plain, true);
    assert P.Step(e, v5, P.Reply(0)) == P.ReplyStep(v5, 0);
  }

  lemma Keeps(e: P.Env, w: P.World, id: string)
    requires P.EnvSound(e) && Good(e, w, id)
    ensures var v := Client(e, w, |w.server.blobs[id]|, 6); 0 in v.procs && id in v.procs[0].kept
  {
    var blob := w.server.blobs[id];
    Fetches(e, w, id);
    var v2 := Client(e, w, |blob|, 2);
    var name :| At(w, v2, P.Fetching([], id, name, [], |blob|));
    ReceivesAll(e, w, v2, id, name);
    var v3 := P.Step(e, v2, P.Receive(0, |blob|, []));
    DecryptsAll(e, w, v3, id, name);
    var v4 := P.Step(e, v3, P.Decrypt(0));
    DeletesAndKeeps(e, w, v4, id, name, Codec.Decode(e.suite, blob).plain);
    LastSteps(e, w, |blob|);
  }

  lemma LastSteps(e: P.Env, w: P.World, size: nat)
    requires P.EnvSound(e)
    ensures Client(e, w, size, 6)
         == P.Step(e, P.Step(e, P.Step(e, P.Step(e, Client(e, w, size, 2), P.Receive(0, size, [])), P.Decrypt(0)),
                             P.Delete(0)), P.Reply(0))
  {
    assert Client(e, w, size, 3) == P.Step(e, Client(e, w, size, 2), P.Receive(0, size, []));
    assert Client(e, w, size, 4) == P.Step(e, Client(e, w, size, 3), P.Decrypt(0));
    assert Client(e, w, size, 5) == P.Step(e, Client(e, w, size, 4), P.Delete(0));
  }

  lemma {:induction false} PullReached(e: P.Env, r: Jobs.Remote, w: World, job: Jobs.World, pull: P.World,
                                       size: nat, k: nat)
    requires P.EnvSound(e) && Reaches(e, r, w, World(job, pull))
    ensures Reaches(e, r, w, World(job, Client(e, pull, size, k)))
    decreases k
  {
    if k > 0 {
      PullReached(e, r, w, job, pull, size, k - 1);
      NextPull(e, r, w, job, Client(e, pull, size, k - 1), ClientLabel(size, k - 1), Client(e, pull, size, k));
    }
  }

  lemma NextPull(e: P.Env, r: Jobs.Remote, w: World, job: Jobs.World, pull: P.World, l: P.Label, after: P.World)
    requires P.EnvSound(e) && Reaches(e, r, w, World(job, pull)) && !l.Place? && !l.AddRow? && !l.WriteMeta?
    requires after == P.Step(e, pull, l)
    ensures Reaches(e, r, w, World(job, after))
  {
    ThenPull(e, r, w, World(job, pull), l);
  }

  lemma ReachedInv(e: P.Env, r: Jobs.Remote, name: string, v: World)
    requires P.EnvSound(e) && Reaches(e, r, Start(Jobs.Http, name, false), v)
    ensures P.Inv(e, v.pull)
  {
    var w := Start(Jobs.Http, name, false);
    var ls: seq<Label> :| Timely(e, r, w, ls) && Calm(e, r, w, ls) && Exec(e, r, w, ls) == v;
    RunInv(e, r, Jobs.Http, name, false, ls);
  }

  /**
    For every remote file that can be encrypted there is a timely and calm run at whose end a client
    keeps it, so `EndToEnd.DeliveredIntact` speaks of deliveries that happen.
   */
  lemma DeliveryReachable(e: P.Env, r: Jobs.Remote, name: string, id: string, key: bytes, base: bytes)
    requires P.EnvSound(e) && Jobs.Usable(r, name) && Codec.Encryptable(r.content)
    requires Store.IsFileId(id) && |key| == 32 && |base| == 12
    ensures exists v :: Reaches(e, r, Start(Jobs.Http, name, false), v)
                        && id in v.job.shelf.placed && 0 in v.pull.procs && id in v.pull.procs[0].kept
  {
    var w := Start(Jobs.Http, name, false);
    Paired(e, r, w);
    DownloadReached(e, r, name, w, PAIRED, id, 5);
    var job := Turn(r, w.job, id, 5);
    Streamed(r, name, id);
    assert id != Jobs.JOB_STATE by {
      assert |Jobs.JOB_STATE| == 8;
    }
    Finalized(r, Turn(r, w.job, id, 4), Jobs.FinalName(r, name), id);
    Offer(e, r, w, job, Item(r.content, Jobs.FinalName(r, name)), id, key, base);
    var u :| Reaches(e, r, w, u) && Offered(u.pull, id) && id in u.job.shelf.placed;
    ReachedInv(e, r, name, u);
    OfferedIsGood(e, u.pull, id);
    Keeps(e, u.pull, id);
    PullReached(e, r, w, u.job, u.pull, |u.pull.server.blobs[id]|, 6);
  }
}
