/**
  Any number of pull processes against one server. A step is what runs without interruption: one
  request handler of the server, one disk write of the publisher, one piece of a download, one local
  action of a process. Processes may share a client id; DELETE decides who keeps a file. A removal
  from the web interface counts as one step, although a worker thread does it: the assumption is
  that it overlaps no other write of the manifest (see `PullRuns.OverlapCommitsTwice`).
 */
module PullProtocol {
  import opened Bytes
  import opened Crypto
  import opened Manifest
  import opened Store
  import opened StoreProofs
  import opened ServerView
  import Codec
  import CodecProofs

  /** The ciphers and text codecs in use. */
  datatype Env = Env(suite: Suite, text: TextCodec)

  ghost predicate EnvSound(e: Env)
  {
    Sound(e.suite) && TextSound(e.text)
  }

  datatype Stage =
    | Idle(queue: seq<Row>)
    | Fetching(queue: seq<Row>, id: string, name: string, got: bytes, size: nat)
    | Decrypted(queue: seq<Row>, id: string, name: string, plain: bytes)
    | Replied(queue: seq<Row>, id: string, name: string, plain: bytes, ok: bool)

  datatype Proc = Proc(clientId: string, stage: Stage, kept: map<string, Item>)

  /**
    `published` and `rowed` remember every id whose blob, respectively row, was ever written, and
    `webGone` the ids removed from the web interface.
   */
  datatype World = World(server: Server, paired: string, procs: map<nat, Proc>,
                         published: map<string, Item>, rowed: set<string>, webGone: set<string>)

  const START := World(Server(map[], [], {}), "", map[], map[], {}, {})

  datatype Label =
    | Place(id: string, item: Item, key: bytes, base: bytes, seed: bytes)
    | AddRow(id: string, key: bytes, base: bytes, seed: bytes)
    | WriteMeta(id: string)
    | WebDelete(id: string)
    | Join(p: nat, clientId: string)
    | Pair(p: nat, override: bool)
    | List(p: nat)
    | Begin(p: nat)
    | Receive(p: nat, n: nat, noise: bytes)
    | Decrypt(p: nat)
    | Abort(p: nat)
    | Delete(p: nat)
    | Reply(p: nat)

  /** The name a process saves under: the payload's, or the id when that is empty. */
  function LocalName(name: string, id: string): string
  {
    if name == "" then id else name
  }

  ghost predicate CanPlace(w: World, l: Label)
    requires l.Place?
  {
    IsFileId(l.id) && l.id !in w.published && |l.key| == 32 && |l.base| == 12 && Codec.Encryptable(l.item.plain)
  }

  ghost predicate CanAddRow(w: World, l: Label)
    requires l.AddRow?
  {
    l.id in w.published && l.id !in w.rowed && |l.key| == 32 && |l.base| == 12
  }

  /** The next row of the queue: its line is decrypted, then the download is requested. */
  function BeginStage(e: Env, w: World, c: Proc): Stage
    requires c.stage.Idle? && c.stage.queue != []
  {
    var row, rest := c.stage.queue[0], c.stage.queue[1..];
    match DecryptLine(e.suite, e.text, row.b64)
    case Err(_) => Idle(rest)
    case Ok(payload) =>
      if c.clientId != w.paired || row.id !in w.server.blobs then Idle(rest)
      else Fetching(rest, row.id, LocalName(payload.name, row.id), [], |w.server.blobs[row.id]|)
  }

  /** A piece of the body: from the blob while it is there, anything at all once it was deleted. */
  function Arrived(w: World, st: Stage, n: nat, noise: bytes): bytes
    requires st.Fetching?
  {
    var m := if |st.got| >= st.size then 0 else if |st.got| + n <= st.size then n else st.size - |st.got|;
    if st.id in w.server.blobs && |w.server.blobs[st.id]| == st.size then
      if |st.got| <= st.size then st.got + w.server.blobs[st.id][|st.got|..|st.got| + m] else st.got
    else if m <= |noise| then st.got + noise[..m] else st.got
  }

  function DecryptStage(e: Env, st: Stage): Stage
    requires st.Fetching?
  {
    if |st.got| < st.size then st
    else
      var d := Codec.Decode(e.suite, st.got);
      if d.error == None then Decrypted(st.queue, st.id, st.name, d.plain) else Idle(st.queue)
  }

  function WithStage(w: World, p: nat, st: Stage): World
    requires p in w.procs
  {
    w.(procs := w.procs[p := w.procs[p].(stage := st)])
  }

  /** The DELETE handler: refused unless paired, not found unless something of the id is left. */
  function DeleteStep(w: World, p: nat): World
    requires p in w.procs && w.procs[p].stage.Decrypted?
  {
    var c := w.procs[p];
    var st := c.stage;
    if c.clientId == w.paired && Present(w.server, st.id)
    then WithStage(w, p, Replied(st.queue, st.id, st.name, st.plain, true)).(server := Removed(w.server, st.id))
    else WithStage(w, p, Replied(st.queue, st.id, st.name, st.plain, false))
  }

  /** The reply reaches the process: it keeps the plaintext if the DELETE succeeded, else drops it. */
  function ReplyStep(w: World, p: nat): World
    requires p in w.procs && w.procs[p].stage.Replied?
  {
    var c := w.procs[p];
    var st := c.stage;
    var kept := if st.ok then c.kept[st.id := Item(st.plain, st.name)] else c.kept;
    w.(procs := w.procs[p := Proc(c.clientId, Idle(st.queue), kept)])
  }

  /** One step; a label that does not apply changes nothing. */
  ghost function Step(e: Env, w: World, l: Label): World
    requires EnvSound(e)
  {
    match l
    case Place(id, item, key, base, seed) =>
      if CanPlace(w, l)
      then w.(server := Placed(w.server, id, Codec.FileBlob(e.suite, key, base, seed, item.plain)),
              published := w.published[id := item])
      else w
    case AddRow(id, key, base, seed) =>
      if CanAddRow(w, l)
      then w.(server := WithRow(w.server, Row(id, EncryptPayload(e.suite, e.text, Payload(id, w.published[id].name), key, base, seed))),
              rowed := w.rowed + {id})
      else w
    case WriteMeta(id) =>
      if id in w.rowed then w.(server := WithMeta(w.server, id)) else w
    case WebDelete(id) =>
      if id in w.published then w.(server := Removed(w.server, id), webGone := w.webGone + {id}) else w
    case Join(p, clientId) =>
      if p !in w.procs && clientId != "" then w.(procs := w.procs[p := Proc(clientId, Idle([]), map[])]) else w
    case Pair(p, override) =>
      if p in w.procs && (w.paired == "" || w.paired == w.procs[p].clientId || override)
      then w.(paired := w.procs[p].clientId) else w
    case List(p) =>
      if p in w.procs && w.procs[p].stage.Idle? && w.procs[p].clientId == w.paired
      then WithStage(w, p, Idle(w.server.rows)) else w
    case Begin(p) =>
      if p in w.procs && w.procs[p].stage.Idle? && w.procs[p].stage.queue != []
      then WithStage(w, p, BeginStage(e, w, w.procs[p])) else w
    case Receive(p, n, noise) =>
      if p in w.procs && w.procs[p].stage.Fetching?
      then WithStage(w, p, w.procs[p].stage.(got := Arrived(w, w.procs[p].stage, n, noise))) else w
    case Decrypt(p) =>
      if p in w.procs && w.procs[p].stage.Fetching?
      then WithStage(w, p, DecryptStage(e, w.procs[p].stage)) else w
    case Abort(p) =>
      if p in w.procs && (w.procs[p].stage.Fetching? || w.procs[p].stage.Decrypted?)
      then WithStage(w, p, Idle(w.procs[p].stage.queue)) else w
    case Delete(p) =>
      if p in w.procs && w.procs[p].stage.Decrypted? then DeleteStep(w, p) else w
    case Reply(p) =>
      if p in w.procs && w.procs[p].stage.Replied? then ReplyStep(w, p) else w
  }

  ghost function Exec(e: Env, w: World, ls: seq<Label>): World
    requires EnvSound(e)
  {
    if ls == [] then w else Step(e, Exec(e, w, ls[..|ls| - 1]), ls[|ls| - 1])
  }

  // ----- the properties -----

  /** The server has decided that this process keeps the file. */
  predicate Decided(w: World, p: nat, id: string)
  {
    p in w.procs && (id in w.procs[p].kept || (w.procs[p].stage.Replied? && w.procs[p].stage.ok && w.procs[p].stage.id == id))
  }

  /** Duration metadata is only written while the blob is still there. */
  ghost predicate Timely(w: World, l: Label)
  {
    l.WriteMeta? ==> l.id in w.server.blobs
  }

  ghost predicate TimelyRun(e: Env, w: World, ls: seq<Label>)
    requires EnvSound(e)
  {
    ls != [] ==> TimelyRun(e, w, ls[..|ls| - 1]) && Timely(Exec(e, w, ls[..|ls| - 1]), ls[|ls| - 1])
  }

  // ----- the invariant -----

  ghost predicate GoodRow(e: Env, w: World, r: Row)
  {
    && r.id in w.rowed && r.id in w.published
    && DecryptLine(e.suite, e.text, r.b64) == Ok(Payload(r.id, w.published[r.id].name))
  }

  ghost predicate ServerInv(e: Env, w: World)
  {
    && w.server.blobs.Keys + w.rowed + w.server.metas <= w.published.Keys
    && (forall id <- w.published :: IsFileId(id))
    && (forall id <- w.server.blobs :: Codec.Decode(e.suite, w.server.blobs[id]) == Codec.Decoded(w.published[id].plain, None))
    && (forall r <- w.server.rows :: GoodRow(e, w, r))
    && (forall id <- w.published :: id in w.rowed || id in w.server.blobs || id in w.webGone)
  }

  /** What a process under way knows about the file it works on. */
  ghost predicate GoodStage(w: World, st: Stage)
  {
    match st
    case Idle(_) => true
    case Fetching(_, id, name, got, size) =>
      && id in w.rowed && id in w.published && name == LocalName(w.published[id].name, id) && |got| <= size
      && (if id in w.server.blobs then size == |w.server.blobs[id]| && got == w.server.blobs[id][..|got|]
          else !Present(w.server, id))
    case Decrypted(_, id, name, plain) =>
      && id in w.rowed && id in w.published && name == LocalName(w.published[id].name, id)
      && (if id in w.server.blobs then plain == w.published[id].plain else !Present(w.server, id))
    case Replied(_, id, name, plain, ok) =>
      ok ==> id in w.rowed && GoodItem(w, id, Item(plain, name))
  }

  /** A kept file is the published one, under its name, and nothing of it is left on the server. */
  ghost predicate GoodItem(w: World, id: string, item: Item)
  {
    && id in w.rowed && id in w.published && !Present(w.server, id)
    && item == Item(w.published[id].plain, LocalName(w.published[id].name, id))
  }

  ghost predicate ProcInv(e: Env, w: World, c: Proc)
  {
    && (forall r <- c.stage.queue :: GoodRow(e, w, r))
    && GoodStage(w, c.stage)
    && (forall id <- c.kept :: GoodItem(w, id, c.kept[id]))
  }

  ghost predicate Exclusive(w: World)
  {
    forall p, q, id | Decided(w, p, id) && Decided(w, q, id) :: p == q
  }

  ghost predicate Conserved(w: World)
  {
    forall id <- w.rowed - w.webGone :: id in w.server.blobs || exists p :: Decided(w, p, id)
  }

  ghost predicate Inv(e: Env, w: World)
  {
    ServerInv(e, w) && (forall p <- w.procs :: ProcInv(e, w, w.procs[p])) && Exclusive(w) && Conserved(w)
  }

  // ----- preservation -----

  /** For files already listed once, the server only ever loses things, and all of a file at once. */
  ghost predicate OnlyLoses(w: World, w': World)
  {
    && w.rowed <= w'.rowed && w.published.Keys <= w'.published.Keys
    && (forall id <- w.published :: w'.published[id] == w.published[id])
    && (forall id <- w.rowed ::
          && (id in w'.server.blobs ==> id in w.server.blobs && w'.server.blobs[id] == w.server.blobs[id])
          && (id !in w'.server.blobs && id in w.server.blobs ==> !Present(w'.server, id))
          && (!Present(w.server, id) ==> !Present(w'.server, id)))
  }

  lemma ProcSurvives(e: Env, w: World, w': World, c: Proc)
    requires ProcInv(e, w, c) && OnlyLoses(w, w')
    ensures ProcInv(e, w', c)
  {
    assert GoodStage(w', c.stage);
  }

  lemma PlaceKeeps(e: Env, w: World, l: Label)
    requires EnvSound(e) && Inv(e, w) && l.Place? && CanPlace(w, l)
    ensures Inv(e, Step(e, w, l))
  {
    var w' := Step(e, w, l);
    CodecProofs.WritersRoundTrip(e.suite, l.key, l.base, l.seed, l.item.plain, Codec.CHUNK_SIZE);
    forall p | p in w.procs ensures ProcInv(e, w', w.procs[p]) {
      ProcSurvives(e, w, w', w.procs[p]);
    }
    assert forall p, id :: Decided(w', p, id) <==> Decided(w, p, id);
    forall r | r in w'.server.rows ensures GoodRow(e, w', r) {
      assert GoodRow(e, w, r);
    }
  }

  lemma AddRowKeeps(e: Env, w: World, l: Label)
    requires EnvSound(e) && Inv(e, w) && l.AddRow? && CanAddRow(w, l)
    ensures Inv(e, Step(e, w, l))
  {
    var w' := Step(e, w, l);
    var payload := Payload(l.id, w.published[l.id].name);
    var row := Row(l.id, EncryptPayload(e.suite, e.text, payload, l.key, l.base, l.seed));
    LineRoundTrip(e.suite, e.text, payload, l.key, l.base, l.seed);
    IdsSnoc(w.server.rows, row);
    forall p | p in w.procs ensures ProcInv(e, w', w.procs[p]) {
      ProcSurvives(e, w, w', w.procs[p]);
    }
    forall r | r in w'.server.rows ensures GoodRow(e, w', r) {
      if r != row {
        assert r in w.server.rows;
      }
    }
    assert forall p, id :: Decided(w', p, id) <==> Decided(w, p, id);
  }

  lemma DecidedSame(w: World, w': World)
    requires w'.procs == w.procs
    ensures forall p, id :: Decided(w', p, id) <==> Decided(w, p, id)
  {
  }

  lemma MetaLoses(w: World, id: string)
    requires id in w.server.blobs
    ensures OnlyLoses(w, w.(server := WithMeta(w.server, id)))
  {
  }

  lemma MetaKeeps(e: Env, w: World, l: Label)
    requires EnvSound(e) && Inv(e, w) && l.WriteMeta? && l.id in w.rowed && Timely(w, l)
    ensures Inv(e, Step(e, w, l))
  {
    var w' := w.(server := WithMeta(w.server, l.id));
    MetaLoses(w, l.id);
    forall p | p in w.procs ensures ProcInv(e, w', w.procs[p]) {
      ProcSurvives(e, w, w', w.procs[p]);
    }
    forall r | r in w'.server.rows ensures GoodRow(e, w', r) {
      assert GoodRow(e, w, r);
    }
    DecidedSame(w, w');
  }

  lemma RemoveOnlyLoses(e: Env, w: World, w': World, id: string)
    requires ServerInv(e, w) && w'.server == Removed(w.server, id)
    requires w'.published == w.published && w'.rowed == w.rowed && w.webGone <= w'.webGone
    ensures OnlyLoses(w, w')
    ensures forall r <- w'.server.rows :: GoodRow(e, w', r)
    ensures !Present(w'.server, id)
  {
    WithoutKeeps(w.server.rows, id);
    forall r | r in w'.server.rows ensures GoodRow(e, w', r) {
      assert GoodRow(e, w, r);
    }
  }

  lemma WebDeleteKeeps(e: Env, w: World, l: Label)
    requires EnvSound(e) && Inv(e, w) && l.WebDelete? && l.id in w.published
    ensures Inv(e, Step(e, w, l))
  {
    var w' := Step(e, w, l);
    RemoveOnlyLoses(e, w, w', l.id);
    forall p | p in w.procs ensures ProcInv(e, w', w.procs[p]) {
      ProcSurvives(e, w, w', w.procs[p]);
    }
    assert forall p, id :: Decided(w', p, id) <==> Decided(w, p, id);
  }

  lemma SameServer(e: Env, w: World, w': World)
    requires ServerInv(e, w) && w' == w.(procs := w'.procs)
    ensures ServerInv(e, w') && OnlyLoses(w, w')
  {
    forall r | r in w'.server.rows ensures GoodRow(e, w', r) {
      assert GoodRow(e, w, r);
    }
  }

  lemma SameDecisions(w: World, w': World)
    requires w' == w.(procs := w'.procs) && Exclusive(w) && Conserved(w)
    requires forall q, id :: Decided(w', q, id) <==> Decided(w, q, id)
    ensures Exclusive(w') && Conserved(w')
  {
    forall id | id in w'.rowed - w'.webGone ensures id in w'.server.blobs || exists q :: Decided(w', q, id) {
      if id !in w.server.blobs {
        var q :| Decided(w, q, id);
        assert Decided(w', q, id);
      }
    }
  }

  /** A step that changes one process and decides nothing. */
  lemma LocalKeeps(e: Env, w: World, w': World, p: nat, c: Proc)
    requires Inv(e, w) && w' == w.(procs := w.procs[p := c]) && ProcInv(e, w', c)
    requires forall id :: (p in w.procs && Decided(w, p, id)) <==> Decided(w', p, id)
    ensures Inv(e, w')
  {
    SameServer(e, w, w');
    forall q | q in w'.procs ensures ProcInv(e, w', w'.procs[q]) {
      if q != p {
        ProcSurvives(e, w, w', w.procs[q]);
      }
    }
    SameDecisions(w, w');
  }

  /** A step that moves one process on to another good stage, short of a decision. */
  lemma StageKeeps(e: Env, w: World, p: nat, st: Stage)
    requires Inv(e, w) && p in w.procs && GoodStage(w, st)
    requires forall r <- st.queue :: GoodRow(e, w, r)
    requires !(w.procs[p].stage.Replied? && w.procs[p].stage.ok) && !(st.Replied? && st.ok)
    ensures Inv(e, WithStage(w, p, st))
  {
    var w' := WithStage(w, p, st);
    assert ProcInv(e, w, w.procs[p]);
    assert ProcInv(e, w, w.procs[p].(stage := st));
    ProcSurvives(e, w, w', w.procs[p].(stage := st));
    LocalKeeps(e, w, w', p, w.procs[p].(stage := st));
  }

  lemma ArrivedGood(w: World, st: Stage, n: nat, noise: bytes)
    requires st.Fetching? && GoodStage(w, st)
    ensures GoodStage(w, st.(got := Arrived(w, st, n, noise)))
  {
    if st.id in w.server.blobs {
      var b := w.server.blobs[st.id];
      var m := if |st.got| >= st.size then 0 else if |st.got| + n <= st.size then n else st.size - |st.got|;
      assert b[..|st.got|] + b[|st.got|..|st.got| + m] == b[..|st.got| + m];
    }
  }

  lemma DecryptGood(e: Env, w: World, st: Stage)
    requires ServerInv(e, w) && st.Fetching? && GoodStage(w, st)
    ensures GoodStage(w, DecryptStage(e, st)) && DecryptStage(e, st).queue == st.queue
    ensures !DecryptStage(e, st).Replied?
  {
    if st.id in w.server.blobs && |st.got| == st.size {
      assert w.server.blobs[st.id][..|st.got|] == w.server.blobs[st.id];
    }
  }

  lemma BeginGood(e: Env, w: World, c: Proc)
    requires ProcInv(e, w, c) && c.stage.Idle? && c.stage.queue != []
    ensures var st := BeginStage(e, w, c);
            GoodStage(w, st) && st.queue == c.stage.queue[1..] && !st.Replied?
  {
    assert GoodRow(e, w, c.stage.queue[0]);
  }

  lemma ReplyKeeps(e: Env, w: World, p: nat)
    requires Inv(e, w) && p in w.procs && w.procs[p].stage.Replied?
    ensures Inv(e, ReplyStep(w, p))
  {
    var w' := ReplyStep(w, p);
    var c := w.procs[p];
    assert ProcInv(e, w, c);
    forall r | r in c.stage.queue ensures GoodRow(e, w', r) {
      assert GoodRow(e, w, r);
    }
    forall id | id in w'.procs[p].kept ensures GoodItem(w', id, w'.procs[p].kept[id]) {
      assert id in c.kept ==> GoodItem(w, id, c.kept[id]);
    }
    LocalKeeps(e, w, w', p, w'.procs[p]);
  }

  /** The decisive step: a successful DELETE finds no earlier decision and leaves nothing for a later one. */
  lemma DeleteKeeps(e: Env, w: World, p: nat)
    requires Inv(e, w) && p in w.procs && w.procs[p].stage.Decrypted?
    requires w.procs[p].clientId == w.paired && Present(w.server, w.procs[p].stage.id)
    ensures Inv(e, DeleteStep(w, p))
  {
    var w' := DeleteStep(w, p);
    var id := w.procs[p].stage.id;
    RemoveOnlyLoses(e, w, w', id);
    DeciderSurvives(e, w, p);
    forall q | q in w'.procs && q != p ensures ProcInv(e, w', w'.procs[q]) {
      ProcSurvives(e, w, w', w.procs[q]);
    }
    assert forall q, x :: Decided(w', q, x) <==> Decided(w, q, x) || (q == p && x == id);
    forall q ensures !Decided(w, q, id) {
      if q in w.procs { assert ProcInv(e, w, w.procs[q]); }
    }
    assert Decided(w', p, id);
    ConservedAfter(w, w', id);
  }

  lemma DeciderSurvives(e: Env, w: World, p: nat)
    requires Inv(e, w) && p in w.procs && w.procs[p].stage.Decrypted?
    requires w.procs[p].clientId == w.paired && Present(w.server, w.procs[p].stage.id)
    ensures ProcInv(e, DeleteStep(w, p), DeleteStep(w, p).procs[p])
  {
    var w' := DeleteStep(w, p);
    RemoveOnlyLoses(e, w, w', w.procs[p].stage.id);
    ProcSurvives(e, w, w', w.procs[p]);
  }

  lemma ConservedAfter(w: World, w': World, id: string)
    requires Conserved(w) && w'.server == Removed(w.server, id) && w'.rowed == w.rowed && w'.webGone == w.webGone
    requires forall q, x | Decided(w, q, x) :: Decided(w', q, x)
    requires exists p :: Decided(w', p, id)
    ensures Conserved(w')
  {
    forall x | x in w'.rowed - w'.webGone ensures x in w'.server.blobs || exists q :: Decided(w', q, x) {
      if x != id && x !in w.server.blobs {
        var q :| Decided(w, q, x);
        assert Decided(w', q, x);
      }
    }
  }

  lemma PairKeeps(e: Env, w: World, clientId: string)
    requires Inv(e, w)
    ensures Inv(e, w.(paired := clientId))
  {
    var w' := w.(paired := clientId);
    forall p | p in w.procs ensures ProcInv(e, w', w.procs[p]) {
      ProcSurvives(e, w, w', w.procs[p]);
    }
    forall r | r in w'.server.rows ensures GoodRow(e, w', r) {
      assert GoodRow(e, w, r);
    }
    assert forall p, id :: Decided(w', p, id) <==> Decided(w, p, id);
  }

  lemma JoinKeeps(e: Env, w: World, p: nat, clientId: string)
    requires Inv(e, w) && p !in w.procs
    ensures Inv(e, w.(procs := w.procs[p := Proc(clientId, Idle([]), map[])]))
  {
    LocalKeeps(e, w, w.(procs := w.procs[p := Proc(clientId, Idle([]), map[])]), p, Proc(clientId, Idle([]), map[]));
  }

  /** Steps of a process whose stage the label takes to `st`, without a decision. */
  lemma MoveKeeps(e: Env, w: World, l: Label, p: nat)
    requires EnvSound(e) && Inv(e, w) && p in w.procs
    requires l == Begin(p) || (l.Receive? && l.p == p) || l == Decrypt(p) || l == List(p) || l == Abort(p)
    ensures Inv(e, Step(e, w, l))
  {
    var c := w.procs[p];
    assert ProcInv(e, w, c);
    match l {
      case Begin(_) =>
        if c.stage.Idle? && c.stage.queue != [] {
          BeginGood(e, w, c);
          StageKeeps(e, w, p, BeginStage(e, w, c));
        }
      case Receive(_, n, noise) =>
        if c.stage.Fetching? {
          ArrivedGood(w, c.stage, n, noise);
          StageKeeps(e, w, p, c.stage.(got := Arrived(w, c.stage, n, noise)));
        }
      case Decrypt(_) =>
        if c.stage.Fetching? {
          DecryptGood(e, w, c.stage);
          StageKeeps(e, w, p, DecryptStage(e, c.stage));
        }
      case List(_) =>
        if c.stage.Idle? && c.clientId == w.paired {
          StageKeeps(e, w, p, Idle(w.server.rows));
        }
      case Abort(_) =>
        if c.stage.Fetching? || c.stage.Decrypted? {
          StageKeeps(e, w, p, Idle(c.stage.queue));
        }
    }
  }

  lemma AnswerKeeps(e: Env, w: World, p: nat)
    requires Inv(e, w) && p in w.procs && w.procs[p].stage.Decrypted?
    ensures Inv(e, DeleteStep(w, p))
  {
    var c := w.procs[p];
    assert ProcInv(e, w, c);
    if c.clientId == w.paired && Present(w.server, c.stage.id) {
      DeleteKeeps(e, w, p);
    } else {
      StageKeeps(e, w, p, Replied(c.stage.queue, c.stage.id, c.stage.name, c.stage.plain, false));
    }
  }

  lemma StepKeeps(e: Env, w: World, l: Label)
    requires EnvSound(e) && Inv(e, w) && Timely(w, l)
    ensures Inv(e, Step(e, w, l))
  {
    match l {
      case Place(_, _, _, _, _) => if CanPlace(w, l) { PlaceKeeps(e, w, l); }
      case AddRow(_, _, _, _) => if CanAddRow(w, l) { AddRowKeeps(e, w, l); }
      case WriteMeta(id) => if id in w.rowed { MetaKeeps(e, w, l); }
      case WebDelete(id) => if id in w.published { WebDeleteKeeps(e, w, l); }
      case Join(p, c) => if p !in w.procs { JoinKeeps(e, w, p, c); }
      case Pair(p, _) => if p in w.procs { PairKeeps(e, w, w.procs[p].clientId); }
      case Delete(p) => if p in w.procs && w.procs[p].stage.Decrypted? { AnswerKeeps(e, w, p); }
      case Reply(p) => if p in w.procs && w.procs[p].stage.Replied? { ReplyKeeps(e, w, p); }
      case _ => if l.p in w.procs { MoveKeeps(e, w, l, l.p); }
    }
  }

  lemma {:induction false} RunKeeps(e: Env, ls: seq<Label>)
    requires EnvSound(e) && TimelyRun(e, START, ls)
    ensures Inv(e, Exec(e, START, ls))
    decreases |ls|
  {
    if ls == [] {
    } else {
      RunKeeps(e, ls[..|ls| - 1]);
      StepKeeps(e, Exec(e, START, ls[..|ls| - 1]), ls[|ls| - 1]);
    }
  }

  /**
    Commit exclusivity, conservation and integrity over every interleaving: each listed file that was
    not removed from the web interface is on the server or taken by exactly one process, never both
    and never by two; and whoever takes it holds the published plaintext under the published name.
    Assumed: duration metadata is timely, and web removals overlap no other write of the manifest.
   */
  lemma ExclusiveConservedIntact(e: Env, ls: seq<Label>)
    requires EnvSound(e) && TimelyRun(e, START, ls)
    ensures var w := Exec(e, START, ls);
            && (forall id <- w.rowed - w.webGone ::
                  (id in w.server.blobs) != (exists p :: Decided(w, p, id)))
            && (forall p, q, id | Decided(w, p, id) && Decided(w, q, id) :: p == q)
            && (forall p, id | p in w.procs && id in w.procs[p].kept ::
                  && id in w.published && id in w.rowed
                  && w.procs[p].kept[id] == Item(w.published[id].plain, LocalName(w.published[id].name, id)))
  {
    RunKeeps(e, ls);
    var w := Exec(e, START, ls);
    forall p, id | Decided(w, p, id) ensures id !in w.server.blobs {
      assert ProcInv(e, w, w.procs[p]);
    }
    forall p, id | p in w.procs && id in w.procs[p].kept ensures GoodItem(w, id, w.procs[p].kept[id]) {
      assert ProcInv(e, w, w.procs[p]);
    }
  }
}
