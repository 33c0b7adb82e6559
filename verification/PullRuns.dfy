/**
  The pull protocol on the real directory, which serves what the protocol says, and the two overlaps
  that break its exclusivity.
 */
module PullRuns {
  import opened Bytes
  import opened Crypto
  import opened Text
  import opened Manifest
  import opened Store
  import opened StoreProofs
  import opened ServerView
  import opened PullProtocol
  import Codec
  import CodecProofs

  // ----- the server of the protocol is the directory of the store -----

  /** What the store does to the directory when the protocol takes a step. */
  ghost function DiskStep(e: Env, w: World, d: Disk, l: Label): Disk
    requires EnvSound(e)
  {
    match l
    case Place(id, item, key, base, seed) =>
      if CanPlace(w, l)
      then (d - {TmpName(id)})[id := Binary(Codec.FileBlob(e.suite, key, base, seed, item.plain))] else d
    case AddRow(id, key, base, seed) =>
      if CanAddRow(w, l)
      then d[MANIFEST_NAME := Text(ManifestText(d) +
             Line(Row(id, EncryptPayload(e.suite, e.text, Payload(id, w.published[id].name), key, base, seed))))]
      else d
    case WriteMeta(id) => if id in w.rowed then d[MetaName(id) := Text("{}")] else d
    case WebDelete(id) => if id in w.published then Deleted(d, id) else d
    case Delete(p) =>
      if p in w.procs && w.procs[p].stage.Decrypted? && w.procs[p].clientId == w.paired
      then Deleted(d, w.procs[p].stage.id) else d
    case _ => d
  }

  lemma ShownDisk(e: Env, w: World, d: Disk)
    requires ServerInv(e, w) && Shows(d, w.server)
    ensures ParsedManifest(d) == Ok(w.server.rows)
    ensures forall id <- w.published :: Exists(d, id) <==> Present(w.server, id)
  {
    ShowsRows(d, w.server);
    forall id | id in w.published
      ensures Exists(d, id) <==> Present(w.server, id)
    {
      DeleteShows(d, w.server, id);
    }
  }

  lemma AddRowOnDisk(e: Env, w: World, d: Disk, l: Label)
    requires EnvSound(e) && Shows(d, w.server) && l.AddRow? && CanAddRow(w, l) && IsFileId(l.id)
    ensures Shows(DiskStep(e, w, d, l), Step(e, w, l).server)
  {
    var payload := Payload(l.id, w.published[l.id].name);
    LineRoundTrip(e.suite, e.text, payload, l.key, l.base, l.seed);
    AddRowShows(d, w.server, Row(l.id, EncryptPayload(e.suite, e.text, payload, l.key, l.base, l.seed)));
  }

  lemma DeleteOnDisk(e: Env, w: World, d: Disk, l: Label)
    requires EnvSound(e) && Shows(d, w.server) && l.Delete? && l.p in w.procs && w.procs[l.p].stage.Decrypted?
    requires IsFileId(w.procs[l.p].stage.id)
    ensures Shows(DiskStep(e, w, d, l), Step(e, w, l).server)
  {
    DeleteShows(d, w.server, w.procs[l.p].stage.id);
    if !Present(w.server, w.procs[l.p].stage.id) {
      assert Deleted(d, w.procs[l.p].stage.id) == d;
    }
  }

  lemma StepOnDisk(e: Env, w: World, d: Disk, l: Label)
    requires EnvSound(e) && Shows(d, w.server)
    requires (forall id <- w.published :: IsFileId(id)) && w.rowed <= w.published.Keys
    requires l.Delete? && l.p in w.procs && w.procs[l.p].stage.Decrypted? ==> IsFileId(w.procs[l.p].stage.id)
    ensures Shows(DiskStep(e, w, d, l), Step(e, w, l).server)
  {
    match l {
      case Place(id, item, key, base, seed) =>
        if CanPlace(w, l) {
          PlaceShows(d, w.server, id, Codec.FileBlob(e.suite, key, base, seed, item.plain));
        }
      case AddRow(id, key, base, seed) => if CanAddRow(w, l) { AddRowOnDisk(e, w, d, l); }
      case WriteMeta(id) => if id in w.rowed { MetaShows(d, w.server, id, "{}"); }
      case WebDelete(id) => if id in w.published { DeleteShows(d, w.server, id); }
      case Delete(p) => if p in w.procs && w.procs[p].stage.Decrypted? { DeleteOnDisk(e, w, d, l); }
      case _ =>
    }
  }

  /**
    Simulation: step by step the directory shows the server of the protocol, so the manifest text a
    client gets parses to the rows, a request finds the blob iff the server has it, and a DELETE
    answers as `Present` says.
   */
  lemma DiskSimulates(e: Env, w: World, d: Disk, l: Label)
    requires EnvSound(e) && Inv(e, w) && Timely(w, l) && Shows(d, w.server)
    ensures Shows(DiskStep(e, w, d, l), Step(e, w, l).server)
    ensures ParsedManifest(d) == Ok(w.server.rows)
    ensures forall id <- w.published :: Exists(d, id) <==> Present(w.server, id)
  {
    ShownDisk(e, w, d);
    if l.Delete? && l.p in w.procs {
      assert ProcInv(e, w, w.procs[l.p]);
    }
    StepOnDisk(e, w, d, l);
  }

  /** The directory as the store creates it. */
  const NEW_DISK: Disk := map[MANIFEST_NAME := Text("")]

  ghost function DiskExec(e: Env, w: World, d: Disk, ls: seq<Label>): Disk
    requires EnvSound(e)
  {
    if ls == [] then d
    else
      var before := ls[..|ls| - 1];
      DiskStep(e, Exec(e, w, before), DiskExec(e, w, d, before), ls[|ls| - 1])
  }

  lemma NewDiskShows()
    ensures Shows(NEW_DISK, START.server)
  {
    forall id | IsFileId(id)
      ensures id !in NEW_DISK && MetaName(id) !in NEW_DISK
    {
      FileIdIsPlain(id);
    }
    assert Ids([]) == {};
  }

  /** After every timely run the directory is what the protocol says of its server. */
  lemma {:induction false} DiskRun(e: Env, ls: seq<Label>)
    requires EnvSound(e) && TimelyRun(e, START, ls)
    ensures Shows(DiskExec(e, START, NEW_DISK, ls), Exec(e, START, ls).server)
    ensures ParsedManifest(DiskExec(e, START, NEW_DISK, ls)) == Ok(Exec(e, START, ls).server.rows)
    ensures forall id <- Exec(e, START, ls).published ::
              Exists(DiskExec(e, START, NEW_DISK, ls), id) <==> Present(Exec(e, START, ls).server, id)
  {
    if ls == [] {
      NewDiskShows();
    } else {
      var before := ls[..|ls| - 1];
      DiskRun(e, before);
      RunKeeps(e, before);
      DiskSimulates(e, Exec(e, START, before), DiskExec(e, START, NEW_DISK, before), ls[|ls| - 1]);
    }
    RunKeeps(e, ls);
    ShownDisk(e, Exec(e, START, ls), DiskExec(e, START, NEW_DISK, ls));
  }

  // ----- late metadata -----

  /** Two processes of one client have both decrypted a file that is still on the server. */
  ghost predicate Racing(w: World, p: nat, q: nat, id: string)
  {
    && p != q && p in w.procs && q in w.procs
    && w.procs[p].stage.Decrypted? && w.procs[q].stage.Decrypted?
    && w.procs[p].stage.id == id && w.procs[q].stage.id == id
    && w.procs[p].clientId == w.paired && w.procs[q].clientId == w.paired
    && id in w.server.blobs
  }

  /**
    Of two racing processes both commit exactly when the duration metadata is written between their
    DELETE requests; otherwise the second one is turned away.
   */
  lemma DoubleCommitExactly(w: World, p: nat, q: nat, id: string, late: bool)
    requires Racing(w, p, q, id) && !Decided(w, q, id)
    ensures var w1 := DeleteStep(w, p);
            var w2 := if late then w1.(server := WithMeta(w1.server, id)) else w1;
            var w3 := DeleteStep(w2, q);
            Decided(w3, p, id) && (Decided(w3, q, id) <==> late)
  {
    WithoutKeeps(w.server.rows, id);
  }

  // ----- overlapping removals -----

  /**
    The manifest after two removals overlapped. The removal of `a`, in a worker thread, has wiped the
    blob and the metadata and has read the manifest, but its lines are still buffered; meanwhile the
    DELETE of `b` runs from start to end. Both write to the same temporary file, which the DELETE
    renames over the manifest, so the lines of the first removal then land on the new manifest.
   */
  function Overlapped(d: Disk, a: string, b: string): Disk
  {
    var deleted := Deleted(d - {a} - {MetaName(a)}, b);
    var mine, theirs := KeptLines(FileLines(ManifestText(d)), a), ManifestText(deleted);
    deleted[MANIFEST_NAME := Text(mine + (if |mine| < |theirs| then theirs[|mine|..] else ""))]
  }

  lemma RemovalKeeps(s: Server, id: string)
    requires AreRows(s.rows)
    ensures KeptLines(FileLines(Render(s.rows)), id) == Render(Without(s.rows, id))
    ensures AreRows(Without(s.rows, id)) && Ids(Without(s.rows, id)) == Ids(s.rows) - {id}
  {
    KeptText(s.rows, id);
    WithoutKeeps(s.rows, id);
  }

  /** While the rows are still there, a second removal runs as if alone. */
  lemma SecondRemoval(d: Disk, s: Server, a: string, b: string)
    requires Shows(d, s) && {a, b} <= Ids(s.rows)
    ensures var deleted := Deleted(d - {a} - {MetaName(a)}, b);
            && ManifestText(deleted) == Render(Without(s.rows, b))
            && b !in deleted && MetaName(b) !in deleted
  {
    var d0 := d - {a} - {MetaName(a)};
    NamesApart(a, b);
    NamesApart(b, a);
    assert ManifestText(d0) == Render(s.rows);
    RewriteText(d0, s, b);
    FileLinesRendered(s.rows);
    HasLineRendered(s.rows, b);
  }

  /** What is left of the manifest names `b` unless its row went too. */
  lemma OverlapText(mine: seq<Row>, theirs: string, b: string)
    requires AreRows(mine) && (b !in Ids(mine) ==> theirs == Render(mine))
    ensures var text := Render(mine) + (if |Render(mine)| < |theirs| then theirs[|Render(mine)|..] else "");
            HasLine(FileLines(text), b) <==> b in Ids(mine)
  {
    var tail := if |Render(mine)| < |theirs| then theirs[|Render(mine)|..] else "";
    FileLinesBegin(mine, tail);
    HasLineRendered(mine, b);
    if b in Ids(mine) {
      HasLinePrefix(Lines(mine), FileLines(tail), b);
    } else {
      assert Lines(mine) + [] == Lines(mine);
    }
  }

  lemma RemovalDeletes(d: Disk, s: Server, a: string, b: string)
    requires Shows(d, s) && {a, b} <= Ids(s.rows)
    ensures !Exists(Deleted(d - {a} - {MetaName(a)}, b), b)
  {
    SecondRemoval(d, s, a, b);
    RemovalKeeps(s, b);
    FileLinesRendered(Without(s.rows, b));
    HasLineRendered(Without(s.rows, b), b);
  }

  /** The overlap writes the row of `b` back, unless both removals are of the same file. */
  lemma OverlapRestores(d: Disk, s: Server, a: string, b: string)
    requires Shows(d, s) && {a, b} <= Ids(s.rows)
    ensures !Exists(Deleted(d - {a} - {MetaName(a)}, b), b)
    ensures Exists(Overlapped(d, a, b), b) <==> a != b
  {
    var mine, theirs := Without(s.rows, a), Without(s.rows, b);
    SecondRemoval(d, s, a, b);
    RemovalKeeps(s, a);
    RemovalKeeps(s, b);
    NamesApart(b, b);
    OverlapText(mine, Render(theirs), b);
    RemovalDeletes(d, s, a, b);
  }

  lemma HasLinePrefix(first: seq<string>, rest: seq<string>, id: string)
    requires HasLine(first, id)
    ensures HasLine(first + rest, id)
  {
    var i :| 0 <= i < |first| && LineOf(first[i], id);
    assert LineOf((first + rest)[i], id);
  }

  /**
    Why a removal has to be one step: of two racing processes the first one's DELETE succeeds, and
    when it overlapped the web removal of another file, so does the second one's.
   */
  lemma OverlapCommitsTwice(w: World, d: Disk, p: nat, q: nat, a: string, b: string, after: Server)
    requires Racing(w, p, q, b) && !Decided(w, q, b)
    requires Shows(d, w.server) && {a, b} <= Ids(w.server.rows)
    requires Present(after, b) <==> Exists(Overlapped(d, a, b), b)
    ensures var w1 := DeleteStep(w, p).(server := after);
            Decided(w1, p, b) && (Decided(DeleteStep(w1, q), q, b) <==> a != b)
  {
    OverlapRestores(d, w.server, a, b);
  }

  lemma Then(e: Env, ls: seq<Label>, l: Label) returns (ls': seq<Label>)
    requires EnvSound(e)
    ensures ls' == ls + [l] && Exec(e, START, ls') == Step(e, Exec(e, START, ls), l)
    ensures TimelyRun(e, START, ls') <==> TimelyRun(e, START, ls) && Timely(Exec(e, START, ls), l)
  {
    ls' := ls + [l];
    assert ls'[..|ls|] == ls;
  }

  const SOME_ID := "00000000-0000-0000-0000-000000000000"

  /** The server offers one file to the client named `clientId`. */
  ghost predicate Offers(w: World, clientId: string)
  {
    && w.paired == clientId != "" && w.server.rows != [] && w.server.rows[0].id == SOME_ID
    && SOME_ID in w.server.blobs
  }

  /** Joining and listing. */
  lemma Lists(e: Env, ls: seq<Label>, p: nat, clientId: string) returns (ls': seq<Label>)
    requires EnvSound(e) && TimelyRun(e, START, ls)
    requires p !in Exec(e, START, ls).procs && Offers(Exec(e, START, ls), clientId)
    ensures TimelyRun(e, START, ls')
    ensures var w := Exec(e, START, ls);
            Exec(e, START, ls') == w.(procs := w.procs[p := Proc(clientId, Idle(w.server.rows), map[])])
  {
    var l1 := Then(e, ls, Join(p, clientId));
    assert Exec(e, START, l1).procs[p] == Proc(clientId, Idle([]), map[]);
    ls' := Then(e, l1, List(p));
  }

  lemma BeginsFirst(e: Env, w: World, p: nat, clientId: string)
    requires EnvSound(e) && Inv(e, w) && Offers(w, clientId)
    requires p in w.procs && w.procs[p] == Proc(clientId, Idle(w.server.rows), map[])
    ensures BeginStage(e, w, w.procs[p])
         == Fetching(w.server.rows[1..], SOME_ID, LocalName(w.published[SOME_ID].name, SOME_ID), [], |w.server.blobs[SOME_ID]|)
  {
    assert GoodRow(e, w, w.server.rows[0]);
  }

  /** Requesting the first listed file. */
  lemma Begins(e: Env, ls: seq<Label>, p: nat, clientId: string) returns (ls': seq<Label>)
    requires EnvSound(e) && TimelyRun(e, START, ls)
    requires var w := Exec(e, START, ls);
             Offers(w, clientId) && p in w.procs && w.procs[p] == Proc(clientId, Idle(w.server.rows), map[])
    ensures TimelyRun(e, START, ls')
    ensures var w, w' := Exec(e, START, ls), Exec(e, START, ls');
            && p in w'.procs && w' == w.(procs := w.procs[p := w'.procs[p]]) && w'.procs[p].clientId == clientId
            && w'.procs[p].stage.Fetching? && w'.procs[p].stage.id == SOME_ID && w'.procs[p].stage.got == []
            && w'.procs[p].stage.size == |w.server.blobs[SOME_ID]|
  {
    var w := Exec(e, START, ls);
    var st := BeginStage(e, w, w.procs[p]);
    assert st.Fetching? && st.id == SOME_ID && st.got == [] && st.size == |w.server.blobs[SOME_ID]| by {
      RunKeeps(e, ls);
      BeginsFirst(e, w, p, clientId);
    }
    ls' := Then(e, ls, Begin(p));
  }

  lemma ArrivesWhole(w: World, st: Stage)
    requires st.Fetching? && st.id in w.server.blobs && st.got == [] && st.size == |w.server.blobs[st.id]|
    ensures Arrived(w, st, st.size, []) == w.server.blobs[st.id]
  {
    var blob := w.server.blobs[st.id];
    assert [] + blob[0..|blob|] == blob;
  }

  /** Receiving the whole body and decrypting it. */
  lemma Receives(e: Env, ls: seq<Label>, p: nat) returns (ls': seq<Label>)
    requires EnvSound(e) && TimelyRun(e, START, ls)
    requires var w := Exec(e, START, ls);
             && p in w.procs && SOME_ID in w.server.blobs
             && w.procs[p].stage.Fetching? && w.procs[p].stage.id == SOME_ID && w.procs[p].stage.got == []
             && w.procs[p].stage.size == |w.server.blobs[SOME_ID]|
    ensures TimelyRun(e, START, ls')
    ensures var w, w' := Exec(e, START, ls), Exec(e, START, ls');
            && p in w'.procs && w' == w.(procs := w.procs[p := w'.procs[p]])
            && w'.procs[p].clientId == w.procs[p].clientId
            && w'.procs[p].stage.Decrypted? && w'.procs[p].stage.id == SOME_ID
  {
    var w := Exec(e, START, ls);
    var st := w.procs[p].stage;
    var whole := st.(got := w.server.blobs[SOME_ID]);
    assert DecryptStage(e, whole).Decrypted? && DecryptStage(e, whole).id == SOME_ID by {
      RunKeeps(e, ls);
    }
    ArrivesWhole(w, st);
    var l1 := Then(e, ls, Receive(p, st.size, []));
    assert Exec(e, START, l1) == WithStage(w, p, whole);
    ls' := Then(e, l1, Decrypt(p));
    assert Exec(e, START, ls') == WithStage(WithStage(w, p, whole), p, DecryptStage(e, whole));
  }

  /** A process lists the only file, downloads it whole and decrypts it. */
  lemma FetchesOnlyFile(e: Env, ls: seq<Label>, p: nat, clientId: string)
    returns (ls': seq<Label>)
    requires EnvSound(e) && TimelyRun(e, START, ls)
    requires p !in Exec(e, START, ls).procs && Offers(Exec(e, START, ls), clientId)
    ensures TimelyRun(e, START, ls')
    ensures var w, w' := Exec(e, START, ls), Exec(e, START, ls');
            && p in w'.procs && w' == w.(procs := w.procs[p := w'.procs[p]])
            && w'.procs[p].stage.Decrypted? && w'.procs[p].stage.id == SOME_ID && w'.procs[p].clientId == clientId
  {
    ls' := Lists(e, ls, p, clientId);
    ls' := Begins(e, ls', p, clientId);
    ls' := Receives(e, ls', p);
  }

  /** Two processes of one client are led into the race. */
  lemma RaceReachable(e: Env, key: bytes, base: bytes) returns (ls: seq<Label>)
    requires EnvSound(e) && |key| == 32 && |base| == 12
    ensures TimelyRun(e, START, ls) && Racing(Exec(e, START, ls), 1, 2, SOME_ID)
    ensures SOME_ID in Exec(e, START, ls).rowed
  {
    ls := PublishesOneFile(e, key, base);
    ls := FetchesOnlyFile(e, ls, 1, "client");
    ls := FetchesOnlyFile(e, ls, 2, "client");
    RunKeeps(e, ls);
    assert ProcInv(e, Exec(e, START, ls), Exec(e, START, ls).procs[1]);
  }

  /**
    The race and the late metadata are reachable: exclusivity is false of the program as it stands,
    and the hypothesis of `ExclusiveConservedIntact` cannot be dropped.
   */
  lemma DoubleCommitReachable(e: Env, key: bytes, base: bytes) returns (ls: seq<Label>)
    requires EnvSound(e) && |key| == 32 && |base| == 12
    ensures Decided(Exec(e, START, ls), 1, SOME_ID) && Decided(Exec(e, START, ls), 2, SOME_ID)
    ensures !TimelyRun(e, START, ls)
  {
    ls := RaceReachable(e, key, base);
    var w := Exec(e, START, ls);
    assert !Decided(w, 2, SOME_ID) by {
      RunKeeps(e, ls);
      assert ProcInv(e, w, w.procs[2]);
    }
    DoubleCommitExactly(w, 1, 2, SOME_ID, true);
    ls := Then(e, ls, Delete(1));
    ls := Then(e, ls, WriteMeta(SOME_ID));
    ls := Then(e, ls, Delete(2));
    if TimelyRun(e, START, ls) {
      RunKeeps(e, ls);
    }
  }

  lemma PublishesOneFile(e: Env, key: bytes, base: bytes) returns (ls: seq<Label>)
    requires EnvSound(e) && |key| == 32 && |base| == 12
    ensures TimelyRun(e, START, ls)
    ensures var w := Exec(e, START, ls); Offers(w, "client") && 1 !in w.procs && 2 !in w.procs
  {
    ls := Then(e, [], Join(0, "client"));
    ls := Then(e, ls, Pair(0, false));
    ls := PublishesAfter(e, ls, key, base);
  }

  lemma PublishedOne(e: Env, w: World, key: bytes, base: bytes)
    requires EnvSound(e) && |key| == 32 && |base| == 12
    requires w.published == map[] && w.rowed == {} && w.server == Server(map[], [], {})
    ensures var w1 := Step(e, w, Place(SOME_ID, Item([], "file"), key, base, []));
            var w' := Step(e, w1, AddRow(SOME_ID, key, base, []));
            && w'.paired == w.paired && w'.procs == w.procs
            && w'.server.rows != [] && w'.server.rows[0].id == SOME_ID && SOME_ID in w'.server.blobs
  {
  }

  lemma PublishesAfter(e: Env, ls: seq<Label>, key: bytes, base: bytes) returns (ls': seq<Label>)
    requires EnvSound(e) && TimelyRun(e, START, ls) && |key| == 32 && |base| == 12
    requires var w := Exec(e, START, ls); w.published == map[] && w.rowed == {} && w.server == Server(map[], [], {})
    ensures TimelyRun(e, START, ls')
    ensures var w, w' := Exec(e, START, ls), Exec(e, START, ls');
            && w'.paired == w.paired && w'.procs == w.procs
            && w'.server.rows != [] && w'.server.rows[0].id == SOME_ID && SOME_ID in w'.server.blobs
  {
    PublishedOne(e, Exec(e, START, ls), key, base);
    ls' := Then(e, ls, Place(SOME_ID, Item([], "file"), key, base, []));
    ls' := Then(e, ls', AddRow(SOME_ID, key, base, []));
  }
}
