/**
  Who may do what on the pull API: only the paired client lists, fetches and deletes, only a successful
  DELETE decides who keeps a file, and a process whose client has been displaced gets nothing more.
 */
module PullAccess {
  import opened Bytes
  import opened Crypto
  import opened Manifest
  import opened Store
  import opened StoreProofs
  import opened ServerView
  import opened PullProtocol
  import Codec

  predicate MayCall(w: World, p: nat)
  {
    p in w.procs && w.procs[p].clientId == w.paired
  }

  // ----- one request -----

  /**
    A DELETE removes the file, and the process keeps it, exactly if its client is the paired one and
    something of the file is left. Otherwise the server stays as it is and the process drops its copy.
   */
  lemma DeleteExactly(e: Env, w: World, p: nat)
    requires EnvSound(e) && p in w.procs && w.procs[p].stage.Decrypted?
    ensures var st := w.procs[p].stage;
            var granted := w.procs[p].clientId == w.paired && Present(w.server, st.id);
            var v := Step(e, w, Delete(p));
            var u := Step(e, v, Reply(p));
            && v.server == (if granted then Removed(w.server, st.id) else w.server)
            && v.paired == w.paired && v.procs == w.procs[p := v.procs[p]] && v.procs[p].kept == w.procs[p].kept
            && u == v.(procs := u.procs) && u.procs == v.procs[p := u.procs[p]]
            && u.procs[p].kept == (if granted then w.procs[p].kept[st.id := Item(st.plain, st.name)] else w.procs[p].kept)
            && u.procs[p].stage == Idle(st.queue)
  {
  }

  /** Only the paired client gets the manifest's rows; another one keeps what it had listed before. */
  lemma ListExactly(e: Env, w: World, p: nat)
    requires EnvSound(e) && p in w.procs && w.procs[p].stage.Idle?
    ensures var v := Step(e, w, List(p));
            && v == w.(procs := w.procs[p := w.procs[p].(stage := v.procs[p].stage)])
            && v.procs[p].stage == Idle(if w.procs[p].clientId == w.paired then w.server.rows else w.procs[p].stage.queue)
  {
    assert w.procs[p := w.procs[p]] == w.procs;
  }

  /**
    A download begins exactly if the row decrypts, the client is the paired one and the blob is there;
    then under the name the row decrypts to. Otherwise the row is skipped. Nothing else changes.
   */
  lemma BeginExactly(e: Env, w: World, p: nat)
    requires EnvSound(e) && p in w.procs && w.procs[p].stage.Idle? && w.procs[p].stage.queue != []
    ensures var row, rest := w.procs[p].stage.queue[0], w.procs[p].stage.queue[1..];
            var line := DecryptLine(e.suite, e.text, row.b64);
            var v := Step(e, w, Begin(p));
            && v == w.(procs := w.procs[p := w.procs[p].(stage := v.procs[p].stage)])
            && (v.procs[p].stage.Fetching? <==>
                  line.Ok? && w.procs[p].clientId == w.paired && row.id in w.server.blobs)
            && (v.procs[p].stage.Fetching? ==>
                  v.procs[p].stage == Fetching(rest, row.id, if line.value.name == "" then row.id else line.value.name,
                                               [], |w.server.blobs[row.id]|))
            && (!v.procs[p].stage.Fetching? ==> v.procs[p].stage == Idle(rest))
  {
  }

  /** A download is decrypted exactly if it is whole and its container decodes; else it waits or is dropped. */
  lemma DecryptExactly(e: Env, w: World, p: nat)
    requires EnvSound(e) && p in w.procs && w.procs[p].stage.Fetching?
    ensures var st := w.procs[p].stage;
            var d := Codec.Decode(e.suite, st.got);
            var v := Step(e, w, Decrypt(p));
            && v == w.(procs := w.procs[p := w.procs[p].(stage := v.procs[p].stage)])
            && v.procs[p].stage == (if |st.got| < st.size then st
                                    else if d.error == None then Decrypted(st.queue, st.id, st.name, d.plain)
                                    else Idle(st.queue))
  {
    assert w.procs[p := w.procs[p]] == w.procs;
  }

  /** A free slot, or one's own, is taken; another client's only with an override. Nothing else changes. */
  lemma PairExactly(e: Env, w: World, p: nat, override: bool)
    requires EnvSound(e) && p in w.procs
    ensures var v := Step(e, w, Pair(p, override));
            && v == w.(paired := v.paired)
            && (v.paired == w.procs[p].clientId <==>
                  w.paired == "" || w.paired == w.procs[p].clientId || override)
            && (v.paired != w.procs[p].clientId ==> v.paired == w.paired)
  {
  }

  // ----- every step -----

  /** A file is decided for a process by its own DELETE, sent as the paired client, and in no other way. */
  lemma DecidedByDelete(e: Env, w: World, l: Label, p: nat, id: string)
    requires EnvSound(e)
    ensures !Decided(w, p, id) && Decided(Step(e, w, l), p, id) <==>
              !Decided(w, p, id) && l == Delete(p) && MayCall(w, p) && w.procs[p].stage.Decrypted?
              && w.procs[p].stage.id == id && Present(w.server, id)
  {
  }

  /** The server loses a file through the web interface or the paired client's DELETE, and in no other way. */
  lemma LostByRemoval(e: Env, w: World, l: Label, id: string)
    requires EnvSound(e) && Present(w.server, id) && !Present(Step(e, w, l).server, id)
    ensures l == WebDelete(id)
            || (l.Delete? && MayCall(w, l.p) && w.procs[l.p].stage.Decrypted? && w.procs[l.p].stage.id == id)
  {
    match l {
      case WebDelete(x) => WithoutKeeps(w.server.rows, x);
      case Delete(p) => if p in w.procs && w.procs[p].stage.Decrypted? { WithoutKeeps(w.server.rows, w.procs[p].stage.id); }
      case AddRow(x, key, base, seed) =>
        if CanAddRow(w, l) {
          IdsSnoc(w.server.rows, Row(x, EncryptPayload(e.suite, e.text, Payload(x, w.published[x].name), key, base, seed)));
        }
      case _ =>
    }
  }

  /** What a process has in hand, unless it is the paired client's, can only shrink. */
  predicate NothingNew(c: Proc, after: Proc)
  {
    && after.clientId == c.clientId && after.kept == c.kept && !(after.stage.Replied? && after.stage.ok)
    && (after.stage.Fetching? ==> c.stage.Fetching? && after.stage.id == c.stage.id)
    && |after.stage.queue| <= |c.stage.queue|
  }

  lemma DisplacedStep(e: Env, w: World, l: Label, p: nat)
    requires EnvSound(e) && p in w.procs && w.procs[p].clientId != w.paired
    requires !(w.procs[p].stage.Replied? && w.procs[p].stage.ok)
    ensures p in Step(e, w, l).procs && NothingNew(w.procs[p], Step(e, w, l).procs[p])
    ensures l == Delete(p) || l == Begin(p) || l == List(p) ==> Step(e, w, l).server == w.server
  {
  }

  /** At no point of the run is the client of `p` the paired one. */
  ghost predicate Displaced(e: Env, w: World, ls: seq<Label>, p: nat)
    requires EnvSound(e)
  {
    && p in w.procs && Exec(e, w, ls).paired != w.procs[p].clientId
    && (ls != [] ==> Displaced(e, w, ls[..|ls| - 1], p))
  }

  /**
    A process that was displaced before its DELETE was granted keeps nothing new and starts nothing new,
    in any run in which its client is not paired again, whatever it had downloaded by then.
   */
  lemma {:induction false} DisplacedKeepsNothing(e: Env, w: World, ls: seq<Label>, p: nat)
    requires EnvSound(e) && Displaced(e, w, ls, p) && !(w.procs[p].stage.Replied? && w.procs[p].stage.ok)
    ensures p in Exec(e, w, ls).procs && NothingNew(w.procs[p], Exec(e, w, ls).procs[p])
    decreases |ls|
  {
    if ls != [] {
      var n := |ls| - 1;
      DisplacedKeepsNothing(e, w, ls[..n], p);
      assert Displaced(e, w, ls[..n], p);
      DisplacedStep(e, Exec(e, w, ls[..n]), ls[n], p);
    }
  }

  /** So the one who displaces decides: after an override nobody else's DELETE is granted. */
  lemma OverrideDisplaces(e: Env, w: World, p: nat, q: nat)
    requires EnvSound(e) && p in w.procs && q in w.procs && w.procs[p].clientId != w.procs[q].clientId
    requires w.procs[p].stage.Decrypted?
    ensures var v := Step(e, Step(e, w, Pair(q, true)), Delete(p));
            v.server == w.server && Step(e, v, Reply(p)).procs[p].kept == w.procs[p].kept
  {
    PairExactly(e, w, q, true);
    DeleteExactly(e, Step(e, w, Pair(q, true)), p);
  }
}
