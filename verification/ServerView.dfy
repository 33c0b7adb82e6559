/**
  What the pull API sees of the completed directory: blobs, manifest rows and duration metadata. The
  lemmas show that the disk operations of the store act on this view as the view's own operations do.
 */
module ServerView {
  import opened Bytes
  import opened Text
  import opened Manifest
  import opened Store
  import opened StoreProofs

  datatype Server = Server(blobs: map<string, bytes>, rows: seq<Row>, metas: set<string>)

  function Placed(s: Server, id: string, blob: bytes): Server
  {
    s.(blobs := s.blobs[id := blob])
  }

  function WithRow(s: Server, r: Row): Server
  {
    s.(rows := s.rows + [r])
  }

  function WithMeta(s: Server, id: string): Server
  {
    s.(metas := s.metas + {id})
  }

  predicate Present(s: Server, id: string)
  {
    id in s.blobs || id in s.metas || id in Ids(s.rows)
  }

  function Removed(s: Server, id: string): Server
  {
    Server(s.blobs - {id}, Without(s.rows, id), s.metas - {id})
  }

  /** The disk `d` looks like `s` to the API. */
  ghost predicate Shows(d: Disk, s: Server)
  {
    && AreRows(s.rows) && (forall id <- Ids(s.rows) :: IsFileId(id))
    && (MANIFEST_NAME in d ==> d[MANIFEST_NAME].Text?) && ManifestText(d) == Render(s.rows)
    && (forall id <- s.blobs.Keys + s.metas :: IsFileId(id))
    && (forall id | IsFileId(id) :: id in s.blobs <==> id in d)
    && (forall id <- s.blobs :: d[id] == Binary(s.blobs[id]))
    && (forall id | IsFileId(id) :: id in s.metas <==> MetaName(id) in d)
  }

  /** The manifest a client fetches parses to the rows of the view. */
  lemma ShowsRows(d: Disk, s: Server)
    requires Shows(d, s)
    ensures ParsedManifest(d) == Ok(s.rows)
  {
    ParsesRendered(s.rows);
  }

  lemma NamesApart(a: string, b: string)
    requires IsFileId(a) && IsFileId(b)
    ensures a != MANIFEST_NAME && a != MANIFEST_TMP && MetaName(a) != MANIFEST_NAME && MetaName(a) != MANIFEST_TMP
    ensures a != TmpName(b) && a != MetaName(b) && MetaName(a) != TmpName(b) && TmpName(b) != MANIFEST_NAME
    ensures MetaName(a) == MetaName(b) ==> a == b
  {
    FileIdIsPlain(a);
    FileIdIsPlain(b);
    assert MetaName(a)[37] == 'j' && TmpName(b)[37] == 't';
    assert MetaName(a)[..36] == a && MetaName(b)[..36] == b;
  }

  lemma PlaceShows(d: Disk, s: Server, id: string, blob: bytes)
    requires Shows(d, s) && IsFileId(id)
    ensures Shows((d - {TmpName(id)})[id := Binary(blob)], Placed(s, id, blob))
  {
    forall x | IsFileId(x) ensures x != TmpName(id) && MetaName(x) != TmpName(id) && MetaName(x) != id {
      NamesApart(x, id);
      NamesApart(id, x);
    }
    NamesApart(id, id);
  }

  lemma AddRowShows(d: Disk, s: Server, r: Row)
    requires Shows(d, s) && IsFileId(r.id) && IsToken(r.b64)
    ensures Shows(d[MANIFEST_NAME := Text(ManifestText(d) + Line(r))], WithRow(s, r))
  {
    FileIdIsPlain(r.id);
    RenderSnoc(s.rows, r);
    IdsSnoc(s.rows, r);
    forall x | IsFileId(x) ensures x != MANIFEST_NAME && MetaName(x) != MANIFEST_NAME {
      NamesApart(x, x);
    }
  }

  /** Publishing a file leaves exactly its blob and its row on the server, beside what was there. */
  lemma AppendShows(d: Disk, s: Server, id: string, blob: bytes, b64: string)
    requires Shows(d, s) && IsFileId(id) && IsToken(b64)
    ensures Shows(Appended(d, id, blob, b64), WithRow(Placed(s, id, blob), Row(id, b64)))
  {
    var d1 := (d - {TmpName(id)})[id := Binary(blob)];
    PlaceShows(d, s, id, blob);
    NamesApart(id, id);
    assert ManifestText(d1) == ManifestText(d);
    AddRowShows(d1, Placed(s, id, blob), Row(id, b64));
  }

  lemma MetaShows(d: Disk, s: Server, id: string, json: string)
    requires Shows(d, s) && IsFileId(id)
    ensures Shows(d[MetaName(id) := Text(json)], WithMeta(s, id))
  {
    NamesApart(id, id);
    forall x | IsFileId(x) ensures x != MetaName(id) && (MetaName(x) == MetaName(id) ==> x == id) {
      NamesApart(x, id);
    }
  }

  /** `delete_completed` answers and acts as the view says. */
  lemma DeleteShows(d: Disk, s: Server, id: string)
    requires Shows(d, s) && IsFileId(id)
    ensures Exists(d, id) <==> Present(s, id)
    ensures Shows(Deleted(d, id), Removed(s, id))
  {
    FileLinesRendered(s.rows);
    HasLineRendered(s.rows, id);
    WithoutKeeps(s.rows, id);
    NamesApart(id, id);
    if Exists(d, id) {
      RewriteShows(d, s, id);
    } else {
      assert Removed(s, id) == s;
    }
  }

  /** A rewrite without the id, after its blob and metadata went, changes no other name of a file. */
  lemma RewriteNames(d: Disk, id: string, x: string)
    requires IsFileId(id) && IsFileId(x)
    ensures x in Rewritten(d - {id} - {MetaName(id)}, id) <==> x in d && x != id
    ensures MetaName(x) in Rewritten(d - {id} - {MetaName(id)}, id) <==> MetaName(x) in d && x != id
  {
    NamesApart(x, id);
    NamesApart(id, x);
  }

  lemma RewrittenText(d: Disk, id: string)
    requires IsFileId(id) && (MANIFEST_NAME in d ==> d[MANIFEST_NAME].Text?)
    ensures var d' := Rewritten(d - {id} - {MetaName(id)}, id);
            && (MANIFEST_NAME in d' <==> MANIFEST_NAME in d)
            && (MANIFEST_NAME in d ==> d'[MANIFEST_NAME] == Text(KeptLines(FileLines(ManifestText(d)), id)))
  {
    NamesApart(id, id);
    assert ManifestText(d - {id} - {MetaName(id)}) == ManifestText(d);
  }

  lemma RewriteText(d: Disk, s: Server, id: string)
    requires AreRows(s.rows) && ManifestText(d) == Render(s.rows) && IsFileId(id)
    requires MANIFEST_NAME in d ==> d[MANIFEST_NAME].Text?
    ensures var d' := Rewritten(d - {id} - {MetaName(id)}, id);
            && ManifestText(d') == Render(Without(s.rows, id))
            && (MANIFEST_NAME in d' ==> d'[MANIFEST_NAME].Text?)
  {
    RewrittenText(d, id);
    KeptText(s.rows, id);
    RenderEmpty(s.rows);
  }

  lemma RewriteBlobs(d: Disk, id: string, x: string)
    requires IsFileId(id) && IsFileId(x) && x != id && x in d
    ensures var d' := Rewritten(d - {id} - {MetaName(id)}, id); x in d' && d'[x] == d[x]
  {
    NamesApart(x, id);
  }

  lemma RewriteShows(d: Disk, s: Server, id: string)
    requires Shows(d, s) && IsFileId(id)
    ensures Shows(Rewritten(d - {id} - {MetaName(id)}, id), Removed(s, id))
  {
    WithoutKeeps(s.rows, id);
    RewriteText(d, s, id);
    var d' := Rewritten(d - {id} - {MetaName(id)}, id);
    forall x | IsFileId(x)
      ensures x in d' <==> x in d && x != id
      ensures MetaName(x) in d' <==> MetaName(x) in d && x != id
    {
      RewriteNames(d, id, x);
    }
    forall x | x in Removed(s, id).blobs
      ensures x in d' && d'[x] == Binary(s.blobs[x])
    {
      RewriteBlobs(d, id, x);
    }
  }
}
