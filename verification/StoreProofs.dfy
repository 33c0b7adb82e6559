/** What the completed directory keeps over runs of publishing and deleting, crashes included. */
module StoreProofs {
  import opened Bytes
  import opened Text
  import opened TextProofs
  import opened Manifest
  import opened Store

  // ----- the manifest as rows -----

  function Without(rows: seq<Row>, id: string): seq<Row>
  {
    if rows == [] then []
    else (if rows[0].id == id then [] else [rows[0]]) + Without(rows[1..], id)
  }

  function Ids(rows: seq<Row>): set<string>
  {
    set i | 0 <= i < |rows| :: rows[i].id
  }

  /** The prefix test on lines selects exactly the row of that id, also when one id begins another. */
  lemma LineOfExactly(r: Row, id: string)
    requires IsRow(r)
    ensures LineOf(Line(r), id) <==> r.id == id
  {
    var line := Line(r);
    assert '\t' !in r.id && '\t' !in r.b64;
    assert line[|r.id|] == '\t' && line[..|r.id|] == r.id;
    assert forall k | 0 <= k < |line| && line[k] == '\t' :: k == |r.id|;
    if LineOf(line, id) {
      assert line[|id|] == (id + "\t")[|id|] == '\t';
      assert line[..|id|] == id;
    }
    if r.id == id {
      assert line[..|id| + 1] == id + "\t";
    }
  }

  function Lines(rows: seq<Row>): (r: seq<string>)
    ensures |r| == |rows| && forall i | 0 <= i < |rows| :: r[i] == Line(rows[i])
  {
    seq(|rows|, i requires 0 <= i < |rows| => Line(rows[i]))
  }

  lemma FirstFileLine(r: Row, rest: string)
    requires IsRow(r)
    ensures FileLines(Line(r) + rest) == [Line(r)] + FileLines(rest)
  {
    var body := r.id + "\t" + r.b64;
    var text := Line(r) + rest;
    assert '\n' !in body;
    assert text == body + ['\n'] + rest;
    IndexOfFirst(body, '\n', rest);
    assert text[..|body| + 1] == Line(r) && text[|body| + 1..] == rest;
  }

  lemma RenderFirst(rows: seq<Row>, tail: string)
    requires rows != []
    ensures Render(rows) + tail == Line(rows[0]) + (Render(rows[1..]) + tail)
  {
    Regroup(Line(rows[0]), Render(rows[1..]), tail);
  }

  lemma LinesFirst(rows: seq<Row>, more: seq<string>)
    requires rows != []
    ensures Lines(rows) + more == [Line(rows[0])] + (Lines(rows[1..]) + more)
  {
  }

  /** Reading a text that begins with rows gives their lines first, whatever follows. */
  lemma {:induction false} FileLinesBegin(rows: seq<Row>, tail: string)
    requires AreRows(rows)
    ensures FileLines(Render(rows) + tail) == Lines(rows) + FileLines(tail)
  {
    if rows == [] {
      assert "" + tail == tail;
    } else {
      RenderFirst(rows, tail);
      FirstFileLine(rows[0], Render(rows[1..]) + tail);
      FileLinesBegin(rows[1..], tail);
      LinesFirst(rows, FileLines(tail));
    }
  }

  lemma FileLinesRendered(rows: seq<Row>)
    requires AreRows(rows)
    ensures FileLines(Render(rows)) == Lines(rows)
  {
    FileLinesBegin(rows, "");
    assert Render(rows) + "" == Render(rows);
  }

  lemma {:induction false} KeptLinesRendered(rows: seq<Row>, id: string)
    requires AreRows(rows)
    ensures KeptLines(Lines(rows), id) == Render(Without(rows, id))
  {
    if rows != [] {
      LineOfExactly(rows[0], id);
      KeptLinesRendered(rows[1..], id);
      assert Lines(rows)[1..] == Lines(rows[1..]);
      if rows[0].id == id {
        assert Without(rows, id) == Without(rows[1..], id);
      } else {
        assert Without(rows, id) == [rows[0]] + Without(rows[1..], id);
      }
    }
  }

  lemma KeptText(rows: seq<Row>, id: string)
    requires AreRows(rows)
    ensures KeptLines(FileLines(Render(rows)), id) == Render(Without(rows, id))
  {
    FileLinesRendered(rows);
    KeptLinesRendered(rows, id);
  }

  lemma HasLineRendered(rows: seq<Row>, id: string)
    requires AreRows(rows)
    ensures HasLine(Lines(rows), id) <==> id in Ids(rows)
  {
    forall i | 0 <= i < |rows| ensures LineOf(Lines(rows)[i], id) <==> rows[i].id == id {
      LineOfExactly(rows[i], id);
    }
  }

  lemma {:induction false} WithoutKeeps(rows: seq<Row>, id: string)
    ensures Ids(Without(rows, id)) == Ids(rows) - {id}
    ensures AreRows(rows) ==> AreRows(Without(rows, id))
    ensures forall r | r in Without(rows, id) :: r in rows
    ensures id !in Ids(rows) ==> Without(rows, id) == rows
  {
    if rows == [] {
      assert Ids(rows) == {};
    } else {
      WithoutKeeps(rows[1..], id);
      assert rows == [rows[0]] + rows[1..];
      IdsCons(rows[0], rows[1..]);
      if rows[0].id == id {
        assert Without(rows, id) == Without(rows[1..], id);
      } else {
        IdsCons(rows[0], Without(rows[1..], id));
        assert Without(rows, id) == [rows[0]] + Without(rows[1..], id);
      }
    }
  }

  lemma IdsCons(r: Row, rows: seq<Row>)
    ensures Ids([r] + rows) == {r.id} + Ids(rows)
  {
    var all := [r] + rows;
    assert all[0] == r;
    forall x | x in {r.id} + Ids(rows) ensures x in Ids(all) {
      if x != r.id {
        var i :| 0 <= i < |rows| && rows[i].id == x;
        assert all[i + 1].id == x;
      }
    }
  }

  lemma IdsSnoc(rows: seq<Row>, r: Row)
    ensures Ids(rows + [r]) == Ids(rows) + {r.id}
  {
    var all := rows + [r];
    assert all[|rows|] == r;
    forall x | x in Ids(rows) ensures x in Ids(all) {
      var i :| 0 <= i < |rows| && rows[i].id == x;
      assert all[i].id == x;
    }
  }

  lemma {:induction false} RenderSnoc(rows: seq<Row>, r: Row)
    ensures Render(rows + [r]) == Render(rows) + Line(r)
  {
    if rows == [] {
      assert [] + [r] == [r];
    } else {
      RenderSnoc(rows[1..], r);
      assert (rows + [r])[1..] == rows[1..] + [r];
      Regroup(Line(rows[0]), Render(rows[1..]), Line(r));
    }
  }

  // ----- refinement -----

  /** The directory holds exactly these finished files: their rows in order, and their blobs. */
  ghost predicate Holds(d: Disk, rows: seq<Row>)
  {
    && AreRows(rows) && (forall id <- Ids(rows) :: IsFileId(id))
    && (MANIFEST_NAME in d ==> d[MANIFEST_NAME].Text?)
    && ManifestText(d) == Render(rows)
    && ListedIds(d) == Ids(rows)
  }

  lemma HoldsParses(d: Disk, rows: seq<Row>)
    requires Holds(d, rows)
    ensures ParsedManifest(d) == Ok(rows)
    ensures forall id :: Exists(d, id) <==> id in d || MetaName(id) in d || id in Ids(rows)
  {
    ParsesRendered(rows);
    FileLinesRendered(rows);
    forall id ensures HasLine(FileLines(ManifestText(d)), id) <==> id in Ids(rows) {
      HasLineRendered(rows, id);
    }
  }

  lemma SuffixedNotListed(id: string)
    requires id != ""
    ensures !Listed(TmpName(id)) && !Listed(MetaName(id)) && !Listed(MANIFEST_TMP) && !Listed(MANIFEST_NAME)
  {
    forall name | name == TmpName(id) || name == MetaName(id) ensures LastDot(name) == |id| {
      var n := |name|;
      assert name[|id|] == '.';
      assert forall k | |id| < k < n :: name[k] != '.';
    }
    assert TmpName(id)[|id|..] == ".tmp" && MetaName(id)[|id|..] == ".json";
    assert MANIFEST_TMP[|MANIFEST_TMP| - 7..] == ".db.tmp";
  }

  lemma AppendRefines(d: Disk, rows: seq<Row>, id: string, blob: bytes, b64: string)
    requires Holds(d, rows) && IsFileId(id) && id !in Ids(rows) && IsToken(b64)
    ensures Holds(Appended(d, id, blob, b64), rows + [Row(id, b64)])
  {
    var d' := Appended(d, id, blob, b64);
    FileIdIsPlain(id);
    SuffixedNotListed(id);
    RenderSnoc(rows, Row(id, b64));
    IdsSnoc(rows, Row(id, b64));
    assert ListedIds(d') == ListedIds(d) + {id};
  }

  /**
    Deleting any name but the manifest's own keeps every other row, and the listing agrees. The
    name may be unknown, a metadata name, or a part or extension of a real id.
   */
  lemma DeleteRefines(d: Disk, rows: seq<Row>, id: string)
    requires Holds(d, rows) && id != "" && id != MANIFEST_NAME
    ensures Holds(Deleted(d, id), Without(rows, id))
  {
    HoldsParses(d, rows);
    WithoutKeeps(rows, id);
    if Exists(d, id) {
      assert MetaName(id)[|id| + 4] == 'n';
      DeletedText(d, rows, id);
      DeletedListing(d, id);
    }
  }

  lemma DeletedText(d: Disk, rows: seq<Row>, id: string)
    requires Holds(d, rows) && id != MANIFEST_NAME && MetaName(id) != MANIFEST_NAME
    ensures ManifestText(Rewritten(d - {id} - {MetaName(id)}, id)) == Render(Without(rows, id))
  {
    assert ManifestText(d - {id} - {MetaName(id)}) == ManifestText(d);
    FileLinesRendered(rows);
    KeptLinesRendered(rows, id);
    RenderEmpty(rows);
  }

  lemma DeletedListing(d: Disk, id: string)
    requires id != ""
    ensures ListedIds(Rewritten(d - {id} - {MetaName(id)}, id)) == ListedIds(d) - {id}
  {
    SuffixedNotListed(id);
  }

  lemma RenderEmpty(rows: seq<Row>)
    ensures rows != [] ==> Render(rows) != ""
  {
    if rows != [] {
      assert |Render(rows)| >= |Line(rows[0])| > 0;
    }
  }

  /**
    The manifest is itself a file of the directory, so the one name on which a delete takes other
    rows with it is the manifest's own, and it does so exactly when there is a row to lose.
   */
  lemma DeleteKeepsOtherRowsExactly(d: Disk, rows: seq<Row>, id: string)
    requires Holds(d, rows) && id != ""
    ensures ParsedManifest(Deleted(d, id)) == Ok(Without(rows, id)) <==> id != MANIFEST_NAME || rows == []
  {
    if id != MANIFEST_NAME {
      DeleteRefines(d, rows, id);
      HoldsParses(Deleted(d, id), Without(rows, id));
    } else {
      assert ManifestText(Deleted(d, id)) == "" by {
        HoldsParses(d, rows);
        if MANIFEST_NAME !in d {
          RenderEmpty(rows);
        }
      }
      assert ParsedManifest(Deleted(d, id)) == Ok([]);
      WithoutKeeps(rows, id);
      if rows != [] {
        assert rows[0].id in Ids(rows);
        FileIdIsPlain(rows[0].id);
        assert id !in Ids(rows) by {
          if id in Ids(rows) { FileIdIsPlain(id); }
        }
      }
    }
  }

  // ----- runs -----

  datatype Op =
    | Publish(id: string, blob: bytes, b64: string)
    | Remove(id: string)
    | Duration(id: string, json: string)

  function Apply(d: Disk, op: Op): Disk
  {
    match op
    case Publish(id, blob, b64) => Appended(d, id, blob, b64)
    case Remove(id) => Deleted(d, id)
    case Duration(id, json) => d[MetaName(id) := Text(json)]
  }

  function ApplyRows(rows: seq<Row>, op: Op): seq<Row>
  {
    match op
    case Publish(id, _, b64) => rows + [Row(id, b64)]
    case Remove(id) => Without(rows, id)
    case Duration(_, _) => rows
  }

  function Run(d: Disk, ops: seq<Op>): Disk
  {
    if ops == [] then d else Apply(Run(d, ops[..|ops| - 1]), ops[|ops| - 1])
  }

  function RunRows(rows: seq<Row>, ops: seq<Op>): seq<Row>
  {
    if ops == [] then rows else ApplyRows(RunRows(rows, ops[..|ops| - 1]), ops[|ops| - 1])
  }

  /** Ids are fresh UUIDs, and nobody deletes the manifest by name. */
  ghost predicate Serviceable(rows: seq<Row>, ops: seq<Op>)
  {
    ops != [] ==>
      var before := ops[..|ops| - 1];
      && Serviceable(rows, before)
      && match ops[|ops| - 1]
         case Publish(id, _, b64) => IsFileId(id) && id !in Ids(RunRows(rows, before)) && IsToken(b64)
         case Remove(id) => id != "" && id != MANIFEST_NAME
         case Duration(id, _) => IsFileId(id)
  }

  /**
    After any run of publishing and deleting, the parsed manifest is the surviving rows in the order
    they were appended, and the web listing shows the same ids.
   */
  lemma {:induction false} StoreRefines(d: Disk, rows: seq<Row>, ops: seq<Op>)
    requires Holds(d, rows) && Serviceable(rows, ops)
    ensures Holds(Run(d, ops), RunRows(rows, ops))
    ensures ParsedManifest(Run(d, ops)) == Ok(RunRows(rows, ops))
    ensures ListedIds(Run(d, ops)) == Ids(RunRows(rows, ops))
    decreases |ops|
  {
    if ops != [] {
      var before := ops[..|ops| - 1];
      StoreRefines(d, rows, before);
      var d1, rows1 := Run(d, before), RunRows(rows, before);
      match ops[|ops| - 1] {
        case Publish(id, blob, b64) => AppendRefines(d1, rows1, id, blob, b64);
        case Remove(id) => DeleteRefines(d1, rows1, id);
        case Duration(id, json) =>
          SuffixedNotListed(id);
          FileIdIsPlain(id);
          assert ListedIds(d1[MetaName(id) := Text(json)]) == ListedIds(d1);
      }
    }
    HoldsParses(Run(d, ops), RunRows(rows, ops));
  }

  // ----- crashes -----

  lemma SameOutside(d: Disk, d': Disk, names: set<string>, n: string)
    requires d' - names == d - names && n !in names
    ensures n in d' <==> n in d
    ensures n in d ==> d'[n] == d[n]
  {
    assert n in d <==> n in d - names;
    assert n in d' <==> n in d' - names;
  }

  /** A crash before the row is committed leaves the manifest as it was: no row without a blob. */
  lemma PublishCrash(d: Disk, d': Disk, rows: seq<Row>, id: string)
    requires Holds(d, rows) && IsFileId(id) && id !in Ids(rows)
    requires d' - {TmpName(id), id} == d - {TmpName(id), id}
    ensures ParsedManifest(d') == Ok(rows)
    ensures ListedIds(d') - {id} == Ids(rows)
    ensures forall x <- Ids(rows) :: x in d' && x in d && d'[x] == d[x]
  {
    var names := {TmpName(id), id};
    FileIdIsPlain(id);
    SuffixedNotListed(id);
    HoldsParses(d, rows);
    SameOutside(d, d', names, MANIFEST_NAME);
    forall n ensures n in ListedIds(d') - {id} <==> n in ListedIds(d) {
      if n !in names {
        SameOutside(d, d', names, n);
      }
    }
    forall x | x in Ids(rows) ensures x in d' && x in d && d'[x] == d[x] {
      assert x in ListedIds(d);
      SameOutside(d, d', names, x);
    }
  }

  /**
    A crash inside a delete can always be finished: deleting again reaches the very disk the
    undisturbed delete would have left, and reports success unless nothing of the file was left.
   */
  lemma DeleteRestartable(d0: Disk, d: Disk, rows: seq<Row>, id: string)
    requires Holds(d0, rows) && id != "" && id != MANIFEST_NAME && id != MANIFEST_TMP
    requires Exists(d0, id) && PartlyDeleted(d0, d, id)
    ensures Deleted(d, id) - {MANIFEST_TMP} == Deleted(d0, id) - {MANIFEST_TMP}
    ensures Exists(d, id) || d - {MANIFEST_TMP} == Deleted(d0, id) - {MANIFEST_TMP}
  {
    var names := {id, MetaName(id), MANIFEST_TMP};
    assert MetaName(id)[|id| + 4] == 'n';
    assert MANIFEST_NAME !in names;
    assert MANIFEST_NAME in d <==> MANIFEST_NAME in d - names;
    assert MANIFEST_NAME in d0 <==> MANIFEST_NAME in d0 - names;
    assert MANIFEST_NAME in d ==> d[MANIFEST_NAME] == (d - names)[MANIFEST_NAME] == (d0 - names)[MANIFEST_NAME];
    var e, e0 := d - {id} - {MetaName(id)}, d0 - {id} - {MetaName(id)};
    assert e - {MANIFEST_TMP} == d - names && e0 - {MANIFEST_TMP} == d0 - names;
    assert ManifestText(e) == ManifestText(e0) == Render(rows);
    assert Rewritten(e, id) - {MANIFEST_TMP} == Rewritten(e0, id) - {MANIFEST_TMP};
    if !Exists(d, id) {
      FileLinesRendered(rows);
      HasLineRendered(rows, id);
      KeptLinesRendered(rows, id);
      WithoutKeeps(rows, id);
      assert d - {MANIFEST_TMP} == e - {MANIFEST_TMP};
    }
  }

  /**
    Deleting twice: the second delete reports success exactly when the duration metadata was
    written in between, which is what lets two clients both believe they took the file.
   */
  lemma SecondDelete(d: Disk, rows: seq<Row>, id: string, late: bool, json: string)
    requires Holds(d, rows) && IsFileId(id) && Exists(d, id)
    ensures var d1 := Deleted(d, id);
            var d2 := if late then d1[MetaName(id) := Text(json)] else d1;
            Exists(d2, id) <==> late
  {
    FileIdIsPlain(id);
    DeleteRefines(d, rows, id);
    var d1 := Deleted(d, id);
    HoldsParses(d1, Without(rows, id));
    WithoutKeeps(rows, id);
    assert id !in ListedIds(d1);
  }
}
