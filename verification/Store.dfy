/**
  The completed directory: encrypted blobs named by file id, duration metadata, the manifest. Every
  disk write is one step of `Directory`, whose ghost trace holds the disk after each step, so a
  contract over the trace speaks about a crash between any two writes.
 */
module Store {
  import opened Bytes
  import opened Crypto
  import opened Text
  import opened Manifest
  import Codec

  const MANIFEST_NAME := "manifest.db"
  const MANIFEST_TMP := "manifest.db.tmp"
  const PAIR_NAME := "pair.json"

  datatype File = Binary(data: bytes) | Text(text: string)
  type Disk = map<string, File>

  function MetaName(id: string): string { id + ".json" }
  function TmpName(id: string): string { id + ".tmp" }

  /** File ids are UUID strings. */
  predicate IsFileId(s: string)
  {
    |s| == 36 && forall i | 0 <= i < 36 :: s[i] == '-' || '0' <= s[i] <= '9' || 'a' <= s[i] <= 'f'
  }

  /** Whether the web listing shows a file of this name. */
  predicate Listed(name: string)
  {
    && name != MANIFEST_NAME
    && Suffix(name) != ".json" && Suffix(name) != ".tmp"
    && !(|name| >= 7 && name[|name| - 7..] == ".db.tmp")
    && name != PAIR_NAME
  }

  function ListedIds(d: Disk): set<string>
  {
    set n | n in d && Listed(n)
  }

  // ----- what the operations do to the disk -----

  function ManifestText(d: Disk): string
  {
    if MANIFEST_NAME in d && d[MANIFEST_NAME].Text? then d[MANIFEST_NAME].text else ""
  }

  /** What a client reads off the manifest. */
  function ParsedManifest(d: Disk): Parsed<seq<Row>>
  {
    ParseLines(SplitLines(ManifestText(d)))
  }

  predicate LineOf(line: string, id: string)
  {
    id + "\t" <= line
  }

  predicate HasLine(lines: seq<string>, id: string)
  {
    exists i | 0 <= i < |lines| :: LineOf(lines[i], id)
  }

  function KeptLines(lines: seq<string>, id: string): string
  {
    if lines == [] then ""
    else (if LineOf(lines[0], id) then "" else lines[0]) + KeptLines(lines[1..], id)
  }

  function Appended(d: Disk, id: string, blob: bytes, b64: string): Disk
  {
    (d - {TmpName(id)})[id := Binary(blob)]
      [MANIFEST_NAME := Text(ManifestText(d) + Line(Row(id, b64)))]
  }

  predicate Exists(d: Disk, id: string)
  {
    id in d || MetaName(id) in d || HasLine(FileLines(ManifestText(d)), id)
  }

  function Rewritten(d: Disk, id: string): Disk
  {
    if MANIFEST_NAME !in d then d
    else (d - {MANIFEST_TMP})[MANIFEST_NAME := Text(KeptLines(FileLines(ManifestText(d)), id))]
  }

  function Deleted(d: Disk, id: string): Disk
  {
    if Exists(d, id) then Rewritten(d - {id} - {MetaName(id)}, id) else d
  }

  // ----- the imperative store -----

  class Directory {
    var files: Disk
    ghost var trace: seq<Disk>

    constructor (files: Disk)
      ensures this.files == files && trace == []
    {
      this.files := files;
      this.trace := [];
    }

    method Write(name: string, f: File)
      modifies this
      ensures files == old(files)[name := f] && trace == old(trace) + [files]
    {
      files := files[name := f];
      trace := trace + [files];
    }

    /** Renames `source` over `target`. */
    method Replace(source: string, target: string)
      requires source in files && source != target
      modifies this
      ensures files == (old(files) - {source})[target := old(files)[source]] && trace == old(trace) + [files]
    {
      files := (files - {source})[target := files[source]];
      trace := trace + [files];
    }

    method Unlink(name: string)
      modifies this
      ensures files == old(files) - {name} && trace == old(trace) + [files]
    {
      files := files - {name};
      trace := trace + [files];
    }
  }

  /** Every one of these disks equals `d0` outside the given names. */
  ghost predicate Within(steps: seq<Disk>, d0: Disk, names: set<string>)
  {
    forall i | 0 <= i < |steps| :: steps[i] - names == d0 - names
  }

  /** Encrypts into a temporary file and renames it into place; a failure leaves no temporary file. */
  method PlaceBlob(dir: Directory, s: Suite, id: string, source: bytes, key: bytes, base: bytes, seed: bytes)
    returns (r: Codec.Result<nat>, ghost steps: seq<Disk>)
    requires RsaSound(s) && TagLength(s) && |key| == 32 && |base| == 12
    modifies dir
    ensures r.Ok? <==> Codec.Encryptable(source)
    ensures r.Ok? ==> dir.files == (old(dir.files) - {TmpName(id)})[id := Binary(Codec.FileBlob(s, key, base, seed, source))]
    ensures r.Err? ==> dir.files == old(dir.files) - {TmpName(id)}
    ensures dir.trace == old(dir.trace) + steps && |steps| > 0 && steps[|steps| - 1] == dir.files
    ensures Within(steps, old(dir.files), {TmpName(id), id})
  {
    var tmp := TmpName(id);
    dir.Write(tmp, Binary([]));
    steps := [dir.files];
    var data, reports;
    r, data, reports := Codec.EncryptFile(s, source, key, base, seed);
    dir.Write(tmp, Binary(data));
    steps := steps + [dir.files];
    if r.Err? {
      dir.Unlink(tmp);
    } else {
      dir.Replace(tmp, id);
    }
    steps := steps + [dir.files];
  }

  /**
    Encrypts a blob under its id, then appends its manifest row. `steps` are the disks after each
    write: until the last one commits the row, the disk differs from the old one at most in the
    temporary file and in a blob that no row names.
   */
  method AppendCompleted(dir: Directory, s: Suite, t: TextCodec, id: string, name: string, source: bytes,
                         key: bytes, base: bytes, seed: bytes, lineKey: bytes, lineNonce: bytes, lineSeed: bytes)
    returns (r: Codec.Result<nat>, ghost steps: seq<Disk>)
    requires RsaSound(s) && TagLength(s) && |key| == 32 && |base| == 12 && |lineKey| == 32 && |lineNonce| == 12
    requires IsFileId(id)
    modifies dir
    ensures r.Ok? <==> Codec.Encryptable(source)
    ensures r.Ok? ==>
              dir.files == Appended(old(dir.files), id, Codec.FileBlob(s, key, base, seed, source),
                                    EncryptPayload(s, t, Payload(id, name), lineKey, lineNonce, lineSeed))
    ensures r.Err? ==> dir.files == old(dir.files) - {TmpName(id)}
    ensures dir.trace == old(dir.trace) + steps && |steps| > 0 && steps[|steps| - 1] == dir.files
    ensures Within(steps[..|steps| - 1], old(dir.files), {TmpName(id), id})
  {
    r, steps := PlaceBlob(dir, s, id, source, key, base, seed);
    if r.Err? {
      return;
    }
    var b64 := EncryptPayload(s, t, Payload(id, name), lineKey, lineNonce, lineSeed);
    FileIdIsPlain(id);
    dir.Write(MANIFEST_NAME, Text(ManifestText(dir.files) + Line(Row(id, b64))));
    steps := steps + [dir.files];
  }

  /** Overwrites the file in place, twice, then unlinks it. */
  method SecureDelete(dir: Directory, name: string, noise: bytes, zeros: bytes)
    returns (ghost steps: seq<Disk>)
    modifies dir
    ensures dir.files == old(dir.files) - {name}
    ensures dir.trace == old(dir.trace) + steps && Within(steps, old(dir.files), {name})
    ensures name !in old(dir.files) ==> steps == []
    ensures name in old(dir.files) ==>
              steps == [old(dir.files)[name := Binary(noise)], old(dir.files)[name := Binary(zeros)], dir.files]
  {
    steps := [];
    if name in dir.files {
      dir.Write(name, Binary(noise));
      steps := steps + [dir.files];
      dir.Write(name, Binary(zeros));
      assert dir.files == old(dir.files)[name := Binary(zeros)];
      steps := steps + [dir.files];
      dir.Unlink(name);
      assert dir.files == old(dir.files) - {name};
      steps := steps + [dir.files];
    } else {
      assert dir.files == dir.files - {name};
    }
  }

  method WriteDuration(dir: Directory, id: string, json: string)
    modifies dir
    ensures dir.files == old(dir.files)[MetaName(id) := Text(json)]
    ensures dir.trace == old(dir.trace) + [dir.files]
  {
    dir.Write(MetaName(id), Text(json));
  }

  method ManifestHas(dir: Directory, id: string) returns (found: bool)
    ensures found == HasLine(FileLines(ManifestText(dir.files)), id)
  {
    if MANIFEST_NAME !in dir.files {
      return false;
    }
    var lines := FileLines(ManifestText(dir.files));
    for i := 0 to |lines|
      invariant forall j | 0 <= j < i :: !LineOf(lines[j], id)
    {
      if LineOf(lines[i], id) {
        return true;
      }
    }
    return false;
  }

  /** Copies the manifest line by line to a temporary file, without the lines of `id`, and renames it. */
  method RewriteManifestWithout(dir: Directory, id: string)
    returns (ghost steps: seq<Disk>)
    modifies dir
    ensures dir.files == Rewritten(old(dir.files), id)
    ensures dir.trace == old(dir.trace) + steps
    ensures MANIFEST_NAME !in old(dir.files) ==> steps == []
    ensures MANIFEST_NAME in old(dir.files) ==>
              && |steps| > 0 && steps[|steps| - 1] == dir.files
              && Within(steps[..|steps| - 1], old(dir.files), {MANIFEST_TMP})
  {
    steps := [];
    if MANIFEST_NAME !in dir.files {
      return;
    }
    ghost var before := dir.files;
    var lines := FileLines(ManifestText(dir.files));
    steps := CopyLines(dir, lines, id);
    dir.Replace(MANIFEST_TMP, MANIFEST_NAME);
    assert dir.files == Rewritten(before, id);
    steps := steps + [dir.files];
  }

  method CopyLines(dir: Directory, lines: seq<string>, id: string)
    returns (ghost steps: seq<Disk>)
    modifies dir
    ensures dir.files == old(dir.files)[MANIFEST_TMP := Text(KeptLines(lines, id))]
    ensures dir.trace == old(dir.trace) + steps && Within(steps, old(dir.files), {MANIFEST_TMP})
  {
    var kept := "";
    dir.Write(MANIFEST_TMP, Text(kept));
    steps := [dir.files];
    assert lines[0..] == lines;
    for i := 0 to |lines|
      invariant dir.files == old(dir.files)[MANIFEST_TMP := Text(kept)]
      invariant dir.trace == old(dir.trace) + steps && Within(steps, old(dir.files), {MANIFEST_TMP})
      invariant KeptLines(lines, id) == kept + KeptLines(lines[i..], id)
    {
      assert lines[i..][1..] == lines[i + 1..];
      if !LineOf(lines[i], id) {
        kept := kept + lines[i];
        dir.Write(MANIFEST_TMP, Text(kept));
        steps := steps + [dir.files];
      }
    }
    assert lines[|lines|..] == [] && kept + "" == kept;
  }

  /**
    A disk seen inside a delete: only the blob, its metadata and the temporary manifest may differ
    from the old disk, and nothing has been created under the id.
   */
  ghost predicate PartlyDeleted(d0: Disk, d: Disk, id: string)
  {
    && d - {id, MetaName(id), MANIFEST_TMP} == d0 - {id, MetaName(id), MANIFEST_TMP}
    && (id in d ==> id in d0) && (MetaName(id) in d ==> MetaName(id) in d0)
  }

  /** Every disk on the way of a delete is partly deleted, or already the last one. */
  ghost predicate DeletePath(d0: Disk, steps: seq<Disk>, last: Disk, id: string)
  {
    forall d <- steps :: d == last || PartlyDeleted(d0, d, id)
  }

  /** The content is overwritten twice, the second time with zeros, before anything is unlinked. */
  ghost predicate Overwrites(d0: Disk, steps: seq<Disk>, id: string, noise: bytes, zeros: bytes)
  {
    |steps| >= 3 && steps[..3] == [d0[id := Binary(noise)], d0[id := Binary(zeros)], d0 - {id}]
  }

  /** Wipes the blob, drops the metadata, then drops the manifest row. */
  method DeleteCompleted(dir: Directory, id: string, noise: bytes, zeros: bytes)
    returns (existed: bool, ghost steps: seq<Disk>)
    modifies dir
    ensures existed == Exists(old(dir.files), id)
    ensures dir.files == Deleted(old(dir.files), id)
    ensures dir.trace == old(dir.trace) + steps
    ensures id in old(dir.files) ==> Overwrites(old(dir.files), steps, id, noise, zeros)
    ensures id != MANIFEST_TMP ==> DeletePath(old(dir.files), steps, dir.files, id)
  {
    var hasLine := ManifestHas(dir, id);
    existed := id in dir.files || MetaName(id) in dir.files || hasLine;
    steps := [];
    if existed {
      steps := Wipe(dir, id, noise, zeros);
    }
  }

  method Wipe(dir: Directory, id: string, noise: bytes, zeros: bytes)
    returns (ghost steps: seq<Disk>)
    modifies dir
    ensures dir.files == Rewritten(old(dir.files) - {id} - {MetaName(id)}, id)
    ensures dir.trace == old(dir.trace) + steps
    ensures id in old(dir.files) ==> Overwrites(old(dir.files), steps, id, noise, zeros)
    ensures id != MANIFEST_TMP ==> DeletePath(old(dir.files), steps, dir.files, id)
  {
    ghost var d0 := dir.files;
    ghost var s1 := SecureDelete(dir, id, noise, zeros);
    dir.Unlink(MetaName(id));
    ghost var d2 := dir.files;
    ghost var s3 := RewriteManifestWithout(dir, id);
    steps := s1 + [d2] + s3;
    if id != MANIFEST_TMP {
      DeleteStepsPartial(d0, s1, d2, s3, id);
    }
  }

  lemma DeleteStepsPartial(d0: Disk, s1: seq<Disk>, d2: Disk, s3: seq<Disk>, id: string)
    requires id != MANIFEST_TMP && Within(s1, d0, {id}) && (id !in d0 ==> s1 == [])
    requires d2 == d0 - {id} - {MetaName(id)}
    requires s3 != [] ==> Within(s3[..|s3| - 1], d2, {MANIFEST_TMP})
    ensures DeletePath(d0, s1 + [d2] + s3, if s3 == [] then d2 else s3[|s3| - 1], id)
  {
    var names := {id, MetaName(id), MANIFEST_TMP};
    assert MetaName(id)[|id| + 4] == 'n';
    OutsideWider(d0, d2, {id, MetaName(id)}, names);
    forall d | d in s1 ensures PartlyDeleted(d0, d, id) {
      OutsideWider(d0, d, {id}, names);
      assert MetaName(id) in d ==> MetaName(id) in d - {id};
    }
    forall d | d in s3 && d != s3[|s3| - 1] ensures PartlyDeleted(d0, d, id) {
      assert d in s3[..|s3| - 1];
      OutsideWider(d2, d, {MANIFEST_TMP}, names);
      assert id !in d - {MANIFEST_TMP} && MetaName(id) !in d - {MANIFEST_TMP};
    }
  }

  lemma OutsideWider(d0: Disk, d: Disk, a: set<string>, b: set<string>)
    requires d - a == d0 - a && a <= b
    ensures d - b == d0 - b
  {
    assert d - b == (d - a) - b && d0 - b == (d0 - a) - b;
  }

  lemma FileIdIsPlain(id: string)
    requires IsFileId(id)
    ensures id != MANIFEST_NAME && TmpName(id) != MANIFEST_NAME && MetaName(id) != MANIFEST_NAME
    ensures id != MANIFEST_TMP && id != PAIR_NAME
    ensures IsToken(id) && id[0] != '#' && Suffix(id) == "" && Listed(id)
  {
    assert '.' !in id;
    var k := LastDot(id);
    assert k == |id|;
    assert id[|id| - 7..][0] != '.';
    assert TmpName(id)[36] == '.' && MetaName(id)[36] == '.';
  }
}
