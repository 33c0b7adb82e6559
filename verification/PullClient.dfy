/** The pull client's local side: choosing a file name, and one download, decrypt, delete cycle. */
module PullClient {
  import opened Bytes
  import opened Crypto
  import opened Text
  import Codec

  // ----- file names -----

  const DIGITS: string := "0123456789"

  function Decimal(n: nat): (r: string)
    ensures r != ""
  {
    if n < 10 then [DIGITS[n]] else Decimal(n / 10) + [DIGITS[n % 10]]
  }

  lemma {:induction false} DecimalInjective(a: nat, b: nat)
    requires Decimal(a) == Decimal(b)
    ensures a == b
    decreases a
  {
    var x, y := Decimal(a), Decimal(b);
    assert x[|x| - 1] == DIGITS[a % 10] && y[|y| - 1] == DIGITS[b % 10];
    assert a % 10 == b % 10;
    if a >= 10 && b >= 10 {
      assert x[..|x| - 1] == Decimal(a / 10) && y[..|y| - 1] == Decimal(b / 10);
      DecimalInjective(a / 10, b / 10);
    }
  }

  /** The name tried when the plain one and the first n - 1 numbered ones are taken. */
  function Candidate(filename: string, n: nat): string
  {
    if n == 0 then filename else Stem(filename) + "-" + Decimal(n) + Suffix(filename)
  }

  lemma CandidatesDistinct(filename: string, a: nat, b: nat)
    requires a < b
    ensures Candidate(filename, a) != Candidate(filename, b)
  {
    var st, sf := Stem(filename), Suffix(filename);
    var ca, cb := Candidate(filename, a), Candidate(filename, b);
    assert |filename| == |st| + |sf| < |cb|;
    assert cb[|st| + 1..|cb| - |sf|] == Decimal(b);
    if a > 0 && ca == cb {
      assert ca[|st| + 1..|ca| - |sf|] == Decimal(a);
      DecimalInjective(a, b);
    }
  }

  /** The names tried before the n-th one. */
  function Tried(filename: string, n: nat): set<string>
  {
    set k | 0 <= k < n :: Candidate(filename, k)
  }

  lemma TriedNext(filename: string, n: nat)
    ensures Tried(filename, n + 1) == Tried(filename, n) + {Candidate(filename, n)}
    ensures Candidate(filename, n) !in Tried(filename, n)
  {
    forall k | 0 <= k < n ensures Candidate(filename, k) != Candidate(filename, n) {
      CandidatesDistinct(filename, k, n);
    }
  }

  lemma OneMore(before: set<string>, name: string, after: set<string>)
    requires name !in before && after == before + {name}
    ensures |after| == |before| + 1
  {
  }

  lemma {:induction false} TriedCount(filename: string, n: nat)
    ensures |Tried(filename, n)| == n
  {
    if n == 0 {
      assert Tried(filename, 0) == {};
    } else {
      var m := n - 1;
      TriedCount(filename, m);
      TriedNext(filename, m);
      OneMore(Tried(filename, m), Candidate(filename, m), Tried(filename, m + 1));
    }
  }

  lemma SubsetCount(a: set<string>, b: set<string>)
    requires a <= b
    ensures |a| <= |b|
  {
    assert b == a + (b - a);
  }

  /**
    The first free name. If n numbered names were skipped then n + 1 names are taken, so the search
    ends after at most one more try than there are files.
   */
  method UniquePath(existing: set<string>, filename: string) returns (name: string, ghost tries: nat)
    ensures name !in existing
    ensures 1 <= tries <= |existing| + 1
    ensures name == Candidate(filename, tries - 1) && Tried(filename, tries - 1) <= existing
  {
    if filename !in existing {
      return filename, 1;
    }
    var stem, suffix := Stem(filename), Suffix(filename);
    var n := 1;
    while true
      invariant n >= 1 && Tried(filename, n) <= existing
      decreases |existing| - n
    {
      TriedCount(filename, n);
      SubsetCount(Tried(filename, n), existing);
      var candidate := stem + "-" + Decimal(n) + suffix;
      assert candidate == Candidate(filename, n);
      if candidate !in existing {
        return candidate, n + 1;
      }
      TriedNext(filename, n);
      TriedCount(filename, n + 1);
      SubsetCount(Tried(filename, n + 1), existing);
      n := n + 1;
    }
  }

  // ----- turning a manifest name into a local one -----

  /** The last component of a path; empty and single-dot components do not count. */
  function BaseName(path: string): string
    decreases |path|
  {
    var k := IndexOf(path, '/');
    var rest := if k < |path| then BaseName(path[k + 1..]) else "";
    if rest != "" then rest else if path[..k] == "." then "" else path[..k]
  }

  predicate Safe(isWord: char -> bool, c: char)
  {
    isWord(c) || c in ".- ()[]"
  }

  /** Every maximal run of other characters becomes one underscore. */
  function Clean(isWord: char -> bool, s: string, inRun: bool): string
  {
    if s == "" then ""
    else if Safe(isWord, s[0]) then [s[0]] + Clean(isWord, s[1..], false)
    else (if inRun then "" else "_") + Clean(isWord, s[1..], true)
  }

  function TrimLeft(s: string): string
  {
    if s != "" && s[0] in " ._" then TrimLeft(s[1..]) else s
  }

  function TrimRight(s: string): string
  {
    if s != "" && s[|s| - 1] in " ._" then TrimRight(s[..|s| - 1]) else s
  }

  function SafeName(isWord: char -> bool, name: string, fallback: string): string
  {
    var base := Strip(BaseName(name));
    var cleaned := TrimRight(TrimLeft(Clean(isWord, if base == "" then fallback else base, false)));
    if cleaned == "" then fallback else cleaned
  }

  lemma {:induction false} CleanIsSafe(isWord: char -> bool, s: string, inRun: bool)
    requires isWord('_') && !isWord('/')
    ensures '/' !in Clean(isWord, s, inRun)
  {
    if s != "" {
      CleanIsSafe(isWord, s[1..], false);
      CleanIsSafe(isWord, s[1..], true);
    }
  }

  lemma {:induction false} TrimKeeps(s: string)
    ensures var t := TrimRight(TrimLeft(s));
            (forall c <- t :: c in s) && (t != "" ==> t[0] !in " ._" && t[|t| - 1] !in " ._")
  {
    TrimLeftKeeps(s);
    TrimRightKeeps(TrimLeft(s));
  }

  lemma {:induction false} TrimLeftKeeps(s: string)
    ensures var t := TrimLeft(s); (forall c <- t :: c in s) && (t != "" ==> t[0] !in " ._")
  {
    if s != "" && s[0] in " ._" {
      TrimLeftKeeps(s[1..]);
    }
  }

  lemma {:induction false} TrimRightKeeps(s: string)
    ensures var t := TrimRight(s); t <= s && (t != "" ==> t[|t| - 1] !in " ._")
  {
    if s != "" && s[|s| - 1] in " ._" {
      TrimRightKeeps(s[..|s| - 1]);
    }
  }

  /** Whatever name the manifest carries, the local one is a single plain component: never hidden, never a path. */
  lemma SafeNameStaysInside(isWord: char -> bool, name: string, fallback: string)
    requires isWord('_') && !isWord('/') && fallback != "" && '/' !in fallback && fallback[0] != '.'
    ensures var r := SafeName(isWord, name, fallback);
            r != "" && '/' !in r && r[0] != '.'
  {
    var base := Strip(BaseName(name));
    var c := Clean(isWord, if base == "" then fallback else base, false);
    CleanIsSafe(isWord, if base == "" then fallback else base, false);
    TrimKeeps(c);
  }

  // ----- one pull -----

  /** The output directory, and the work directory below it for encrypted blobs. */
  class LocalDir {
    var files: map<string, bytes>
    var temp: map<string, bytes>

    constructor ()
      ensures files == map[] && temp == map[]
    {
      files := map[];
      temp := map[];
    }
  }

  datatype Outcome = Pulled(name: string) | Failed

  /** The first free one of the numbered variants of a name. */
  ghost predicate FirstFree(existing: set<string>, filename: string, name: string)
  {
    exists k: nat :: name == Candidate(filename, k) && name !in existing && Tried(filename, k) <= existing
  }

  /**
    Downloads, decrypts under the first free variant of the sanitised name, deletes the remote file.
    `body` is what the download delivers and `complete` whether it ended without an exception;
    `deleted` is whether the DELETE request did. On success exactly one new file appears, holding the
    whole plaintext; on any failure the output directory is as before. Earlier files are never touched.
   */
  method ProcessOne(dir: LocalDir, s: Suite, isWord: char -> bool, fileId: string, name: string,
                    body: bytes, complete: bool, deleted: bool)
    returns (r: Outcome)
    modifies dir
    ensures r.Pulled? <==> complete && Codec.Decode(s, body).error == None && deleted
    ensures r.Pulled? ==>
              && FirstFree(old(dir.files.Keys), SafeName(isWord, name, fileId), r.name)
              && dir.files == old(dir.files)[r.name := Codec.Decode(s, body).plain]
    ensures r.Failed? ==> dir.files == old(dir.files)
    ensures dir.temp == old(dir.temp) - {fileId}
  {
    var safe := SafeName(isWord, name, fileId);
    var plainName, tries := UniquePath(dir.files.Keys, safe);
    dir.temp := dir.temp[fileId := body];
    r := Failed;
    if complete {
      var ok := DecryptInto(dir, s, body, plainName);
      if ok && deleted {
        r := Pulled(plainName);
      }
    }
    if r.Failed? {
      ghost var written := if plainName in dir.files then dir.files[plainName] else [];
      PutRemove(old(dir.files), plainName, written);
      Discard(dir, plainName);
    }
    PutRemove(old(dir.temp), fileId, body);
    dir.temp := dir.temp - {fileId};
  }

  lemma PutRemove(m: map<string, bytes>, k: string, v: bytes)
    ensures m[k := v] - {k} == m - {k}
    ensures k !in m ==> m - {k} == m
  {
  }

  method DecryptInto(dir: LocalDir, s: Suite, body: bytes, name: string) returns (ok: bool)
    modifies dir`files
    ensures dir.files == old(dir.files)[name := Codec.Decode(s, body).plain]
    ensures ok <==> Codec.Decode(s, body).error == None
  {
    var count, written := Codec.DecryptFile(s, body);
    dir.files := dir.files[name := written];
    ok := count.Ok?;
  }

  method Discard(dir: LocalDir, name: string)
    modifies dir`files
    ensures dir.files == old(dir.files) - {name}
  {
    dir.files := dir.files - {name};
  }

  datatype Attempt = Attempt(fileId: string, name: string, body: bytes, complete: bool, deleted: bool)

  predicate Succeeds(s: Suite, a: Attempt)
  {
    a.complete && Codec.Decode(s, a.body).error == None && a.deleted
  }

  function Successful(s: Suite, attempts: seq<Attempt>): (r: seq<Attempt>)
    ensures |r| <= |attempts|
  {
    if attempts == [] then []
    else
      var last := attempts[|attempts| - 1];
      Successful(s, attempts[..|attempts| - 1]) + (if Succeeds(s, last) then [last] else [])
  }

  lemma SuccessfulNext(s: Suite, attempts: seq<Attempt>, i: nat)
    requires i < |attempts|
    ensures Successful(s, attempts[..i + 1])
         == Successful(s, attempts[..i]) + (if Succeeds(s, attempts[i]) then [attempts[i]] else [])
  {
    assert attempts[..i + 1][..i] == attempts[..i];
  }

  function Names(names: seq<string>): set<string>
  {
    set n | n in names
  }

  /** The file a successful attempt leaves, in a directory that held `existing` when it began. */
  ghost predicate Left(s: Suite, isWord: char -> bool, a: Attempt, existing: set<string>,
                       files: map<string, bytes>, name: string)
  {
    && FirstFree(existing, SafeName(isWord, a.name, a.fileId), name)
    && name in files && files[name] == Codec.Decode(s, a.body).plain
  }

  /**
    One cycle over the listed rows: a failed row is left for the next cycle and the loop goes on. The
    successful rows, and only they, each leave one new file, in the order of the list; everything that
    was there before stays.
   */
  method PullCycle(dir: LocalDir, s: Suite, isWord: char -> bool, attempts: seq<Attempt>)
    returns (names: seq<string>, pulled: seq<Attempt>)
    modifies dir
    ensures pulled == Successful(s, attempts) && |names| == |pulled|
    ensures dir.files.Keys == old(dir.files.Keys) + Names(names)
    ensures forall n <- old(dir.files) :: n in dir.files && dir.files[n] == old(dir.files)[n]
    ensures forall i | 0 <= i < |names| ::
              Left(s, isWord, pulled[i], old(dir.files.Keys) + Names(names[..i]), dir.files, names[i])
  {
    names, pulled := [], [];
    assert attempts[..0] == [];
    for i := 0 to |attempts|
      invariant pulled == Successful(s, attempts[..i]) && |names| == |pulled|
      invariant dir.files.Keys == old(dir.files.Keys) + Names(names)
      invariant forall n <- old(dir.files) :: n in dir.files && dir.files[n] == old(dir.files)[n]
      invariant forall j | 0 <= j < |names| ::
                  Left(s, isWord, pulled[j], old(dir.files.Keys) + Names(names[..j]), dir.files, names[j])
    {
      var a := attempts[i];
      SuccessfulNext(s, attempts, i);
      ghost var before := dir.files;
      var r := ProcessOne(dir, s, isWord, a.fileId, a.name, a.body, a.complete, a.deleted);
      if r.Pulled? {
        MoreLeft(s, isWord, pulled, names, old(dir.files.Keys), before, a, r.name);
        names := names + [r.name];
        pulled := pulled + [a];
      }
    }
    assert attempts[..|attempts|] == attempts;
  }

  lemma NamesNext(names: seq<string>, name: string)
    ensures Names(names + [name]) == Names(names) + {name}
  {
  }

  /** One more file disturbs none of the earlier ones. */
  lemma MoreLeft(s: Suite, isWord: char -> bool, pulled: seq<Attempt>, names: seq<string>, first: set<string>,
                 before: map<string, bytes>, a: Attempt, name: string)
    requires |pulled| == |names| && before.Keys == first + Names(names)
    requires forall j | 0 <= j < |names| ::
               Left(s, isWord, pulled[j], first + Names(names[..j]), before, names[j])
    requires FirstFree(before.Keys, SafeName(isWord, a.name, a.fileId), name)
    ensures var after := before[name := Codec.Decode(s, a.body).plain];
            && after.Keys == first + Names(names + [name])
            && forall j | 0 <= j <= |names| ::
                 Left(s, isWord, (pulled + [a])[j], first + Names((names + [name])[..j]), after, (names + [name])[j])
  {
    var after := before[name := Codec.Decode(s, a.body).plain];
    NamesNext(names, name);
    forall j | 0 <= j <= |names|
      ensures Left(s, isWord, (pulled + [a])[j], first + Names((names + [name])[..j]), after, (names + [name])[j])
    {
      assert (names + [name])[..j] == names[..j];
      if j == |names| {
        assert names[..j] == names;
      } else {
        assert Left(s, isWord, pulled[j], first + Names(names[..j]), before, names[j]);
      }
    }
  }
}
