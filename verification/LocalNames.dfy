/** How the client names a file: what the sanitiser keeps of the manifest's name, and the numbered variants. */
module LocalNames {
  import opened Text
  import opened TextProofs
  import opened PullClient

  // ----- directories -----

  lemma IndexIs(s: string, c: char, k: nat)
    requires k < |s| && s[k] == c && c !in s[..k]
    ensures IndexOf(s, c) == k
  {
    var i := IndexOf(s, c);
    forall j | 0 <= j < k
      ensures s[j] != c
    {
      assert s[..k][j] in s[..k];
    }
    forall j | 0 <= j < i
      ensures s[j] != c
    {
      assert s[..i][j] in s[..i];
    }
  }

  /** The last of two parts of a path, empty and single-dot ones not counted. */
  function LastPart(head: string, tail: string): string
  {
    if tail != "" then tail else if head == "." then "" else head
  }

  lemma BaseNameOf(head: string, rest: string)
    requires '/' !in head
    ensures BaseName(head + "/" + rest) == LastPart(head, BaseName(rest)) && BaseName(head) == LastPart(head, "")
  {
    var path := head + "/" + rest;
    assert path[..|head|] == head && path[|head| + 1..] == rest && head[..|head|] == head;
    IndexIs(path, '/', |head|);
    assert IndexOf(head, '/') == |head|;
  }

  lemma FirstPart(dir: string) returns (head: string, rest: string)
    requires '/' in dir
    ensures '/' !in head && dir == head + "/" + rest && |rest| < |dir|
  {
    var k := IndexOf(dir, '/');
    head, rest := dir[..k], dir[k + 1..];
    assert dir == dir[..k] + [dir[k]] + dir[k + 1..];
  }

  lemma Reslash(head: string, rest: string, name: string)
    ensures (head + "/" + rest) + "/" + name == head + "/" + (rest + "/" + name)
  {
  }

  lemma {:induction false} BaseNameJoins(dir: string, name: string)
    ensures BaseName(dir + "/" + name) == if BaseName(name) != "" then BaseName(name) else BaseName(dir)
    decreases |dir|
  {
    if '/' in dir {
      var head, rest := FirstPart(dir);
      BaseNameJoins(rest, name);
      BaseNameOf(head, rest);
      BaseNameOf(head, rest + "/" + name);
      Reslash(head, rest, name);
    } else {
      BaseNameOf(dir, name);
    }
  }

  /** The directory part of a path does not matter. */
  lemma DirectoryIgnored(isWord: char -> bool, dir: string, name: string, fallback: string)
    requires BaseName(name) != ""
    ensures SafeName(isWord, dir + "/" + name, fallback) == SafeName(isWord, name, fallback)
  {
    BaseNameJoins(dir, name);
  }

  // ----- what is kept -----

  /** A safe character that is not trimmed from the ends. */
  predicate Solid(isWord: char -> bool, c: char)
  {
    Safe(isWord, c) && c !in " ._"
  }

  /** The solid characters of a string, in their order. */
  function Essence(isWord: char -> bool, s: string): string
  {
    if s == "" then "" else SolidOnly(isWord, s[0]) + Essence(isWord, s[1..])
  }

  function SolidOnly(isWord: char -> bool, c: char): string
  {
    if Solid(isWord, c) then [c] else ""
  }

  lemma {:induction false} NoEssence(isWord: char -> bool, s: string)
    ensures Essence(isWord, s) == "" <==> forall c <- s :: !Solid(isWord, c)
  {
    if s != "" {
      NoEssence(isWord, s[1..]);
      assert forall c :: c in s <==> c == s[0] || c in s[1..];
    }
  }

  lemma {:induction false} EssenceJoins(isWord: char -> bool, a: string, b: string)
    ensures Essence(isWord, a + b) == Essence(isWord, a) + Essence(isWord, b)
  {
    if a == "" {
      assert a + b == b && "" + Essence(isWord, b) == Essence(isWord, b);
    } else {
      EssenceJoins(isWord, a[1..], b);
      assert (a + b)[1..] == a[1..] + b;
      Regroup(SolidOnly(isWord, a[0]), Essence(isWord, a[1..]), Essence(isWord, b));
    }
  }

  /** Whether the cleaning is inside a run after `s`. */
  predicate RunAfter(isWord: char -> bool, s: string, inRun: bool)
  {
    if s == "" then inRun else !Safe(isWord, s[|s| - 1])
  }

  function CleanedChar(isWord: char -> bool, c: char, inRun: bool): string
  {
    if Safe(isWord, c) then [c] else if inRun then "" else "_"
  }

  lemma CleanFirst(isWord: char -> bool, c: char, rest: string, inRun: bool)
    ensures Clean(isWord, [c] + rest, inRun) == CleanedChar(isWord, c, inRun) + Clean(isWord, rest, !Safe(isWord, c))
  {
    assert ([c] + rest)[1..] == rest;
  }

  lemma {:induction false} CleanJoins(isWord: char -> bool, a: string, b: string, inRun: bool)
    ensures Clean(isWord, a + b, inRun) == Clean(isWord, a, inRun) + Clean(isWord, b, RunAfter(isWord, a, inRun))
  {
    if a == "" {
      assert a + b == b && "" + Clean(isWord, b, inRun) == Clean(isWord, b, inRun);
    } else {
      var run := !Safe(isWord, a[0]);
      CleanJoins(isWord, a[1..], b, run);
      assert a == [a[0]] + a[1..] && a + b == [a[0]] + (a[1..] + b);
      CleanFirst(isWord, a[0], a[1..], inRun);
      CleanFirst(isWord, a[0], a[1..] + b, inRun);
      Regroup(CleanedChar(isWord, a[0], inRun), Clean(isWord, a[1..], run),
              Clean(isWord, b, RunAfter(isWord, a[1..], run)));
    }
  }

  /** Safe characters stay as they are. */
  lemma {:induction false} CleanSafe(isWord: char -> bool, s: string, inRun: bool)
    requires forall c <- s :: Safe(isWord, c)
    ensures Clean(isWord, s, inRun) == s
  {
    if s != "" {
      assert forall c <- s[1..] :: c in s;
      assert s[0] in s;
      CleanSafe(isWord, s[1..], false);
    }
  }

  lemma {:induction false} CleanUnsafe(isWord: char -> bool, s: string, inRun: bool)
    requires s != "" && forall c <- s :: !Safe(isWord, c)
    ensures Clean(isWord, s, inRun) == if inRun then "" else "_"
  {
    assert s[0] in s;
    if |s| > 1 {
      assert forall c <- s[1..] :: c in s;
      CleanUnsafe(isWord, s[1..], true);
    } else {
      assert s[1..] == "";
    }
  }

  /** A run of other characters between safe ones becomes one underscore. */
  lemma CleanRun(isWord: char -> bool, a: string, run: string, b: string)
    requires run != "" && forall c <- run :: !Safe(isWord, c)
    requires (a != "" ==> Safe(isWord, a[|a| - 1])) && (b != "" ==> Safe(isWord, b[0]))
    ensures Clean(isWord, a + run + b, false) == Clean(isWord, a, false) + "_" + Clean(isWord, b, false)
  {
    CleanJoins(isWord, a + run, b, false);
    CleanJoins(isWord, a, run, false);
    CleanUnsafe(isWord, run, false);
    assert run[|run| - 1] in run;
    assert (a + run)[|a + run| - 1] == run[|run| - 1];
  }

  /** Cleaning keeps the solid characters and adds underscores at most. */
  lemma {:induction false} CleanKeeps(isWord: char -> bool, s: string, inRun: bool)
    ensures Essence(isWord, Clean(isWord, s, inRun)) == Essence(isWord, s)
    ensures forall c <- Clean(isWord, s, inRun) :: c == '_' || c in s
  {
    if s != "" {
      var rest := Clean(isWord, s[1..], !Safe(isWord, s[0]));
      CleanKeeps(isWord, s[1..], !Safe(isWord, s[0]));
      var head := CleanedChar(isWord, s[0], inRun);
      assert Clean(isWord, s, inRun) == head + rest;
      EssenceJoins(isWord, head, rest);
      EssenceOne(isWord, s[0]);
      EssenceOne(isWord, '_');
    }
  }

  lemma EssenceOne(isWord: char -> bool, c: char)
    ensures Essence(isWord, [c]) == (if Solid(isWord, c) then [c] else "") && Essence(isWord, "") == ""
  {
    assert [c][1..] == "";
    assert SolidOnly(isWord, c) + "" == SolidOnly(isWord, c);
  }

  // ----- trimming -----

  predicate Loose(s: string)
  {
    forall c <- s :: c in " ._"
  }

  lemma {:induction false} TrimLeftDrops(a: string, m: string)
    requires Loose(a) && (m != "" ==> m[0] !in " ._")
    ensures TrimLeft(a + m) == m
  {
    if a == "" {
      assert a + m == m;
    } else {
      assert a[0] in a && forall c <- a[1..] :: c in a;
      assert (a + m)[1..] == a[1..] + m;
      TrimLeftDrops(a[1..], m);
    }
  }

  lemma {:induction false} TrimRightDrops(m: string, b: string)
    requires Loose(b) && (m != "" ==> m[|m| - 1] !in " ._")
    ensures TrimRight(m + b) == m
  {
    if b == "" {
      assert m + b == m;
    } else {
      var n := |b| - 1;
      assert b[n] in b && forall c <- b[..n] :: c in b;
      assert (m + b)[..|m + b| - 1] == m + b[..n];
      TrimRightDrops(m, b[..n]);
    }
  }

  /** Without solid characters, only what is trimmed is left of a string. */
  lemma CleanLoose(isWord: char -> bool, s: string, inRun: bool)
    requires Essence(isWord, s) == ""
    ensures Loose(Clean(isWord, s, inRun))
  {
    SafeOnly(isWord, s, inRun);
    CleanKeeps(isWord, s, inRun);
  }

  lemma {:induction false} SafeOnly(isWord: char -> bool, s: string, inRun: bool)
    ensures forall c <- Clean(isWord, s, inRun) :: c == '_' || Safe(isWord, c)
  {
    if s != "" {
      SafeOnly(isWord, s[1..], !Safe(isWord, s[0]));
    }
  }

  // ----- the sanitised name -----

  /** What the name is made from. */
  function SourceOf(name: string, fallback: string): string
  {
    var base := Strip(BaseName(name));
    if base == "" then fallback else base
  }

  /** Between its first and its last solid character the source is cleaned; what is outside is dropped. */
  lemma SafeNameExactly(isWord: char -> bool, name: string, fallback: string, a: string, m: string, b: string)
    requires SourceOf(name, fallback) == a + m + b && Essence(isWord, a) == "" && Essence(isWord, b) == ""
    requires m != "" && Solid(isWord, m[0]) && Solid(isWord, m[|m| - 1])
    ensures SafeName(isWord, name, fallback) == Clean(isWord, m, false)
  {
    var afterA, afterM := RunAfter(isWord, a, false), RunAfter(isWord, a + m, false);
    CleanJoins(isWord, a + m, b, false);
    CleanJoins(isWord, a, m, false);
    var x, y, z := Clean(isWord, a, false), Clean(isWord, m, afterA), Clean(isWord, b, afterM);
    assert y == Clean(isWord, m, false);
    CleanLoose(isWord, a, false);
    CleanLoose(isWord, b, afterM);
    CleanEnds(isWord, m);
    TrimmedTo(x, y, z);
  }

  lemma TrimmedTo(x: string, y: string, z: string)
    requires Loose(x) && Loose(z) && y != "" && y[0] !in " ._" && y[|y| - 1] !in " ._"
    ensures TrimRight(TrimLeft(x + y + z)) == y
  {
    Regroup(x, y, z);
    TrimLeftDrops(x, y + z);
    TrimRightDrops(y, z);
  }

  lemma CleanEnds(isWord: char -> bool, m: string)
    requires m != "" && Solid(isWord, m[0]) && Solid(isWord, m[|m| - 1])
    ensures var y := Clean(isWord, m, false); y != "" && y[0] == m[0] && y[|y| - 1] == m[|m| - 1]
  {
    var n := |m| - 1;
    assert m == m[..n] + [m[n]];
    CleanJoins(isWord, m[..n], [m[n]], false);
    CleanSafe(isWord, [m[n]], RunAfter(isWord, m[..n], false));
  }

  lemma LooseThen(isWord: char -> bool, c: char, tail: string) returns (a: string)
    requires !Solid(isWord, c) && Essence(isWord, tail) == ""
    ensures a == [c] + tail && Essence(isWord, a) == ""
  {
    a := [c] + tail;
    assert a[1..] == tail;
  }

  lemma ThenLoose(isWord: char -> bool, tail: string, c: char) returns (b: string)
    requires !Solid(isWord, c) && Essence(isWord, tail) == ""
    ensures b == tail + [c] && Essence(isWord, b) == ""
  {
    b := tail + [c];
    EssenceJoins(isWord, tail, [c]);
    EssenceOne(isWord, c);
  }

  /** Where the solid characters of a string begin and end. */
  lemma {:induction false} FirstSolid(isWord: char -> bool, s: string) returns (a: string, rest: string)
    requires Essence(isWord, s) != ""
    ensures s == a + rest && Essence(isWord, a) == "" && rest != "" && Solid(isWord, rest[0])
  {
    if Solid(isWord, s[0]) {
      a, rest := "", s;
      assert "" + s == s;
    } else {
      var tail;
      tail, rest := FirstSolid(isWord, s[1..]);
      a := LooseThen(isWord, s[0], tail);
      assert s == [s[0]] + s[1..];
      Regroup([s[0]], tail, rest);
    }
  }

  lemma {:induction false} LastSolid(isWord: char -> bool, s: string) returns (m: string, b: string)
    requires s != "" && Solid(isWord, s[0])
    ensures s == m + b && Essence(isWord, b) == "" && m != "" && m[0] == s[0] && Solid(isWord, m[|m| - 1])
  {
    var n := |s| - 1;
    if Solid(isWord, s[n]) {
      m, b := s, "";
      assert s + "" == s;
    } else {
      var tail;
      m, tail := LastSolid(isWord, s[..n]);
      b := ThenLoose(isWord, tail, s[n]);
      assert s == s[..n] + [s[n]];
      Regroup(m, tail, [s[n]]);
    }
  }

  /**
    The fallback is used exactly if nothing solid is left of the name. Otherwise the local name has all
    the solid characters of the name, in their order, and else only characters of it and underscores; it
    begins and ends with a solid one.
   */
  lemma SafeNameKeeps(isWord: char -> bool, name: string, fallback: string)
    ensures var source, r := SourceOf(name, fallback), SafeName(isWord, name, fallback);
            if forall c <- source :: !Solid(isWord, c) then r == fallback
            else && Essence(isWord, r) == Essence(isWord, source)
                 && (forall c <- r :: c == '_' || c in source)
                 && r != "" && Solid(isWord, r[0]) && Solid(isWord, r[|r| - 1])
  {
    var source := SourceOf(name, fallback);
    NoEssence(isWord, source);
    if Essence(isWord, source) == "" {
      CleanLoose(isWord, source, false);
      var c := Clean(isWord, source, false);
      assert c + "" == c;
      TrimLeftDrops(c, "");
    } else {
      var a, rest := FirstSolid(isWord, source);
      var m, b := LastSolid(isWord, rest);
      Regroup(a, m, b);
      SafeNameExactly(isWord, name, fallback, a, m, b);
      MiddleKeeps(isWord, a, m, b);
    }
  }

  lemma MiddleKeeps(isWord: char -> bool, a: string, m: string, b: string)
    requires Essence(isWord, a) == "" && Essence(isWord, b) == ""
    requires m != "" && Solid(isWord, m[0]) && Solid(isWord, m[|m| - 1])
    ensures var r := Clean(isWord, m, false);
            && Essence(isWord, r) == Essence(isWord, a + m + b) && (forall c <- r :: c == '_' || c in a + m + b)
            && r != "" && Solid(isWord, r[0]) && Solid(isWord, r[|r| - 1])
  {
    CleanKeeps(isWord, m, false);
    CleanEnds(isWord, m);
    EssenceJoins(isWord, a + m, b);
    EssenceJoins(isWord, a, m);
    var e := Essence(isWord, m);
    assert "" + e == e && e + "" == e;
  }

  /** A single component of safe characters with solid ends is kept as it is, whatever the fallback. */
  lemma PlainNameKept(isWord: char -> bool, name: string, fallback: string)
    requires name != "" && '/' !in name && forall c <- name :: isWord(c) || c in {'.', '-', ' ', '(', ')', '[', ']'}
    requires name[0] !in {' ', '.', '_'} && name[|name| - 1] !in {' ', '.', '_'}
    requires !IsSpace(name[0]) && !IsSpace(name[|name| - 1])
    ensures SafeName(isWord, name, fallback) == name
  {
    assert name[..|name|] == name;
    assert BaseName(name) == name;
    StripExactly("", name, "");
    assert "" + name + "" == name;
    assert name[0] in name && name[|name| - 1] in name;
    SafeNameExactly(isWord, name, fallback, "", name, "");
    CleanSafe(isWord, name, false);
  }

  // ----- numbered variants -----

  /** The number goes between the stem and the suffix; without a suffix it goes to the end. */
  lemma NumberedVariant(stem: string, ext: string, n: nat)
    requires stem != "" && ext != "" && '.' !in ext && n > 0
    ensures Candidate(stem + "." + ext, n) == stem + "-" + Decimal(n) + "." + ext
    ensures Candidate(ext, n) == ext + "-" + Decimal(n)
    ensures Candidate(ext, 0) == ext
  {
    SuffixOf(stem, ext);
    assert ext + "-" + Decimal(n) + "" == ext + "-" + Decimal(n);
  }

  predicate AllDigits(s: string)
  {
    forall i | 0 <= i < |s| :: '0' <= s[i] <= '9'
  }

  function Value(digits: string): nat
    requires AllDigits(digits)
  {
    if digits == "" then 0
    else 10 * Value(digits[..|digits| - 1]) + (digits[|digits| - 1] as int - '0' as int)
  }

  /** The suffix number is written in decimal, without leading zeros. */
  lemma {:induction false} DecimalValue(n: nat)
    ensures AllDigits(Decimal(n)) && Value(Decimal(n)) == n
    ensures n > 0 ==> Decimal(n)[0] != '0'
    decreases n
  {
    assert DIGITS[n % 10] as int == '0' as int + n % 10;
    if n < 10 {
      assert Decimal(n)[..0] == "";
    } else {
      DecimalValue(n / 10);
      assert Decimal(n)[..|Decimal(n)| - 1] == Decimal(n / 10);
    }
  }
}
