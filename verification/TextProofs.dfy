/** What the string operations mean: stripping, cutting into lines, and the suffix of a file name. */
module TextProofs {
  import opened Text

  lemma Regroup(a: string, b: string, c: string)
    ensures (a + b) + c == a + (b + c)
  {
  }

  predicate AllSpace(s: string)
  {
    forall c <- s :: IsSpace(c)
  }

  lemma {:induction false} StripLeftDrops(a: string, m: string)
    requires AllSpace(a) && (m != "" ==> !IsSpace(m[0]))
    ensures StripLeft(a + m) == m
  {
    if a == "" {
      assert a + m == m;
    } else {
      assert a[0] in a && forall c <- a[1..] :: c in a;
      assert (a + m)[1..] == a[1..] + m;
      StripLeftDrops(a[1..], m);
    }
  }

  lemma {:induction false} StripRightDrops(m: string, b: string)
    requires AllSpace(b) && (m != "" ==> !IsSpace(m[|m| - 1]))
    ensures StripRight(m + b) == m
  {
    if b == "" {
      assert m + b == m;
    } else {
      var n := |b| - 1;
      assert b[n] in b && forall c <- b[..n] :: c in b;
      assert (m + b)[..|m + b| - 1] == m + b[..n];
      StripRightDrops(m, b[..n]);
    }
  }

  /** Stripping takes the white space from both ends, all of it, and nothing else. */
  lemma StripExactly(a: string, m: string, b: string)
    requires AllSpace(a) && AllSpace(b)
    requires m != "" ==> !IsSpace(m[0]) && !IsSpace(m[|m| - 1])
    ensures Strip(a + m + b) == m
  {
    if m == "" {
      assert a + m + b == (a + b) + "";
      StripLeftDrops(a + b, "");
    } else {
      assert a + m + b == a + (m + b);
      StripLeftDrops(a, m + b);
      StripRightDrops(m, b);
    }
  }

  lemma {:induction false} EndOfLine(a: string, b: string)
    requires (forall c <- a :: !IsLineBreak(c)) && b != "" && IsLineBreak(b[0])
    ensures LineEnd(a + b) == |a|
  {
    if a == "" {
      assert a + b == b;
    } else {
      assert a[0] in a && forall c <- a[1..] :: c in a;
      assert (a + b)[1..] == a[1..] + b;
      EndOfLine(a[1..], b);
    }
  }

  /** Every line break ends a line and belongs to none; the two characters of a DOS line end are one. */
  lemma SplitsAtBreak(body: string, br: string, rest: string)
    requires forall c <- body :: !IsLineBreak(c)
    requires br == "\r\n" || (|br| == 1 && IsLineBreak(br[0]) && !(br == "\r" && rest != "" && rest[0] == '\n'))
    ensures SplitLines(body + br + rest) == [body] + SplitLines(rest)
  {
    var s := body + br + rest;
    assert s == body + (br + rest);
    EndOfLine(body, br + rest);
    assert s[..|body|] == body && s[|body| + |br|..] == rest;
    assert s[|body|] == br[0] && (|body| + 1 < |s| ==> s[|body| + 1] == (br + rest)[1]);
  }

  /** A name without a dot has no suffix; the suffix of another begins at its last dot. */
  lemma SuffixOf(stem: string, ext: string)
    requires stem != "" && ext != "" && '.' !in ext
    ensures Suffix(stem + "." + ext) == "." + ext && Stem(stem + "." + ext) == stem
    ensures Suffix(ext) == "" && Stem(ext) == ext
  {
    var name := stem + "." + ext;
    assert name[|stem|] == '.' && (forall i | |stem| < i < |name| :: name[i] != '.');
    assert LastDot(name) == |stem|;
    assert name[|stem|..] == "." + ext && name[..|stem|] == stem;
    assert LastDot(ext) == |ext|;
  }
}
