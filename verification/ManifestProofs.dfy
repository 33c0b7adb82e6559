/** What a reader of the manifest refuses, what it overlooks, and what an encrypted line can hold. */
module ManifestProofs {
  import opened Bytes
  import opened Crypto
  import opened Text
  import opened TextProofs
  import opened Manifest

  // ----- the text -----

  /** Lines are read one after the other, and the first bad one ends it. */
  lemma {:induction false} ParseJoins(a: seq<string>, b: seq<string>)
    ensures ParseLines(a + b) == match ParseLines(a)
                                 case Err(e) => Err(e)
                                 case Ok(rows) => Joined(rows, ParseLines(b))
  {
    if a == [] {
      assert a + b == b;
      JoinedTwice([], [], ParseLines(b));
    } else {
      assert (a + b)[0] == a[0] && (a + b)[1..] == a[1..] + b;
      ParseJoins(a[1..], b);
      if ParseLine(a[0]).Ok? && ParseLines(a[1..]).Ok? {
        JoinedTwice(ParseLine(a[0]).value, ParseLines(a[1..]).value, ParseLines(b));
      }
    }
  }

  lemma ParseOne(line: string)
    ensures ParseLines([line]) == ParseLine(line)
  {
    assert [line][1..] == [];
    if ParseLine(line).Ok? {
      assert ParseLine(line).value + [] == ParseLine(line).value;
    }
  }

  /** Blank lines and comments may stand anywhere; they change nothing. */
  lemma CommentIgnored(a: seq<string>, pad: string, comment: string, b: seq<string>)
    requires AllSpace(pad) && (comment != "" ==> comment[0] == '#' && !IsSpace(comment[|comment| - 1]))
    ensures ParseLines(a + [pad + comment] + b) == ParseLines(a + b)
  {
    StripExactly(pad, comment, "");
    assert pad + comment + "" == pad + comment;
    ParseOne(pad + comment);
    ParseJoins(a + [pad + comment], b);
    ParseJoins(a, [pad + comment]);
    ParseJoins(a, b);
    if ParseLines(a).Ok? {
      assert ParseLines(a).value + [] == ParseLines(a).value;
    }
  }

  /** Any other line without a tab refuses the whole text. */
  lemma MalformedRefused(a: seq<string>, line: string, b: seq<string>)
    requires line != "" && line[0] != '#' && !IsSpace(line[0]) && !IsSpace(line[|line| - 1]) && '\t' !in line
    ensures ParseLines(a + [line] + b).Err?
    ensures ParseLines(a).Ok? ==> ParseLines(a + [line] + b) == Err(MalformedLine)
  {
    StripExactly("", line, "");
    assert "" + line + "" == line;
    assert IndexOf(line, '\t') == |line|;
    ParseOne(line);
    ParseJoins(a + [line], b);
    ParseJoins(a, [line]);
  }

  /** White space around the line and around its two cells does not matter. */
  lemma PaddedLine(r: Row, before: string, left: string, right: string, after: string)
    requires IsRow(r) && AllSpace(before) && AllSpace(left) && AllSpace(right) && AllSpace(after) && '\t' !in left
    ensures ParseLine(before + (r.id + left + "\t" + right + r.b64) + after) == Ok([r])
  {
    var line := r.id + left + "\t" + right + r.b64;
    assert line[0] == r.id[0] && line[|line| - 1] == r.b64[|r.b64| - 1];
    StripExactly(before, line, after);
    assert line == (r.id + left) + ['\t'] + (right + r.b64);
    CellsOf(line, r.id + left, right + r.b64);
    PaddedCells(r, left, right);
  }

  lemma PaddedCells(r: Row, left: string, right: string)
    requires IsRow(r) && AllSpace(left) && AllSpace(right)
    ensures Strip(r.id + left) == r.id && Strip(right + r.b64) == r.b64
  {
    StripExactly("", r.id, left);
    StripExactly(right, r.b64, "");
    assert "" + r.id + left == r.id + left && right + r.b64 + "" == right + r.b64;
  }

  lemma CellsOf(line: string, first: string, second: string)
    requires line == first + ['\t'] + second && '\t' !in first
    ensures IndexOf(line, '\t') == |first| < |line| && line[..|first|] == first && line[|first| + 1..] == second
  {
    IndexOfFirst(first, '\t', second);
  }

  // ----- an encrypted line -----

  lemma Clamped(b: bytes, lo: nat, hi: nat)
    requires lo <= hi
    ensures |b| <= hi && lo <= |b| ==> Slice(b, lo, hi) == b[lo..]
    ensures hi <= |b| ==> Slice(b, lo, hi) == b[lo..hi]
  {
    if lo == |b| {
      assert b[lo..] == [];
    }
  }

  /** Data that does not begin with the line magic is refused, whatever it is. */
  lemma ForeignLineRefused(s: Suite, t: TextCodec, data: bytes)
    requires TextSound(t) && data != [] && !(LINE_MAGIC <= data)
    ensures DecryptLine(s, t, t.b64(data)) == Err(BadLineMagic)
  {
    var text := t.b64(data);
    StripToken(text);
    Clamped(data, 0, 8);
    if |data| >= 8 {
      assert Slice(data, 0, 8) == data[..8];
    } else {
      assert Slice(data, 0, 8) == data[0..];
    }
  }

  /** Text that is not base64 is refused too. */
  lemma NotBase64Refused(s: Suite, t: TextCodec, text: string)
    requires t.unb64(Strip(text)) == None
    ensures DecryptLine(s, t, text) == Err(BadBase64)
  {
  }

  lemma LineParts(w: bytes, c: bytes)
    requires |w| < TWO_32
    ensures var data := LINE_MAGIC + Be32(|w|) + w + c;
            && Slice(data, 0, 8) == LINE_MAGIC && data[8..12] == Be32(|w|) && |data| >= 12
            && Slice(data, 12, 12 + |w|) == w && Slice(data, 12 + |w|, 12 + |w| + |data|) == c
  {
    var data := LINE_MAGIC + Be32(|w|) + w + c;
    assert data[..8] == LINE_MAGIC && data[8..12] == Be32(|w|);
    assert data[12..12 + |w|] == w && data[12 + |w|..] == c;
    Clamped(data, 0, 8);
    Clamped(data, 12, 12 + |w|);
    Clamped(data, 12 + |w|, 12 + |w| + |data|);
  }

  /**
    Authenticity: with the wrapped key kept and an ideal AEAD, a line decrypts to a payload exactly if
    its ciphertext was sealed under that key and nonce, as a line, around the payload's JSON. Frames of
    a file, sealed with another associated data, do not pass.
   */
  lemma LineAuthentic(s: Suite, t: TextCodec, key: bytes, nonce: bytes, seed: bytes, table: set<Sealing>, c: bytes, p: Payload)
    requires TextSound(t) && IdealFor(s, key, table) && |key| == 32 && |nonce| == 12
    ensures var w := s.wrap(key + nonce, seed);
            DecryptLine(s, t, t.b64(LINE_MAGIC + Be32(|w|) + w + c)) == Ok(p)
            <==> exists x <- table :: x.nonce == nonce && x.aad == LINE_MAGIC && c == s.seal(key, nonce, LINE_MAGIC, x.plain)
                                      && t.unjson(x.plain) == Some(p)
  {
    var w := s.wrap(key + nonce, seed);
    var data := LINE_MAGIC + Be32(|w|) + w + c;
    StripToken(t.b64(data));
    Be32Decodes(|w|);
    LineParts(w, c);
    assert Slice(key + nonce, 0, 32) == key && Slice(key + nonce, 32, 44) == nonce by {
      Clamped(key + nonce, 0, 32);
      Clamped(key + nonce, 32, 44);
      assert (key + nonce)[0..32] == key && (key + nonce)[32..] == nonce;
    }
    OpensExactly(s, key, nonce, table, c);
    var opens := s.open(key, nonce, LINE_MAGIC, c);
    if opens.Some? {
      assert Sealing(nonce, LINE_MAGIC, opens.value) in table;
    }
    forall x | x in table && x.nonce == nonce && x.aad == LINE_MAGIC && c == s.seal(key, nonce, LINE_MAGIC, x.plain)
      ensures opens == Some(x.plain)
    {
      assert x == Sealing(nonce, LINE_MAGIC, x.plain);
    }
  }

  lemma OpensExactly(s: Suite, key: bytes, nonce: bytes, table: set<Sealing>, c: bytes)
    requires IdealFor(s, key, table)
    ensures forall plain :: Sealing(nonce, LINE_MAGIC, plain) in table && c == s.seal(key, nonce, LINE_MAGIC, plain)
                            <==> s.open(key, nonce, LINE_MAGIC, c) == Some(plain)
  {
  }
}
