/**
  The manifest: one line per finished file, holding the file id, a tab, and the base64 text of the
  encrypted JSON payload with the id and the original name.
 */
module Manifest {
  import opened Bytes
  import opened Crypto
  import opened Text

  const LINE_MAGIC: bytes := [0x41, 0x45, 0x53, 0x54, 0x4F, 0x52, 0x4C, 0x31]  // AESTORL1

  datatype Payload = Payload(id: string, name: string)

  /** A plaintext with its name: what is published under an id, or what a client keeps. */
  datatype Item = Item(plain: bytes, name: string)

  datatype Row = Row(id: string, b64: string)

  datatype LineError = BadBase64 | BadLineMagic | BadLength | BadLineKey | BadTag | BadJson | MalformedLine

  datatype Parsed<+T> = Ok(value: T) | Err(error: LineError)

  /** JSON and base64 as parameters, each with its inverse. */
  datatype TextCodec = TextCodec(
    json: Payload -> bytes, unjson: bytes -> Option<Payload>,
    b64: bytes -> string, unb64: string -> Option<bytes>)

  ghost predicate TextSound(t: TextCodec)
  {
    && (forall p :: t.unjson(t.json(p)) == Some(p))
    && (forall b :: t.unb64(t.b64(b)) == Some(b) && (b != [] ==> IsToken(t.b64(b))))
  }

  // ----- one encrypted line -----

  function EncryptPayload(s: Suite, t: TextCodec, p: Payload, key: bytes, nonce: bytes, seed: bytes): string
    requires RsaSound(s) && |key| == 32 && |nonce| == 12
  {
    var rsaBlob := s.wrap(key + nonce, seed);
    t.b64(LINE_MAGIC + Be32(|rsaBlob|) + rsaBlob + s.seal(key, nonce, LINE_MAGIC, t.json(p)))
  }

  /** Slicing clamps its bounds to the data. */
  function Slice(b: bytes, lo: nat, hi: nat): bytes
    requires lo <= hi
  {
    if |b| <= lo then [] else if |b| <= hi then b[lo..] else b[lo..hi]
  }

  function DecryptLine(s: Suite, t: TextCodec, text: string): Parsed<Payload>
  {
    match t.unb64(Strip(text))
    case None => Err(BadBase64)
    case Some(data) =>
      if Slice(data, 0, 8) != LINE_MAGIC then Err(BadLineMagic)
      else if |data| < 12 then Err(BadLength)
      else
        var rsaLen := FromBe32(data[8..12]);
        match s.unwrap(Slice(data, 12, 12 + rsaLen))
        case None => Err(BadLineKey)
        case Some(w) =>
          var cipher := Slice(data, 12 + rsaLen, 12 + rsaLen + |data|);
          match s.open(Slice(w, 0, 32), Slice(w, 32, 44), LINE_MAGIC, cipher)
          case None => Err(BadTag)
          case Some(plain) =>
            match t.unjson(plain)
            case None => Err(BadJson)
            case Some(p) => Ok(p)
  }

  lemma StripToken(s: string)
    requires s != "" && !IsSpace(s[0]) && !IsSpace(s[|s| - 1])
    ensures Strip(s) == s
  {
  }

  /** Decrypting a manifest line returns the payload it was made from. */
  lemma LineRoundTrip(s: Suite, t: TextCodec, p: Payload, key: bytes, nonce: bytes, seed: bytes)
    requires Sound(s) && TextSound(t) && |key| == 32 && |nonce| == 12
    ensures DecryptLine(s, t, EncryptPayload(s, t, p, key, nonce, seed)) == Ok(p)
    ensures IsToken(EncryptPayload(s, t, p, key, nonce, seed))
  {
    var w, c := s.wrap(key + nonce, seed), s.seal(key, nonce, LINE_MAGIC, t.json(p));
    var data := LINE_MAGIC + Be32(|w|) + w + c;
    StripToken(t.b64(data));
    Be32Decodes(|w|);
    assert data[..8] == LINE_MAGIC && data[8..12] == Be32(|w|);
    assert data[12..12 + |w|] == w && data[12 + |w|..] == c;
    assert Slice(data, 12, 12 + |w|) == w && Slice(data, 12 + |w|, 12 + |w| + |data|) == c;
    assert Slice(key + nonce, 0, 32) == key && Slice(key + nonce, 32, 44) == nonce;
  }

  // ----- the text -----

  function Line(r: Row): string
  {
    r.id + "\t" + r.b64 + "\n"
  }

  function Render(rows: seq<Row>): string
  {
    if rows == [] then "" else Line(rows[0]) + Render(rows[1..])
  }

  /** Rows as the store writes them: no white space inside a cell, and not a comment. */
  predicate IsRow(r: Row)
  {
    IsToken(r.id) && r.id[0] != '#' && IsToken(r.b64)
  }

  ghost predicate AreRows(rows: seq<Row>)
  {
    forall i | 0 <= i < |rows| :: IsRow(rows[i])
  }

  /** What one line of the text contributes. */
  function ParseLine(raw: string): Parsed<seq<Row>>
  {
    var line := Strip(raw);
    if line == "" || line[0] == '#' then Ok([])
    else
      var k := IndexOf(line, '\t');
      if k == |line| then Err(MalformedLine)
      else Ok([Row(Strip(line[..k]), Strip(line[k + 1..]))])
  }

  function ParseLines(lines: seq<string>): Parsed<seq<Row>>
  {
    if lines == [] then Ok([])
    else
      match ParseLine(lines[0])
      case Err(e) => Err(e)
      case Ok(first) => Joined(first, ParseLines(lines[1..]))
  }

  function Joined(rows: seq<Row>, p: Parsed<seq<Row>>): Parsed<seq<Row>>
  {
    match p
    case Err(e) => Err(e)
    case Ok(rest) => Ok(rows + rest)
  }

  lemma JoinedTwice(a: seq<Row>, b: seq<Row>, p: Parsed<seq<Row>>)
    ensures Joined([], p) == p
    ensures Joined(a, Joined(b, p)) == Joined(a + b, p)
  {
    if p.Ok? {
      assert [] + p.value == p.value && a + (b + p.value) == a + b + p.value;
    }
  }

  /** The client's reading of the manifest text, stopping at the first malformed line. */
  method ParseText(text: string) returns (r: Parsed<seq<Row>>)
    ensures r == ParseLines(SplitLines(text))
  {
    var rows: seq<Row> := [];
    var lines := SplitLines(text);
    var i := 0;
    JoinedTwice([], [], ParseLines(lines));
    assert lines[0..] == lines;
    while i < |lines|
      invariant 0 <= i <= |lines|
      invariant ParseLines(lines) == Joined(rows, ParseLines(lines[i..]))
    {
      var row := ParseLine(lines[i]);
      if row.Err? {
        return Err(row.error);
      }
      assert lines[i..][1..] == lines[i + 1..];
      JoinedTwice(rows, row.value, ParseLines(lines[i + 1..]));
      rows := rows + row.value;
      i := i + 1;
    }
    assert lines[i..] == [] && rows + [] == rows;
    return Ok(rows);
  }

  lemma {:induction false} LineEndOfPrefix(a: string, b: string)
    requires forall i | 0 <= i < |a| :: !IsLineBreak(a[i])
    ensures LineEnd(a + "\n" + b) == |a|
  {
    if a != "" {
      LineEndOfPrefix(a[1..], b);
      assert (a + "\n" + b)[1..] == a[1..] + "\n" + b;
    }
  }

  lemma IndexOfFirst(a: string, c: char, b: string)
    requires c !in a
    ensures IndexOf(a + [c] + b, c) == |a|
  {
    var s := a + [c] + b;
    assert s[..|a|] == a && s[|a|] == c;
  }

  lemma LineParses(r: Row)
    requires IsRow(r)
    ensures ParseLine(r.id + "\t" + r.b64) == Ok([r])
  {
    var line := r.id + "\t" + r.b64;
    StripToken(line);
    StripToken(r.id);
    StripToken(r.b64);
    assert '\t' !in r.id;
    IndexOfFirst(r.id, '\t', r.b64);
    assert line[..|r.id|] == r.id && line[|r.id| + 1..] == r.b64;
  }

  lemma SplitsFirst(body: string, rest: string)
    requires forall i | 0 <= i < |body| :: !IsLineBreak(body[i])
    ensures SplitLines(body + "\n" + rest) == [body] + SplitLines(rest)
  {
    var text := body + "\n" + rest;
    LineEndOfPrefix(body, rest);
    assert text[..|body|] == body && text[|body| + 1..] == rest;
  }

  /** Parsing the text of any rows returns those rows in the same order. */
  lemma {:induction false} ParsesRendered(rows: seq<Row>)
    requires AreRows(rows)
    ensures ParseLines(SplitLines(Render(rows))) == Ok(rows)
  {
    if rows != [] {
      var body, rest := rows[0].id + "\t" + rows[0].b64, Render(rows[1..]);
      assert Render(rows) == body + "\n" + rest;
      SplitsFirst(body, rest);
      LineParses(rows[0]);
      ParsesRendered(rows[1..]);
      assert ([body] + SplitLines(rest))[1..] == SplitLines(rest);
      assert [rows[0]] + rows[1..] == rows;
    }
  }
}
