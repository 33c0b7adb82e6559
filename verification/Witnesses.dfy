/**
  The contracts on the codecs are satisfiable, so no theorem that requires them is vacuous: here are
  a text codec and a writer of job records that meet them.
 */
module Witnesses {
  import opened Bytes
  import opened Crypto
  import opened Text
  import opened Manifest
  import Jobs
  import PullProtocol

  // ----- words: strings of any length, self-delimiting -----

  function Word(s: string): bytes
  {
    if s == "" then [0] else [1] + Be32(s[0] as int) + Word(s[1..])
  }

  /** Whatever follows, a word determines its string. */
  lemma {:induction false} WordInjective(a: string, b: string, x: bytes, y: bytes)
    requires Word(a) + x == Word(b) + y
    ensures a == b && x == y
  {
    var l, m := Word(a) + x, Word(b) + y;
    if a == "" || b == "" {
      assert l[0] == (if a == "" then 0 else 1) && m[0] == (if b == "" then 0 else 1);
      assert x == l[1..] && y == m[1..];
    } else {
      assert l[1..5] == Be32(a[0] as int) && m[1..5] == Be32(b[0] as int);
      Be32Decodes(a[0] as int);
      Be32Decodes(b[0] as int);
      assert l[5..] == Word(a[1..]) + x && m[5..] == Word(b[1..]) + y;
      WordInjective(a[1..], b[1..], x, y);
      assert a == [a[0]] + a[1..] && b == [b[0]] + b[1..];
    }
  }

  // ----- payloads and base64 -----

  function Json(p: Payload): bytes
  {
    Word(p.id) + Word(p.name)
  }

  ghost function Unjson(b: bytes): Option<Payload>
  {
    if exists p :: Json(p) == b then
      var p :| Json(p) == b;
      Some(p)
    else None
  }

  lemma JsonInjective(p: Payload, q: Payload)
    requires Json(p) == Json(q)
    ensures p == q
  {
    WordInjective(p.id, q.id, Word(p.name), Word(q.name));
    WordInjective(p.name, q.name, [], []);
  }

  /** One character for each byte, none of them white space. */
  function Glyph(b: byte): char
  {
    (0x4E00 + b) as char
  }

  function Glyphs(b: bytes): string
  {
    seq(|b|, i requires 0 <= i < |b| => Glyph(b[i]))
  }

  ghost function Unglyphs(s: string): Option<bytes>
  {
    if exists b :: Glyphs(b) == s then
      var b :| Glyphs(b) == s;
      Some(b)
    else None
  }

  lemma GlyphsInjective(a: bytes, b: bytes)
    requires Glyphs(a) == Glyphs(b)
    ensures a == b
  {
    assert |a| == |Glyphs(a)| == |Glyphs(b)| == |b|;
    forall i | 0 <= i < |a| ensures a[i] == b[i] {
      assert Glyphs(a)[i] == Glyph(a[i]) && Glyphs(b)[i] == Glyph(b[i]);
      assert Glyph(a[i]) as int - 0x4E00 == a[i] && Glyph(b[i]) as int - 0x4E00 == b[i];
    }
  }

  // ----- job records -----

  function StatusCode(s: Jobs.Status): byte
  {
    match s
    case Queued => 0
    case Downloading => 1
    case Paused => 2
    case Encrypting => 3
    case Completed => 4
    case Failed => 5
    case Cancelled => 6
  }

  function PhaseCode(p: Jobs.Phase): byte
  {
    match p
    case NoPhase => 0
    case HttpPhase => 1
    case SwarmPhase => 2
    case PackingPhase => 3
    case EncryptingPhase => 4
  }

  function Tally(n: nat): string
  {
    seq(n, _ => '1')
  }

  function Header(s: Jobs.Saved): bytes
  {
    [StatusCode(s.status), if s.userPaused then 1 else 0, PhaseCode(s.phase)]
  }

  function Record(s: Jobs.Saved): bytes
  {
    Header(s) + (Word(s.name) + Word(Tally(s.downloaded)))
  }

  ghost function Unrecord(b: bytes): Option<Jobs.Saved>
  {
    if exists s :: Record(s) == b then
      var s :| Record(s) == b;
      Some(s)
    else None
  }

  lemma HeaderInjective(s: Jobs.Saved, t: Jobs.Saved)
    requires Header(s) == Header(t)
    ensures s.status == t.status && s.userPaused == t.userPaused && s.phase == t.phase
  {
    assert Header(s)[0] == Header(t)[0] && Header(s)[1] == Header(t)[1] && Header(s)[2] == Header(t)[2];
  }

  lemma SameLengthParts(a: bytes, b: bytes, x: bytes, y: bytes)
    requires a + x == b + y && |a| == |b|
    ensures a == b && x == y
  {
    assert a == (a + x)[..|a|] && b == (b + y)[..|a|];
    assert x == (a + x)[|a|..] && y == (b + y)[|a|..];
  }

  lemma RecordInjective(s: Jobs.Saved, t: Jobs.Saved)
    requires Record(s) == Record(t)
    ensures s == t
  {
    var x, y := Word(Tally(s.downloaded)), Word(Tally(t.downloaded));
    SameLengthParts(Header(s), Header(t), Word(s.name) + x, Word(t.name) + y);
    HeaderInjective(s, t);
    WordInjective(s.name, t.name, x, y);
    WordInjective(Tally(s.downloaded), Tally(t.downloaded), [], []);
    assert |Tally(s.downloaded)| == |Tally(t.downloaded)|;
  }

  // ----- the contracts -----

  ghost function SomeText(): TextCodec
  {
    TextCodec(p => Json(p), b => Unjson(b), b => Glyphs(b), s => Unglyphs(s))
  }

  lemma SomeTextSound()
    ensures TextSound(SomeText())
  {
    forall p ensures Unjson(Json(p)) == Some(p) {
      JsonInjective(p, Unjson(Json(p)).value);
    }
    forall b ensures Unglyphs(Glyphs(b)) == Some(b) && (b != [] ==> IsToken(Glyphs(b))) {
      GlyphsInjective(b, Unglyphs(Glyphs(b)).value);
    }
  }

  /** There are ciphers and text codecs as the pull protocol requires them. */
  lemma EnvExists()
    ensures exists e :: PullProtocol.EnvSound(e)
  {
    SuitesExist([], {});
    SomeTextSound();
    var s :| Sound(s);
    assert PullProtocol.EnvSound(PullProtocol.Env(s, SomeText()));
  }

  /** Any remote file can come with a sound way to write and read records. */
  lemma RemoteExists(content: bytes, disposition: Option<string>)
    ensures exists r: Jobs.Remote :: r.content == content && r.disposition == disposition && Jobs.RecordSound(r)
  {
    var r := Jobs.Remote(content, disposition, s => Record(s), b => Unrecord(b));
    forall s ensures r.decode(r.encode(s)) == Some(s) && r.encode(s) != [] {
      RecordInjective(s, Unrecord(Record(s)).value);
    }
    assert Jobs.RecordSound(r);
  }
}
