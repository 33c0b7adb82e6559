/**
  The streaming file format: a magic, the RSA-wrapped key material, then length-prefixed AEAD
  frames. The nonce of frame i is the first 8 bytes of the nonce base followed by i as a u32, and
  its associated data is the magic followed by i. There is no end marker.
 */
module Codec {
  import opened Bytes
  import opened Crypto
  import opened FileIO

  const FILE_MAGIC_V1: bytes := [0x41, 0x45, 0x53, 0x54, 0x4F, 0x52, 0x30, 0x31]  // AESTOR01
  const FILE_MAGIC_V2: bytes := [0x41, 0x45, 0x53, 0x54, 0x4F, 0x52, 0x30, 0x32]  // AESTOR02
  const CHUNK_SIZE: nat := 0x8_0000
  const MAX_CHUNK_SIZE: nat := 0x40_0000

  datatype Error = Truncated | BadChunkLength | IndexOutOfRange | AuthenticationFailed | BadKey | BadMagic

  datatype Result<+T> = Ok(value: T) | Err(error: Error)

  /** The outcome of a decryption: the bytes written to the destination so far, and how it ended. */
  datatype Decoded = Decoded(plain: bytes, error: Option<Error>)

  function ChunkNonce(base: bytes, index: nat): (r: bytes)
    requires |base| == 12 && index < TWO_32
    ensures |r| == 12
  {
    base[..8] + Be32(index)
  }

  function ChunkAad(magic: bytes, index: nat): (r: bytes)
    requires index < TWO_32
    ensures |r| == |magic| + 4
  {
    magic + Be32(index)
  }

  // ----- the format -----

  function Seal(s: Suite, key: bytes, base: bytes, index: nat, chunk: bytes): bytes
    requires |base| == 12 && index < TWO_32
  {
    s.seal(key, ChunkNonce(base, index), ChunkAad(FILE_MAGIC_V2, index), chunk)
  }

  ghost predicate Fits(chunks: seq<bytes>)
  {
    forall i | 0 <= i < |chunks| :: |chunks[i]| <= MAX_CHUNK_SIZE
  }

  ghost function Frame(s: Suite, key: bytes, base: bytes, index: nat, chunk: bytes): (r: bytes)
    requires TagLength(s) && |base| == 12 && index < TWO_32 && |chunk| <= MAX_CHUNK_SIZE
    ensures |r| == |chunk| + 4 + TAG_SIZE
  {
    Be32(|chunk| + TAG_SIZE) + Seal(s, key, base, index, chunk)
  }

  /** The frames of `chunks` when the first of them has the given index. */
  ghost function Frames(s: Suite, key: bytes, base: bytes, index: nat, chunks: seq<bytes>): bytes
    requires TagLength(s) && |base| == 12 && Fits(chunks) && index + |chunks| <= TWO_32
    decreases |chunks|
  {
    if chunks == [] then []
    else Frame(s, key, base, index, chunks[0]) + Frames(s, key, base, index + 1, chunks[1..])
  }

  ghost function WrappedKey(s: Suite, key: bytes, base: bytes, seed: bytes): bytes
    requires RsaSound(s) && |key| == 32 && |base| == 12
  {
    Be32(s.rsaLen) + s.wrap(key + base, seed)
  }

  ghost function Blob(s: Suite, key: bytes, base: bytes, seed: bytes, chunks: seq<bytes>): bytes
    requires RsaSound(s) && TagLength(s) && |key| == 32 && |base| == 12
    requires Fits(chunks) && |chunks| <= TWO_32
  {
    FILE_MAGIC_V2 + WrappedKey(s, key, base, seed) + Frames(s, key, base, 0, chunks)
  }

  /** A file cut into pieces of `size` bytes, the last one possibly shorter. */
  function Chunks(p: bytes, size: nat): (r: seq<bytes>)
    requires size > 0
    ensures forall i | 0 <= i < |r| :: 0 < |r[i]| <= size
    decreases |p|
  {
    if p == [] then []
    else if |p| <= size then [p]
    else [p[..size]] + Chunks(p[size..], size)
  }

  /** Reading one chunk takes the head off the chunk sequence of what is left. */
  lemma ChunksHead(p: bytes, size: nat)
    requires size > 0 && p != []
    ensures var c := p[..if size <= |p| then size else |p|];
            Chunks(p, size) == [c] + Chunks(p[|c|..], size)
  {
    if |p| <= size {
      assert p[..|p|] == p && p[|p|..] == [];
    }
  }

  /** The chunk counter suffices for the file. */
  ghost predicate Encryptable(p: bytes)
  {
    |Chunks(p, CHUNK_SIZE)| <= TWO_32
  }

  /** The blob the current writer makes of a file. */
  ghost function FileBlob(s: Suite, key: bytes, base: bytes, seed: bytes, p: bytes): bytes
    requires RsaSound(s) && TagLength(s) && |key| == 32 && |base| == 12 && Encryptable(p)
  {
    Blob(s, key, base, seed, Chunks(p, CHUNK_SIZE))
  }

  // ----- reading it back -----

  function Prepend(b: bytes, d: Decoded): Decoded
  {
    d.(plain := b + d.plain)
  }

  lemma PrependTwice(a: bytes, b: bytes, d: Decoded)
    ensures Prepend(a + b, d) == Prepend(a, Prepend(b, d))
  {
    assert (a + b) + d.plain == a + (b + d.plain);
  }

  datatype Next = End | Bad(error: Error) | Ciphertext(ct: bytes, tail: bytes)

  /** Cuts one length-prefixed ciphertext off the front. */
  function NextFrame(rest: bytes): (r: Next)
    ensures r.Ciphertext? ==> |r.tail| < |rest|
  {
    if rest == [] then End
    else if |rest| < 4 then Bad(Truncated)
    else
      var ctLen := FromBe32(rest[..4]);
      if ctLen < TAG_SIZE || ctLen > MAX_CHUNK_SIZE + TAG_SIZE then Bad(BadChunkLength)
      else if |rest| - 4 < ctLen then Bad(Truncated)
      else Ciphertext(rest[4..4 + ctLen], rest[4 + ctLen..])
  }

  function OpenFrame(s: Suite, key: bytes, base: bytes, index: nat, ct: bytes): Result<bytes>
    requires |base| == 12
  {
    if index >= TWO_32 then Err(IndexOutOfRange)
    else
      match s.open(key, ChunkNonce(base, index), ChunkAad(FILE_MAGIC_V2, index), ct)
      case None => Err(AuthenticationFailed)
      case Some(p) => Ok(p)
  }

  /** What the frame loop does with the bytes that are left when it expects frame `index`. */
  function DecodeFrames(s: Suite, key: bytes, base: bytes, index: nat, rest: bytes): Decoded
    requires |base| == 12
    decreases |rest|
  {
    match NextFrame(rest)
    case End => Decoded([], None)
    case Bad(e) => Decoded([], Some(e))
    case Ciphertext(ct, tail) =>
      match OpenFrame(s, key, base, index, ct)
      case Err(e) => Decoded([], Some(e))
      case Ok(p) => Prepend(p, DecodeFrames(s, key, base, index + 1, tail))
  }

  function DecodeLegacy(s: Suite, key: bytes, base: bytes, rest: bytes): Decoded
  {
    match s.open(key, base, FILE_MAGIC_V1, rest)
    case None => Decoded([], Some(AuthenticationFailed))
    case Some(p) => Decoded(p, None)
  }

  /** What the header gives: the magic, the unwrapped key and nonce base, and the bytes after it. */
  datatype Opened = Opened(magic: bytes, key: bytes, base: bytes, rest: bytes)

  function OpenHeader(s: Suite, blob: bytes): (r: Result<Opened>)
    ensures r.Ok? ==> |r.value.base| == 12
  {
    if |blob| < 12 then Err(Truncated)
    else
      var rsaLen := FromBe32(blob[8..12]);
      if |blob| < 12 + rsaLen then Err(Truncated)
      else
        match s.unwrap(blob[12..12 + rsaLen])
        case None => Err(BadKey)
        case Some(w) =>
          if |w| < WRAP_SIZE then Err(BadKey)
          else Ok(Opened(blob[..8], w[..32], w[32..44], blob[12 + rsaLen..]))
  }

  /** Decryption of a whole blob with the private key that `s.unwrap` stands for. */
  function Decode(s: Suite, blob: bytes): Decoded
  {
    match OpenHeader(s, blob)
    case Err(e) => Decoded([], Some(e))
    case Ok(h) =>
      if h.magic == FILE_MAGIC_V2 then DecodeFrames(s, h.key, h.base, 0, h.rest)
      else if h.magic == FILE_MAGIC_V1 then DecodeLegacy(s, h.key, h.base, h.rest)
      else Decoded([], Some(BadMagic))
  }

  // ----- the two loops of the program -----

  /** What a run of the loop adds: bytes in the destination, progress calls, and how it ended. */
  datatype Encoded = Encoded(data: bytes, reports: seq<(nat, nat)>, error: Option<Error>)

  function After(b: bytes, reports: seq<(nat, nat)>, e: Encoded): Encoded
  {
    Encoded(b + e.data, reports + e.reports, e.error)
  }

  lemma AfterTwice(a: bytes, b: bytes, p: seq<(nat, nat)>, q: seq<(nat, nat)>, e: Encoded)
    ensures After(a, p, After(b, q, e)) == After(a + b, p + q, e)
  {
    assert a + (b + e.data) == a + b + e.data;
    assert p + (q + e.reports) == p + q + e.reports;
  }

  function FirstChunk(left: bytes): bytes
  {
    if CHUNK_SIZE <= |left| then left[..CHUNK_SIZE] else left
  }

  /** The read, seal and write loop on what is `left` of a file of `total` bytes, from frame `index` on. */
  ghost function EncodeFrames(s: Suite, key: bytes, base: bytes, index: nat, left: bytes, total: nat): Encoded
    requires |base| == 12 && TagLength(s) && |left| <= total
    decreases |left|
  {
    if left == [] then Encoded([], [], None)
    else if index >= TWO_32 then Encoded([], [], Some(IndexOutOfRange))
    else
      var chunk := FirstChunk(left);
      var tail := left[|chunk|..];
      After(Frame(s, key, base, index, chunk), [(total - |tail|, total)],
            EncodeFrames(s, key, base, index + 1, tail, total))
  }

  /** The receiver of the progress calls. */
  class ProgressSink {
    var reports: seq<(nat, nat)>

    constructor ()
      ensures reports == []
    {
      reports := [];
    }

    method Report(done: nat, total: nat)
      modifies this
      ensures reports == old(reports) + [(done, total)]
    {
      reports := reports + [(done, total)];
    }
  }

  method WriteWrapped(out: OutFile, rsaBlob: bytes)
    requires |rsaBlob| < TWO_32
    modifies out
    ensures out.data == old(out.data) + (Be32(|rsaBlob|) + rsaBlob)
  {
    out.Write(Be32(|rsaBlob|));
    out.Write(rsaBlob);
  }

  /**
    Encrypts `source` under fresh key material. `data` is the destination file and `reports` the
    progress calls, both also when the chunk counter runs out.
   */
  method EncryptFile(s: Suite, source: bytes, key: bytes, base: bytes, seed: bytes)
    returns (r: Result<nat>, data: bytes, reports: seq<(nat, nat)>)
    requires RsaSound(s) && TagLength(s) && |key| == 32 && |base| == 12
    ensures r == (if Encryptable(source) then Ok(|data|) else Err(IndexOutOfRange))
    ensures Encryptable(source) ==> data == FileBlob(s, key, base, seed, source)
    ensures !Encryptable(source) ==> data == Blob(s, key, base, seed, Chunks(source, CHUNK_SIZE)[..TWO_32])
    ensures r.Ok? ==> if source == [] then reports == [(0, 0)] else RisesTo(reports, |source|)
  {
    var out := new OutFile();
    var sink := new ProgressSink();
    var error := EncryptInto(s, source, key, base, seed, out, sink);
    EncryptsWhole(s, key, base, seed, source);
    if error.Some? {
      return Err(error.value), out.data, sink.reports;
    }
    if |source| == 0 {
      sink.Report(0, 0);
    }
    return Ok(|out.data|), out.data, sink.reports;
  }

  /** The header, then the frames. */
  method EncryptInto(s: Suite, source: bytes, key: bytes, base: bytes, seed: bytes, out: OutFile, sink: ProgressSink)
    returns (error: Option<Error>)
    requires RsaSound(s) && TagLength(s) && |key| == 32 && |base| == 12
    requires out.data == [] && sink.reports == []
    modifies out, sink
    ensures Encoded(out.data, sink.reports, error)
         == After(FILE_MAGIC_V2 + WrappedKey(s, key, base, seed), [], EncodeFrames(s, key, base, 0, source, |source|))
  {
    var rsaBlob := s.wrap(key + base, seed);
    var inp := new InFile(source);
    out.Write(FILE_MAGIC_V2);
    WriteWrapped(out, rsaBlob);
    assert out.data == FILE_MAGIC_V2 + WrappedKey(s, key, base, seed);
    error := EncryptChunks(s, key, base, |source|, inp, out, sink);
  }

  /** What the destination and the progress calls will be once the rest of the input is encrypted. */
  ghost function Outcome(s: Suite, key: bytes, base: bytes, index: nat, total: nat,
                         inp: InFile, out: OutFile, sink: ProgressSink): Encoded
    reads inp, out, sink
    requires TagLength(s) && |base| == 12 && inp.Valid() && |inp.Rest()| <= total
  {
    After(out.data, sink.reports, EncodeFrames(s, key, base, index, inp.Rest(), total))
  }

  lemma OutcomeStep(s: Suite, key: bytes, base: bytes, index: nat, left: bytes, total: nat,
                    data: bytes, reports: seq<(nat, nat)>)
    requires TagLength(s) && |base| == 12 && left != [] && index < TWO_32 && |left| <= total
    ensures var c := FirstChunk(left);
            After(data, reports, EncodeFrames(s, key, base, index, left, total))
            == After(data + Frame(s, key, base, index, c), reports + [(total - |left[|c|..]|, total)],
                     EncodeFrames(s, key, base, index + 1, left[|c|..], total))
  {
    var c := FirstChunk(left);
    AfterTwice(data, Frame(s, key, base, index, c), reports, [(total - |left[|c|..]|, total)],
               EncodeFrames(s, key, base, index + 1, left[|c|..], total));
  }

  lemma OutcomeEnds(s: Suite, key: bytes, base: bytes, index: nat, left: bytes, total: nat,
                    data: bytes, reports: seq<(nat, nat)>)
    requires TagLength(s) && |base| == 12 && |left| <= total && (left == [] || index >= TWO_32)
    ensures After(data, reports, EncodeFrames(s, key, base, index, left, total))
         == Encoded(data, reports, if left == [] then None else Some(IndexOutOfRange))
  {
  }

  method WriteFrame(s: Suite, key: bytes, base: bytes, index: nat, chunk: bytes, out: OutFile)
    requires TagLength(s) && |base| == 12 && index < TWO_32 && |chunk| <= MAX_CHUNK_SIZE
    modifies out
    ensures out.data == old(out.data) + Frame(s, key, base, index, chunk)
  {
    var ct := s.seal(key, ChunkNonce(base, index), ChunkAad(FILE_MAGIC_V2, index), chunk);
    out.Write(Be32(|ct|) + ct);
  }

  /** One turn of the loop: reads a chunk, seals it, writes its frame and reports; [] at the end of the input. */
  method EncryptOne(s: Suite, key: bytes, base: bytes, index: nat, done: nat, total: nat,
                    inp: InFile, out: OutFile, sink: ProgressSink)
    returns (r: Result<bytes>)
    requires TagLength(s) && |base| == 12 && inp.Valid() && done + |inp.Rest()| == total
    modifies inp, out, sink
    ensures inp.Valid()
    ensures match r
            case Err(e) => Encoded(out.data, sink.reports, Some(e)) == old(Outcome(s, key, base, index, total, inp, out, sink))
            case Ok(c) =>
              && done + |c| + |inp.Rest()| == total
              && (c == [] ==> Encoded(out.data, sink.reports, None)
                              == old(Outcome(s, key, base, index, total, inp, out, sink)))
              && (c != [] ==> Outcome(s, key, base, index + 1, total, inp, out, sink)
                              == old(Outcome(s, key, base, index, total, inp, out, sink)))
  {
    ghost var left := inp.Rest();
    var chunk := inp.Read(CHUNK_SIZE);
    assert chunk == FirstChunk(left);
    if chunk == [] || index >= TWO_32 {
      OutcomeEnds(s, key, base, index, left, total, out.data, sink.reports);
      return if chunk == [] then Ok([]) else Err(IndexOutOfRange);
    }
    OutcomeStep(s, key, base, index, left, total, out.data, sink.reports);
    WriteFrame(s, key, base, index, chunk, out);
    sink.Report(done + |chunk|, total);
    return Ok(chunk);
  }

  /** The read, seal, write and report loop. */
  method EncryptChunks(s: Suite, key: bytes, base: bytes, total: nat,
                       inp: InFile, out: OutFile, sink: ProgressSink)
    returns (error: Option<Error>)
    requires TagLength(s) && |base| == 12 && inp.Valid() && |inp.Rest()| == total
    modifies inp, out, sink
    ensures Encoded(out.data, sink.reports, error) == old(Outcome(s, key, base, 0, total, inp, out, sink))
  {
    var index := 0;
    var done := 0;
    while true
      invariant inp.Valid() && done + |inp.Rest()| == total && done >= 0
      invariant Outcome(s, key, base, index, total, inp, out, sink)
             == old(Outcome(s, key, base, 0, total, inp, out, sink))
      decreases total - done
    {
      var chunk := EncryptOne(s, key, base, index, done, total, inp, out, sink);
      if chunk.Err? {
        return Some(chunk.error);
      }
      if chunk.value == [] {
        return None;
      }
      done := done + |chunk.value|;
      index := index + 1;
    }
  }

  lemma FramesCons(s: Suite, key: bytes, base: bytes, index: nat, chunk: bytes, others: seq<bytes>)
    requires TagLength(s) && |base| == 12 && |chunk| <= MAX_CHUNK_SIZE && Fits(others) && index + 1 + |others| <= TWO_32
    ensures Fits([chunk] + others)
    ensures Frames(s, key, base, index, [chunk] + others)
         == Frame(s, key, base, index, chunk) + Frames(s, key, base, index + 1, others)
  {
    assert ([chunk] + others)[0] == chunk && ([chunk] + others)[1..] == others;
  }

  /** The loop writes exactly the frames of the file cut into chunks, until the counter runs out. */
  lemma {:induction false} EncodesChunks(s: Suite, key: bytes, base: bytes, index: nat, left: bytes, total: nat)
    requires |base| == 12 && TagLength(s) && index <= TWO_32 && |left| <= total
    ensures var chunks, e := Chunks(left, CHUNK_SIZE), EncodeFrames(s, key, base, index, left, total);
            if index + |chunks| <= TWO_32
            then e.error == None && e.data == Frames(s, key, base, index, chunks)
            else e.error == Some(IndexOutOfRange)
                 && e.data == Frames(s, key, base, index, chunks[..TWO_32 - index])
    decreases |left|
  {
    if left != [] && index < TWO_32 {
      var chunk := FirstChunk(left);
      var others := Chunks(left[|chunk|..], CHUNK_SIZE);
      ChunksHead(left, CHUNK_SIZE);
      EncodesChunks(s, key, base, index + 1, left[|chunk|..], total);
      if index + 1 + |others| <= TWO_32 {
        FramesCons(s, key, base, index, chunk, others);
      } else {
        var k := TWO_32 - index;
        FramesCons(s, key, base, index, chunk, others[..k - 1]);
        assert ([chunk] + others)[..k] == [chunk] + others[..k - 1];
      }
    }
  }

  /** Progress that strictly rises and ends at (total, total). */
  ghost predicate RisesTo(reports: seq<(nat, nat)>, total: nat)
  {
    && reports != [] && reports[|reports| - 1] == (total, total)
    && (forall i | 0 <= i < |reports| :: 0 < reports[i].0 && reports[i].1 == total)
    && (forall i, j | 0 <= i < j < |reports| :: reports[i].0 < reports[j].0)
  }

  lemma {:induction false} EncodedReportsRise(s: Suite, key: bytes, base: bytes, index: nat, left: bytes, total: nat)
    requires |base| == 12 && TagLength(s) && |left| <= total
    ensures var e := EncodeFrames(s, key, base, index, left, total);
            && (forall i | 0 <= i < |e.reports| :: total - |left| < e.reports[i].0)
            && (left != [] && e.error == None ==> RisesTo(e.reports, total))
    decreases |left|
  {
    if left != [] && index < TWO_32 {
      var chunk := FirstChunk(left);
      EncodedReportsRise(s, key, base, index + 1, left[|chunk|..], total);
    }
  }

  /** What the loop makes of a whole file behind the header: the blob, or as much of it as can be numbered. */
  lemma EncryptsWhole(s: Suite, key: bytes, base: bytes, seed: bytes, source: bytes)
    requires RsaSound(s) && TagLength(s) && |key| == 32 && |base| == 12
    ensures var e := After(FILE_MAGIC_V2 + WrappedKey(s, key, base, seed), [],
                           EncodeFrames(s, key, base, 0, source, |source|));
            if Encryptable(source)
            then e.error == None && e.data == FileBlob(s, key, base, seed, source)
                 && (if source == [] then e.reports == [] else RisesTo(e.reports, |source|))
            else e.error == Some(IndexOutOfRange)
                 && e.data == Blob(s, key, base, seed, Chunks(source, CHUNK_SIZE)[..TWO_32])
  {
    EncodesChunks(s, key, base, 0, source, |source|);
    EncodedReportsRise(s, key, base, 0, source, |source|);
    var e := EncodeFrames(s, key, base, 0, source, |source|);
    assert [] + e.reports == e.reports;
  }

  /** Reads exactly `n` bytes or fails. */
  method ReadExact(inp: InFile, n: nat) returns (r: Result<bytes>)
    requires inp.Valid()
    modifies inp
    ensures inp.Valid()
    ensures if n <= |old(inp.Rest())|
            then r == Ok(old(inp.Rest())[..n]) && inp.Rest() == old(inp.Rest())[n..]
            else r == Err(Truncated)
  {
    var data := inp.Read(n);
    if |data| != n {
      return Err(Truncated);
    }
    return Ok(data);
  }

  method ReadHeader(s: Suite, inp: InFile) returns (r: Result<Opened>)
    requires inp.Valid()
    modifies inp
    ensures inp.Valid() && r == OpenHeader(s, old(inp.Rest()))
    ensures r.Ok? ==> inp.Rest() == r.value.rest
  {
    ghost var blob := inp.Rest();
    var magic := ReadExact(inp, 8);
    if magic.Err? { return Err(magic.error); }
    var lenBytes := ReadExact(inp, 4);
    if lenBytes.Err? { return Err(lenBytes.error); }
    assert lenBytes.value == blob[8..12];
    assert inp.Rest() == blob[12..];
    var rsaLen := FromBe32(lenBytes.value);
    var rsaBlob := ReadExact(inp, rsaLen);
    if rsaBlob.Err? { return Err(rsaBlob.error); }
    assert rsaBlob.value == blob[12..12 + rsaLen];
    assert inp.Rest() == blob[12 + rsaLen..];
    var material := s.unwrap(rsaBlob.value);
    if material.None? || |material.value| < WRAP_SIZE { return Err(BadKey); }
    return Ok(Opened(magic.value, material.value[..32], material.value[32..44], inp.data[inp.pos..]));
  }

  /** The plaintext byte count, or the error. */
  function PlainCount(d: Decoded): Result<nat>
  {
    match d.error
    case None => Ok(|d.plain|)
    case Some(e) => Err(e)
  }

  /** Decrypts `blob`; `written` is the destination file, which a failure leaves behind as well. */
  method DecryptFile(s: Suite, blob: bytes) returns (r: Result<nat>, written: bytes)
    ensures written == Decode(s, blob).plain && r == PlainCount(Decode(s, blob))
  {
    var inp := new InFile(blob);
    var out := new OutFile();
    var header := ReadHeader(s, inp);
    if header.Err? { return Err(header.error), []; }
    var h := header.value;
    if h.magic == FILE_MAGIC_V2 {
      r, written := DecryptFrames(s, h.key, h.base, inp, out);
    } else if h.magic == FILE_MAGIC_V1 {
      var cipher := inp.Read(|h.rest|);
      assert cipher == h.rest;
      var plain := s.open(h.key, h.base, FILE_MAGIC_V1, cipher);
      if plain.None? { return Err(AuthenticationFailed), []; }
      out.Write(plain.value);
      return Ok(|plain.value|), out.data;
    } else {
      return Err(BadMagic), [];
    }
  }

  method ReadFrame(inp: InFile) returns (r: Next)
    requires inp.Valid()
    modifies inp
    ensures inp.Valid() && r == NextFrame(old(inp.Rest()))
    ensures r.Ciphertext? ==> inp.Rest() == r.tail
  {
    ghost var before := inp.Rest();
    var lenBytes := inp.Read(4);
    if lenBytes == [] {
      return End;
    }
    if |lenBytes| != 4 {
      return Bad(Truncated);
    }
    var ctLen := FromBe32(lenBytes);
    if ctLen < TAG_SIZE || ctLen > MAX_CHUNK_SIZE + TAG_SIZE {
      return Bad(BadChunkLength);
    }
    var ct := ReadExact(inp, ctLen);
    if ct.Err? {
      return Bad(ct.error);
    }
    assert ct.value == before[4..4 + ctLen];
    assert inp.Rest() == before[4 + ctLen..];
    return Ciphertext(ct.value, inp.data[inp.pos..]);
  }

  /** The frame loop of the streaming format. */
  method DecryptFrames(s: Suite, key: bytes, base: bytes, inp: InFile, out: OutFile)
    returns (r: Result<nat>, written: bytes)
    requires |base| == 12 && inp.Valid() && out.data == []
    modifies inp, out
    ensures var d := DecodeFrames(s, key, base, 0, old(inp.Rest()));
            written == d.plain && r == PlainCount(d)
  {
    var index := 0;
    var plainTotal := 0;
    ghost var start := inp.Rest();
    while true
      invariant inp.Valid() && plainTotal == |out.data|
      invariant DecodeFrames(s, key, base, 0, start)
             == Prepend(out.data, DecodeFrames(s, key, base, index, inp.Rest()))
      decreases |inp.Rest()|
    {
      var frame := ReadFrame(inp);
      if frame.End? {
        return Ok(plainTotal), out.data;
      }
      if frame.Bad? {
        return Err(frame.error), out.data;
      }
      var plain := OpenFrame(s, key, base, index, frame.ct);
      if plain.Err? {
        return Err(plain.error), out.data;
      }
      PrependTwice(out.data, plain.value, DecodeFrames(s, key, base, index + 1, frame.tail));
      out.Write(plain.value);
      plainTotal := plainTotal + |plain.value|;
      index := index + 1;
    }
  }
}
