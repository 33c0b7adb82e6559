/** Round trip, truncation, authenticity and size of the streaming format. */
module CodecProofs {
  import opened Bytes
  import opened Crypto
  import opened Codec

  // ----- reading a run of frames -----

  /** Every frame opens under its own index. */
  ghost predicate Opens(s: Suite, key: bytes, base: bytes, index: nat, chunks: seq<bytes>)
    requires |base| == 12 && index + |chunks| <= TWO_32
    decreases |chunks|
  {
    chunks != [] ==>
      && OpenFrame(s, key, base, index, Seal(s, key, base, index, chunks[0])) == Ok(chunks[0])
      && Opens(s, key, base, index + 1, chunks[1..])
  }

  lemma {:induction false} SoundOpens(s: Suite, key: bytes, base: bytes, index: nat, chunks: seq<bytes>)
    requires Sound(s) && |base| == 12 && index + |chunks| <= TWO_32
    ensures Opens(s, key, base, index, chunks)
    decreases |chunks|
  {
    if chunks != [] {
      SoundOpens(s, key, base, index + 1, chunks[1..]);
    }
  }

  lemma NextIsFrame(s: Suite, key: bytes, base: bytes, index: nat, chunk: bytes, rest: bytes)
    requires TagLength(s) && |base| == 12 && index < TWO_32 && |chunk| <= MAX_CHUNK_SIZE
    ensures NextFrame(Frame(s, key, base, index, chunk) + rest) == Ciphertext(Seal(s, key, base, index, chunk), rest)
  {
    var ct := Seal(s, key, base, index, chunk);
    var b := Frame(s, key, base, index, chunk) + rest;
    Be32Bijection(|ct|, b[..4]);
    assert b[..4] == Be32(|ct|);
    assert b[4..4 + |ct|] == ct && b[4 + |ct|..] == rest;
  }

  /** One more frame in front of a run whose decoding is known. */
  lemma DecodesOneMore(s: Suite, key: bytes, base: bytes, index: nat, chunk: bytes, run: bytes, rest: bytes,
                       content: bytes, after: Decoded)
    requires TagLength(s) && |base| == 12 && index < TWO_32 && |chunk| <= MAX_CHUNK_SIZE
    requires OpenFrame(s, key, base, index, Seal(s, key, base, index, chunk)) == Ok(chunk)
    requires DecodeFrames(s, key, base, index + 1, run + rest) == Prepend(content, after)
    ensures DecodeFrames(s, key, base, index, (Frame(s, key, base, index, chunk) + run) + rest)
         == Prepend(chunk + content, after)
  {
    var f := Frame(s, key, base, index, chunk);
    assert (f + run) + rest == f + (run + rest);
    NextIsFrame(s, key, base, index, chunk, run + rest);
    PrependTwice(chunk, content, after);
  }

  lemma DecodesStep(s: Suite, key: bytes, base: bytes, index: nat, chunks: seq<bytes>, rest: bytes, after: Decoded)
    requires TagLength(s) && |base| == 12 && chunks != [] && Fits(chunks) && index + |chunks| <= TWO_32
    requires Opens(s, key, base, index, chunks)
    requires DecodeFrames(s, key, base, index + 1, Frames(s, key, base, index + 1, chunks[1..]) + rest)
          == Prepend(Concat(chunks[1..]), after)
    ensures DecodeFrames(s, key, base, index, Frames(s, key, base, index, chunks) + rest) == Prepend(Concat(chunks), after)
  {
    DecodesOneMore(s, key, base, index, chunks[0], Frames(s, key, base, index + 1, chunks[1..]), rest,
                   Concat(chunks[1..]), after);
  }

  lemma {:induction false} DecodesOnto(s: Suite, key: bytes, base: bytes, index: nat, chunks: seq<bytes>, rest: bytes,
                                       end: nat, after: Decoded)
    requires TagLength(s) && |base| == 12 && Fits(chunks) && index + |chunks| == end <= TWO_32
    requires Opens(s, key, base, index, chunks) && after == DecodeFrames(s, key, base, end, rest)
    ensures DecodeFrames(s, key, base, index, Frames(s, key, base, index, chunks) + rest) == Prepend(Concat(chunks), after)
    decreases |chunks|
  {
    if chunks == [] {
      assert [] + rest == rest;
    } else {
      DecodesOnto(s, key, base, index + 1, chunks[1..], rest, end, after);
      DecodesStep(s, key, base, index, chunks, rest, after);
    }
  }

  /** Decoding the frames of `chunks` yields their contents and goes on with whatever follows them. */
  lemma DecodesFrames(s: Suite, key: bytes, base: bytes, index: nat, chunks: seq<bytes>, rest: bytes)
    requires TagLength(s) && |base| == 12 && Fits(chunks) && index + |chunks| <= TWO_32
    requires Opens(s, key, base, index, chunks)
    ensures DecodeFrames(s, key, base, index, Frames(s, key, base, index, chunks) + rest)
         == Prepend(Concat(chunks), DecodeFrames(s, key, base, index + |chunks|, rest))
  {
    DecodesOnto(s, key, base, index, chunks, rest, index + |chunks|, DecodeFrames(s, key, base, index + |chunks|, rest));
  }

  /** A blob whose wrapped key is the original one opens to the original key and nonce base. */
  lemma HeaderOpens(s: Suite, key: bytes, base: bytes, seed: bytes, magic: bytes, rest: bytes)
    requires RsaSound(s) && |key| == 32 && |base| == 12 && |magic| == 8
    ensures OpenHeader(s, magic + WrappedKey(s, key, base, seed) + rest) == Ok(Opened(magic, key, base, rest))
  {
    var w := s.wrap(key + base, seed);
    var b := magic + WrappedKey(s, key, base, seed) + rest;
    Be32Bijection(s.rsaLen, b[8..12]);
    assert b[8..12] == Be32(s.rsaLen) && b[..8] == magic;
    assert b[12..12 + s.rsaLen] == w && b[12 + s.rsaLen..] == rest;
    assert (key + base)[..32] == key && (key + base)[32..44] == base;
  }

  // ----- round trip -----

  /** Decryption returns the plaintext, whatever way it was cut into chunks of up to 4 MiB. */
  lemma RoundTrip(s: Suite, key: bytes, base: bytes, seed: bytes, chunks: seq<bytes>)
    requires Sound(s) && |key| == 32 && |base| == 12 && Fits(chunks) && |chunks| <= TWO_32
    ensures Decode(s, Blob(s, key, base, seed, chunks)) == Decoded(Concat(chunks), None)
  {
    var f := Frames(s, key, base, 0, chunks);
    HeaderOpens(s, key, base, seed, FILE_MAGIC_V2, f);
    SoundOpens(s, key, base, 0, chunks);
    DecodesFrames(s, key, base, 0, chunks, []);
    assert f + [] == f;
  }

  lemma {:induction false} ChunksRejoin(p: bytes, size: nat)
    requires size > 0
    ensures Concat(Chunks(p, size)) == p
    decreases |p|
  {
    if p == [] {
    } else if |p| <= size {
      assert [p][1..] == [];
      assert Concat([p]) == p + Concat([]);
    } else {
      ChunksRejoin(p[size..], size);
      assert Chunks(p, size)[1..] == Chunks(p[size..], size);
    }
  }

  /** Writers of any chunk size up to 4 MiB are read back, for every file. */
  lemma WritersRoundTrip(s: Suite, key: bytes, base: bytes, seed: bytes, p: bytes, size: nat)
    requires Sound(s) && |key| == 32 && |base| == 12
    requires 0 < size <= MAX_CHUNK_SIZE
    requires |Chunks(p, size)| <= TWO_32
    ensures Decode(s, Blob(s, key, base, seed, Chunks(p, size))) == Decoded(p, None)
  {
    RoundTrip(s, key, base, seed, Chunks(p, size));
    ChunksRejoin(p, size);
  }

  /** The single-ciphertext format of older builds is still read back. */
  lemma LegacyRoundTrip(s: Suite, key: bytes, base: bytes, seed: bytes, p: bytes)
    requires Sound(s) && |key| == 32 && |base| == 12
    ensures Decode(s, FILE_MAGIC_V1 + WrappedKey(s, key, base, seed) + s.seal(key, base, FILE_MAGIC_V1, p))
         == Decoded(p, None)
  {
    HeaderOpens(s, key, base, seed, FILE_MAGIC_V1, s.seal(key, base, FILE_MAGIC_V1, p));
  }

  // ----- truncation -----

  ghost function HeaderSize(s: Suite): nat
  {
    12 + s.rsaLen
  }

  /** A proper, nonempty part of one frame is an error. */
  lemma CutFrame(s: Suite, key: bytes, base: bytes, index: nat, chunk: bytes, m: nat)
    requires TagLength(s) && |base| == 12 && index < TWO_32 && |chunk| <= MAX_CHUNK_SIZE
    requires 0 < m < |Frame(s, key, base, index, chunk)|
    ensures DecodeFrames(s, key, base, index, Frame(s, key, base, index, chunk)[..m]) == Decoded([], Some(Truncated))
  {
    var f := Frame(s, key, base, index, chunk);
    if m >= 4 {
      Be32Bijection(|chunk| + TAG_SIZE, f[..4]);
      assert f[..m][..4] == Be32(|chunk| + TAG_SIZE);
    }
  }

  /** If the bytes after one whole frame end on a frame boundary, so does the whole. */
  lemma CutAfterFrame(s: Suite, key: bytes, base: bytes, index: nat, chunks: seq<bytes>, k: nat)
    requires TagLength(s) && |base| == 12 && Fits(chunks) && index + |chunks| <= TWO_32 && k < |chunks|
    ensures Frames(s, key, base, index, chunks[..k + 1])
         == Frame(s, key, base, index, chunks[0]) + Frames(s, key, base, index + 1, chunks[1..][..k])
  {
    assert chunks[..k + 1][1..] == chunks[1..][..k];
  }

  lemma CutPastFrame(s: Suite, key: bytes, base: bytes, index: nat, chunks: seq<bytes>, m: nat)
    requires |base| == 12 && TagLength(s) && Fits(chunks) && index + |chunks| <= TWO_32 && chunks != []
    requires |Frame(s, key, base, index, chunks[0])| <= m <= |Frames(s, key, base, index, chunks)|
    ensures var first, others := Frame(s, key, base, index, chunks[0]), Frames(s, key, base, index + 1, chunks[1..]);
            m - |first| <= |others| && Frames(s, key, base, index, chunks)[..m] == first + others[..m - |first|]
  {
  }

  lemma {:induction false} CutFrames(s: Suite, key: bytes, base: bytes, index: nat, chunks: seq<bytes>, m: nat)
    returns (k: nat)
    requires Sound(s) && |base| == 12 && Fits(chunks) && index + |chunks| <= TWO_32
    requires m <= |Frames(s, key, base, index, chunks)|
    requires DecodeFrames(s, key, base, index, Frames(s, key, base, index, chunks)[..m]).error == None
    ensures k <= |chunks| && m == |Frames(s, key, base, index, chunks[..k])|
    decreases |chunks|
  {
    if m == 0 {
      return 0;
    }
    var f, f0 := Frames(s, key, base, index, chunks), Frame(s, key, base, index, chunks[0]);
    if m < |f0| {
      assert f[..m] == f0[..m];
      CutFrame(s, key, base, index, chunks[0], m);
    } else {
      CutPastFrame(s, key, base, index, chunks, m);
      var rest := Frames(s, key, base, index + 1, chunks[1..])[..m - |f0|];
      NextIsFrame(s, key, base, index, chunks[0], rest);
      k := CutFrames(s, key, base, index + 1, chunks[1..], m - |f0|);
      CutAfterFrame(s, key, base, index, chunks, k);
      k := k + 1;
    }
  }

  lemma {:induction false} FramesPrefix(s: Suite, key: bytes, base: bytes, index: nat, chunks: seq<bytes>, k: nat)
    requires TagLength(s) && |base| == 12 && Fits(chunks) && index + |chunks| <= TWO_32 && k <= |chunks|
    ensures Frames(s, key, base, index, chunks[..k]) <= Frames(s, key, base, index, chunks)
    decreases k
  {
    if k > 0 {
      FramesPrefix(s, key, base, index + 1, chunks[1..], k - 1);
      assert chunks[..k][1..] == chunks[1..][..k - 1];
    }
  }

  /**
    Truncation, exactly: the first n bytes of a blob decrypt without error if and only if n is the
    header plus a whole number of frames, and then yield exactly the chunks of those frames.
   */
  lemma TruncationExact(s: Suite, key: bytes, base: bytes, seed: bytes, chunks: seq<bytes>, n: nat)
    requires Sound(s) && |key| == 32 && |base| == 12 && Fits(chunks) && |chunks| <= TWO_32
    requires n <= |Blob(s, key, base, seed, chunks)|
    ensures Decode(s, Blob(s, key, base, seed, chunks)[..n]).error == None
        <==> exists k :: 0 <= k <= |chunks| && n == HeaderSize(s) + |Frames(s, key, base, 0, chunks[..k])|
    ensures forall k | 0 <= k <= |chunks| && n == HeaderSize(s) + |Frames(s, key, base, 0, chunks[..k])| ::
              Decode(s, Blob(s, key, base, seed, chunks)[..n]) == Decoded(Concat(chunks[..k]), None)
  {
    var b := Blob(s, key, base, seed, chunks);
    var f := Frames(s, key, base, 0, chunks);
    var h := FILE_MAGIC_V2 + WrappedKey(s, key, base, seed);
    assert b == h + f && |h| == HeaderSize(s);
    forall k | 0 <= k <= |chunks| && n == HeaderSize(s) + |Frames(s, key, base, 0, chunks[..k])|
      ensures Decode(s, b[..n]) == Decoded(Concat(chunks[..k]), None)
    {
      FramesPrefix(s, key, base, 0, chunks, k);
      assert b[..n] == h + Frames(s, key, base, 0, chunks[..k]);
      RoundTrip(s, key, base, seed, chunks[..k]);
    }
    if n < HeaderSize(s) {
      ShortHeader(s, key, base, seed, f, n);
    } else if Decode(s, b[..n]).error == None {
      var m := n - HeaderSize(s);
      assert b[..n] == h + f[..m];
      HeaderOpens(s, key, base, seed, FILE_MAGIC_V2, f[..m]);
      var k := CutFrames(s, key, base, 0, chunks, m);
    }
  }

  lemma ShortHeader(s: Suite, key: bytes, base: bytes, seed: bytes, rest: bytes, n: nat)
    requires RsaSound(s) && |key| == 32 && |base| == 12 && n < HeaderSize(s)
    ensures Decode(s, (FILE_MAGIC_V2 + WrappedKey(s, key, base, seed) + rest)[..n]) == Decoded([], Some(Truncated))
  {
    var b := FILE_MAGIC_V2 + WrappedKey(s, key, base, seed) + rest;
    if n >= 12 {
      Be32Bijection(s.rsaLen, b[8..12]);
      assert b[..n][8..12] == Be32(s.rsaLen);
    }
  }

  // ----- what is refused -----

  /** A blob of whole frames and whatever follows them. */
  lemma DecodesThrough(s: Suite, key: bytes, base: bytes, seed: bytes, chunks: seq<bytes>, rest: bytes)
    requires Sound(s) && |key| == 32 && |base| == 12 && Fits(chunks) && |chunks| <= TWO_32
    ensures Decode(s, Blob(s, key, base, seed, chunks) + rest)
         == Prepend(Concat(chunks), DecodeFrames(s, key, base, |chunks|, rest))
  {
    var h, f := FILE_MAGIC_V2 + WrappedKey(s, key, base, seed), Frames(s, key, base, 0, chunks);
    assert Blob(s, key, base, seed, chunks) + rest == h + (f + rest);
    HeaderOpens(s, key, base, seed, FILE_MAGIC_V2, f + rest);
    SoundOpens(s, key, base, 0, chunks);
    DecodesFrames(s, key, base, 0, chunks, rest);
  }

  /** A frame that announces fewer than 16 bytes, or more than 4 MiB and the tag, is refused unread. */
  lemma BadLengthRefused(s: Suite, key: bytes, base: bytes, seed: bytes, chunks: seq<bytes>, n: nat, rest: bytes)
    requires Sound(s) && |key| == 32 && |base| == 12 && Fits(chunks) && |chunks| <= TWO_32
    requires n < TWO_32 && (n < 16 || n > 4 * 1024 * 1024 + 16)
    ensures Decode(s, Blob(s, key, base, seed, chunks) + (Be32(n) + rest)) == Decoded(Concat(chunks), Some(BadChunkLength))
  {
    DecodesThrough(s, key, base, seed, chunks, Be32(n) + rest);
    Be32Decodes(n);
    assert (Be32(n) + rest)[..4] == Be32(n);
    assert NextFrame(Be32(n) + rest) == Bad(BadChunkLength);
    assert Concat(chunks) + [] == Concat(chunks);
  }

  /** A frame that is cut short is refused, and what came before it has been written. */
  lemma CutFrameRefused(s: Suite, key: bytes, base: bytes, seed: bytes, chunks: seq<bytes>, n: nat, rest: bytes)
    requires Sound(s) && |key| == 32 && |base| == 12 && Fits(chunks) && |chunks| <= TWO_32
    requires 16 <= n <= 4 * 1024 * 1024 + 16 && |rest| < n
    ensures Decode(s, Blob(s, key, base, seed, chunks) + (Be32(n) + rest)) == Decoded(Concat(chunks), Some(Truncated))
  {
    DecodesThrough(s, key, base, seed, chunks, Be32(n) + rest);
    Be32Decodes(n);
    assert (Be32(n) + rest)[..4] == Be32(n);
    assert NextFrame(Be32(n) + rest) == Bad(Truncated);
    assert Concat(chunks) + [] == Concat(chunks);
  }

  /** A sound header under any other magic is refused. */
  lemma BadMagicRefused(s: Suite, key: bytes, base: bytes, seed: bytes, magic: bytes, rest: bytes)
    requires RsaSound(s) && |key| == 32 && |base| == 12 && |magic| == 8
    requires magic != FILE_MAGIC_V2 && magic != FILE_MAGIC_V1
    ensures Decode(s, magic + WrappedKey(s, key, base, seed) + rest) == Decoded([], Some(BadMagic))
  {
    HeaderOpens(s, key, base, seed, magic, rest);
  }

  predicate Spells(b: bytes, text: string)
  {
    |b| == |text| && forall i | 0 <= i < |b| :: b[i] == text[i] as int
  }

  /** Four bytes, the most significant first. */
  predicate BigEndian(b: bytes, n: nat)
  {
    |b| == 4 && n == (((b[0] as int) * 0x100 + b[1]) * 0x100 + b[2]) * 0x100 + b[3]
  }

  lemma Be32IsBigEndian(n: nat)
    requires n < TWO_32
    ensures BigEndian(Be32(n), n)
  {
    var b := Be32(n);
    assert (b[0] as int) * 0x100 + b[1] == n / 0x1_0000 && (b[2] as int) * 0x100 + b[3] == n % 0x1_0000;
  }

  /**
    The layout other programs rely on: the magic in ASCII, the length of the wrapped key, that key, and
    for each chunk the length of its ciphertext and the ciphertext, under a nonce and an associated data
    that end in the chunk's number.
   */
  lemma Layout(s: Suite, key: bytes, base: bytes, seed: bytes, chunk: bytes, index: nat)
    requires RsaSound(s) && TagLength(s) && |key| == 32 && |base| == 12
    requires |chunk| <= MAX_CHUNK_SIZE && index < TWO_32
    ensures Spells(Blob(s, key, base, seed, [])[..8], "AESTOR02") && Spells(FILE_MAGIC_V1, "AESTOR01")
    ensures BigEndian(Blob(s, key, base, seed, [])[8..12], |s.wrap(key + base, seed)|)
    ensures Blob(s, key, base, seed, [])[12..] == s.wrap(key + base, seed)
    ensures var nonce, aad, f := ChunkNonce(base, index), ChunkAad(FILE_MAGIC_V2, index), Frame(s, key, base, index, chunk);
            && nonce[..8] == base[..8] && BigEndian(nonce[8..], index)
            && Spells(aad[..8], "AESTOR02") && BigEndian(aad[8..], index)
            && BigEndian(f[..4], |chunk| + 16) && f[4..] == s.seal(key, nonce, aad, chunk)
  {
    var b := Blob(s, key, base, seed, []);
    assert b[..8] == FILE_MAGIC_V2 && b[8..12] == Be32(s.rsaLen) && b[12..] == s.wrap(key + base, seed);
    Be32IsBigEndian(s.rsaLen);
    Be32IsBigEndian(index);
    Be32IsBigEndian(|chunk| + TAG_SIZE);
    assert ChunkNonce(base, index)[8..] == Be32(index);
    assert ChunkAad(FILE_MAGIC_V2, index)[..8] == FILE_MAGIC_V2 && ChunkAad(FILE_MAGIC_V2, index)[8..] == Be32(index);
  }

  // ----- authenticity -----

  /** Everything that was ever sealed under the key of a file with these chunks. */
  ghost function SealedTable(base: bytes, chunks: seq<bytes>): set<Sealing>
    requires |base| == 12 && |chunks| <= TWO_32
  {
    set j | 0 <= j < |chunks| :: Sealing(ChunkNonce(base, j), ChunkAad(FILE_MAGIC_V2, j), chunks[j])
  }

  lemma AadNamesIndex(i: nat, j: nat)
    requires i < TWO_32 && j < TWO_32 && ChunkAad(FILE_MAGIC_V2, i) == ChunkAad(FILE_MAGIC_V2, j)
    ensures i == j
  {
    assert ChunkAad(FILE_MAGIC_V2, i)[8..] == Be32(i) && ChunkAad(FILE_MAGIC_V2, j)[8..] == Be32(j);
    Be32Bijection(i, Be32(i));
    Be32Bijection(j, Be32(j));
  }

  /** The only ciphertext that opens at position `index` is the one that was sealed there. */
  lemma OnlyOriginalOpens(s: Suite, key: bytes, base: bytes, chunks: seq<bytes>, index: nat, ct: bytes)
    requires |base| == 12 && |chunks| <= TWO_32 && IdealFor(s, key, SealedTable(base, chunks))
    ensures OpenFrame(s, key, base, index, ct).Ok? <==>
              index < |chunks| && ct == Seal(s, key, base, index, chunks[index])
    ensures OpenFrame(s, key, base, index, ct).Ok? ==> OpenFrame(s, key, base, index, ct) == Ok(chunks[index])
  {
    var table := SealedTable(base, chunks);
    if index < |chunks| {
      assert Sealing(ChunkNonce(base, index), ChunkAad(FILE_MAGIC_V2, index), chunks[index]) in table;
      assert s.open(key, ChunkNonce(base, index), ChunkAad(FILE_MAGIC_V2, index), Seal(s, key, base, index, chunks[index]))
          == Some(chunks[index]);
    }
    if OpenFrame(s, key, base, index, ct).Ok? {
      var p := OpenFrame(s, key, base, index, ct).value;
      var x := Sealing(ChunkNonce(base, index), ChunkAad(FILE_MAGIC_V2, index), p);
      assert x in table;
      var j :| 0 <= j < |chunks| && x == Sealing(ChunkNonce(base, j), ChunkAad(FILE_MAGIC_V2, j), chunks[j]);
      AadNamesIndex(index, j);
      assert p == chunks[index];
    }
  }

  /** Cutting off a frame is undone by putting its length and ciphertext back in front. */
  lemma NextRebuilds(b: bytes)
    requires NextFrame(b).Ciphertext?
    ensures |NextFrame(b).ct| < TWO_32 && b == Be32(|NextFrame(b).ct|) + NextFrame(b).ct + NextFrame(b).tail
  {
    Be32Bijection(0, b[..4]);
  }

  lemma {:induction false} OnlyPrefixesDecode(s: Suite, key: bytes, base: bytes, chunks: seq<bytes>, index: nat, b: bytes)
    returns (k: nat)
    requires |base| == 12 && Fits(chunks) && index <= |chunks| <= TWO_32
    requires IdealFor(s, key, SealedTable(base, chunks))
    requires DecodeFrames(s, key, base, index, b).error == None
    ensures index <= k <= |chunks| && b == Frames(s, key, base, index, chunks[index..k])
    decreases |b|
  {
    if b == [] {
      return index;
    }
    var next := NextFrame(b);
    OnlyOriginalOpens(s, key, base, chunks, index, next.ct);
    k := OnlyPrefixesDecode(s, key, base, chunks, index + 1, next.tail);
    NextRebuilds(b);
    assert chunks[index..k][1..] == chunks[index + 1..k];
  }

  /**
    Frame authenticity, exactly: among all byte strings that keep the original wrapped key, with any
    magic and any bytes after it, decryption accepts precisely the original cut off after some whole
    number of frames, and then returns precisely those chunks. So reordered, repeated, dropped,
    altered or relabelled frames are rejected.
   */
  lemma AuthenticExactly(s: Suite, key: bytes, base: bytes, seed: bytes, chunks: seq<bytes>, magic: bytes, rest: bytes)
    requires |key| == 32 && |base| == 12 && |magic| == 8 && Fits(chunks) && |chunks| <= TWO_32
    requires IdealFor(s, key, SealedTable(base, chunks))
    ensures Decode(s, magic + WrappedKey(s, key, base, seed) + rest).error == None
        <==> magic == FILE_MAGIC_V2
             && exists k :: 0 <= k <= |chunks| && rest == Frames(s, key, base, 0, chunks[..k])
    ensures forall k | magic == FILE_MAGIC_V2 && 0 <= k <= |chunks| && rest == Frames(s, key, base, 0, chunks[..k]) ::
              Decode(s, magic + WrappedKey(s, key, base, seed) + rest) == Decoded(Concat(chunks[..k]), None)
  {
    HeaderOpens(s, key, base, seed, magic, rest);
    if magic == FILE_MAGIC_V2 {
      forall k | 0 <= k <= |chunks| && rest == Frames(s, key, base, 0, chunks[..k])
        ensures DecodeFrames(s, key, base, 0, rest) == Decoded(Concat(chunks[..k]), None)
      {
        SliceOpens(s, key, base, chunks, 0, k);
        assert chunks[0..k] == chunks[..k];
        DecodesFrames(s, key, base, 0, chunks[..k], []);
        assert rest + [] == rest;
      }
      if DecodeFrames(s, key, base, 0, rest).error == None {
        var k := OnlyPrefixesDecode(s, key, base, chunks, 0, rest);
        assert chunks[0..k] == chunks[..k];
      }
    } else if magic == FILE_MAGIC_V1 {
      LegacyRejected(s, key, base, chunks, rest);
    }
  }

  lemma {:induction false} SliceOpens(s: Suite, key: bytes, base: bytes, chunks: seq<bytes>, i: nat, k: nat)
    requires |base| == 12 && i <= k <= |chunks| <= TWO_32 && IdealFor(s, key, SealedTable(base, chunks))
    ensures Opens(s, key, base, i, chunks[i..k])
    decreases k - i
  {
    if i < k {
      OnlyOriginalOpens(s, key, base, chunks, i, Seal(s, key, base, i, chunks[i]));
      SliceOpens(s, key, base, chunks, i + 1, k);
      assert chunks[i..k][1..] == chunks[i + 1..k];
    }
  }

  /** A streaming file relabelled as the legacy format never opens: the associated data differs in length. */
  lemma LegacyRejected(s: Suite, key: bytes, base: bytes, chunks: seq<bytes>, rest: bytes)
    requires |base| == 12 && |chunks| <= TWO_32 && IdealFor(s, key, SealedTable(base, chunks))
    ensures DecodeLegacy(s, key, base, rest).error == Some(AuthenticationFailed)
  {
    assert forall x <- SealedTable(base, chunks) :: |x.aad| == 12;
  }

  // ----- sizes and counters -----

  lemma {:induction false} ChunkCount(p: bytes)
    ensures |Chunks(p, CHUNK_SIZE)| == (|p| + CHUNK_SIZE - 1) / CHUNK_SIZE
    decreases |p|
  {
    if |p| > CHUNK_SIZE {
      ChunkCount(p[CHUNK_SIZE..]);
    }
  }

  lemma {:induction false} FramesSize(s: Suite, key: bytes, base: bytes, index: nat, chunks: seq<bytes>)
    requires TagLength(s) && |base| == 12 && Fits(chunks) && index + |chunks| <= TWO_32
    ensures |Frames(s, key, base, index, chunks)| == |Concat(chunks)| + 20 * |chunks|
    decreases |chunks|
  {
    if chunks != [] {
      FramesSize(s, key, base, index + 1, chunks[1..]);
    }
  }

  /** The encrypted size of a file of p bytes, and the largest file the chunk counter admits. */
  lemma BlobSize(s: Suite, key: bytes, base: bytes, seed: bytes, p: bytes)
    requires RsaSound(s) && TagLength(s) && |key| == 32 && |base| == 12
    ensures |Chunks(p, CHUNK_SIZE)| <= TWO_32 <==> |p| <= 0x8_0000_0000_0000
    ensures |p| <= 0x8_0000_0000_0000 ==>
              |Blob(s, key, base, seed, Chunks(p, CHUNK_SIZE))|
              == 12 + s.rsaLen + |p| + 20 * ((|p| + CHUNK_SIZE - 1) / CHUNK_SIZE)
  {
    ChunkCount(p);
    if |p| <= 0x8_0000_0000_0000 {
      FramesSize(s, key, base, 0, Chunks(p, CHUNK_SIZE));
      ChunksRejoin(p, CHUNK_SIZE);
    }
  }

  /** No nonce is used twice within a file. */
  lemma NoncesDistinct(base: bytes, i: nat, j: nat)
    requires |base| == 12 && i < TWO_32 && j < TWO_32 && i != j
    ensures ChunkNonce(base, i) != ChunkNonce(base, j)
  {
    assert ChunkNonce(base, i)[8..] == Be32(i) && ChunkNonce(base, j)[8..] == Be32(j);
    Be32Bijection(i, Be32(i));
    Be32Bijection(j, Be32(j));
  }
}
