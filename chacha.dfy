/** The ChaCha20-Poly1305 container codec: a 46-byte header, then one length-prefixed sealed
    record per chunk of input, each sealed under a nonce taken from a counter. */
module ChaCha {
  import opened Bytes
  import opened Errors
  import opened Types
  import opened Format
  import opened Files
  import opened Primitives

  /** Bytes of random nonce the header carries. */
  const HEADER_NONCE_LEN: nat := 12
  /** Version byte, algorithm byte, salt, header nonce. */
  const HEADER_LEN: nat := 2 + SALT_SIZE + HEADER_NONCE_LEN
  /** The work factor decryption derives its key with, whatever encryption used. */
  const DECRYPT_WORK_FACTOR: u32 := 3
  /** The message of the error key setup reports, in either direction. */
  const KEY_SETUP_FAILED: string := "Failed to create key"

  /** The key derivation succeeds and yields a key the cipher accepts. */
  predicate DerivesUsableKey(kdf: Kdf, password: Bytes, salt: Bytes, iterations: u32)
  {
    kdf(password, salt, iterations).Ok? && |kdf(password, salt, iterations).value| == KEY_LEN
  }

  // ----- Nonces -----

  /** The counter's value after i advances from zero, each advance adding one and wrapping
      at 2^64 as a `u64` addition does in a release build. */
  function CounterAt(i: nat): u64
  {
    if i == 0 then 0 else (CounterAt(i - 1) + 1) % U64_LIMIT
  }

  /** Below 2^64 advances the counter holds the number of advances. */
  lemma {:induction false} CounterAtBelowWrap(i: nat)
    requires i < U64_LIMIT
    ensures CounterAt(i) == i
  {
    if i > 0 {
      CounterAtBelowWrap(i - 1);
    }
  }

  /** The 2^64-th advance wraps the counter back to zero. */
  lemma CounterWraps(n: nat)
    requires n == U64_LIMIT
    ensures CounterAt(n) == 0
  {
    CounterAtBelowWrap(n - 1);
    assert CounterAt(n) == n % U64_LIMIT;
  }

  /** The nonce for counter value c: four zero bytes, then c in eight little-endian bytes. */
  function NonceFor(c: u64): (n: Bytes)
    ensures |n| == 12
  {
    [0, 0, 0, 0] + ToLittleEndian(c, 8)
  }

  /** The nonce starts with four zero bytes and its last eight bytes read back, little-endian,
      as the counter value. */
  lemma NonceLayout(c: u64)
    ensures NonceFor(c)[..4] == [0, 0, 0, 0]
    ensures FromLittleEndian(NonceFor(c)[4..]) == c
  {
    Pow256Widths();
    LittleEndianRoundTrip(c, 8);
    assert NonceFor(c)[4..] == ToLittleEndian(c, 8);
  }

  /** Distinct counter values give distinct nonces. */
  lemma NonceInjective(c1: u64, c2: u64)
    ensures NonceFor(c1) == NonceFor(c2) <==> c1 == c2
  {
    NonceLayout(c1);
    NonceLayout(c2);
  }

  /** No two of the first 2^64 records share a nonce. */
  lemma RecordNoncesDistinct(i: nat, j: nat)
    requires i < j < U64_LIMIT
    ensures NonceFor(CounterAt(i)) != NonceFor(CounterAt(j))
  {
    CounterAtBelowWrap(i);
    CounterAtBelowWrap(j);
    NonceInjective(CounterAt(i), CounterAt(j));
  }

  /** The per-file nonce sequence: a counter that starts at zero. */
  class CounterNonceSequence {
    var counter: u64

    constructor ()
      ensures counter == 0
    {
      counter := 0;
    }

    /** Hands out the nonce for the current counter value, then moves the counter on by one. */
    method Advance() returns (nonce: Bytes)
      modifies this
      ensures nonce == NonceFor(old(counter))
      ensures counter == (old(counter) + 1) % U64_LIMIT
    {
      nonce := NonceFor(counter);
      counter := (counter + 1) % U64_LIMIT;
    }
  }

  // ----- The container layout -----

  /** The chunks, concatenated in order. */
  function Concat(chunks: seq<Bytes>): Bytes
  {
    if chunks == [] then [] else chunks[0] + Concat(chunks[1..])
  }

  /** `chunks` is a way the reads can deliver `input`: non-empty pieces of at most
      `CHUNK_SIZE` bytes that concatenate, in order, to the whole input. */
  predicate IsSplit(chunks: seq<Bytes>, input: Bytes)
  {
    Concat(chunks) == input &&
    forall i :: 0 <= i < |chunks| ==> 0 < |chunks[i]| <= CHUNK_SIZE
  }

  /** Every chunk holds at most `CHUNK_SIZE` bytes. */
  predicate ChunksFit(chunks: seq<Bytes>)
  {
    chunks == [] || (|chunks[0]| <= CHUNK_SIZE && ChunksFit(chunks[1..]))
  }

  /** The pieces of a split fit in the read buffer. */
  lemma {:induction false} SplitChunksFit(chunks: seq<Bytes>)
    requires forall i :: 0 <= i < |chunks| ==> |chunks[i]| <= CHUNK_SIZE
    ensures ChunksFit(chunks)
    decreases |chunks|
  {
    if chunks != [] {
      assert forall i :: 0 <= i < |chunks[1..]| ==> chunks[1..][i] == chunks[i + 1];
      SplitChunksFit(chunks[1..]);
    }
  }

  function Header(salt: Bytes, headerNonce: Bytes): Bytes
  {
    [VERSION, ToByte(ChaCha20Poly1305)] + salt + headerNonce
  }

  /** Record number i for a plaintext chunk: the sealed chunk's length (cast to `u32`, so
      modulo 2^32) in four big-endian bytes, then the sealed chunk, sealed with nonce i. */
  function SealRecord(aead: Aead, key: Bytes, i: nat, plain: Bytes): Bytes
  {
    var sealed := aead.seal(key, NonceFor(CounterAt(i)), plain);
    ToBigEndian(|sealed| % U32_LIMIT, 4) + sealed
  }

  /** The records for `chunks`, the first of them being record number i. */
  function RecordsFrom(aead: Aead, key: Bytes, chunks: seq<Bytes>, i: nat): Bytes
    decreases |chunks|
  {
    if chunks == [] then []
    else SealRecord(aead, key, i, chunks[0]) + RecordsFrom(aead, key, chunks[1..], i + 1)
  }

  /** What encryption does when its reads deliver the input as `chunks`: derive the key with
      the caller's work factor, open the input, create the output and write the header, set up
      the key (which leaves the header behind when it fails), then write one record per chunk. */
  function EncryptRun(input: Option<Bytes>, password: Bytes, iterations: u32, salt: Bytes,
                      headerNonce: Bytes, kdf: Kdf, aead: Aead, chunks: seq<Bytes>): Run
  {
    match kdf(password, salt, iterations)
    case Err(e) => Run(Err(e), None)
    case Ok(key) =>
      if input.None? then Run(Err(IoError(NotFound)), None)
      else if |key| != KEY_LEN then Run(Err(EncryptionError(KEY_SETUP_FAILED)), Some(Header(salt, headerNonce)))
      else Run(Ok(()), Some(Header(salt, headerNonce) + RecordsFrom(aead, key, chunks, 0)))
  }

  /** Plaintext written so far, and how the decryption loop ended. */
  datatype Decoded = Decoded(written: Bytes, outcome: Result<()>)

  function Prepend(plain: Bytes, d: Decoded): Decoded
  {
    Decoded(plain + d.written, d.outcome)
  }

  /** How one turn of the decryption loop over `rest` ends: no full length field left, a
      record shorter than its length field, a record that fails to open with nonce i, or the
      plaintext of a record; `size` is how many bytes the record took, length field included. */
  datatype Turn = EndOfInput | Truncated | Rejected(size: nat) | Opened(plain: Bytes, size: nat)

  function NextRecord(aead: Aead, key: Bytes, rest: Bytes, i: nat): (t: Turn)
    ensures t.Opened? || t.Rejected? ==> 4 <= t.size <= |rest|
  {
    if |rest| < 4 then EndOfInput
    else
      var len := FromBigEndian(rest[..4]);
      if |rest| - 4 < len then Truncated
      else
        match aead.open(key, NonceFor(CounterAt(i)), rest[4..4 + len])
        case None => Rejected(4 + len)
        case Some(plain) => Opened(plain, 4 + len)
  }

  /** The decryption loop over the bytes after the header, record i onwards. */
  function OpenRecords(aead: Aead, key: Bytes, body: Bytes, i: nat): Decoded
    decreases |body|
  {
    match NextRecord(aead, key, body, i)
    case EndOfInput => Decoded([], Ok(()))
    case Truncated => Decoded([], Err(IoError(UnexpectedEof)))
    case Rejected(_) => Decoded([], Err(AuthenticationFailed))
    case Opened(plain, size) => Prepend(plain, OpenRecords(aead, key, body[size..], i + 1))
  }

  /** The header check of decryption: the version byte, then the algorithm byte, then the salt
      and the header nonce, which must be present in full. Yields the salt. */
  function ParseHeader(data: Bytes): Result<Bytes>
  {
    if |data| < 1 then Err(IoError(UnexpectedEof))
    else if data[0] != VERSION then Err(UnsupportedVersion(data[0]))
    else if |data| < 2 then Err(IoError(UnexpectedEof))
    else if data[1] != ToByte(ChaCha20Poly1305) then Err(InvalidFormat("Wrong algorithm"))
    else if |data| < HEADER_LEN then Err(IoError(UnexpectedEof))
    else Ok(data[2..2 + SALT_SIZE])
  }

  /** What decryption does: check the header, derive the key from the stored salt with work
      factor 3, set up the key, create the output, then run the record loop. */
  function DecryptRun(input: Option<Bytes>, password: Bytes, kdf: Kdf, aead: Aead): Run
  {
    if input.None? then Run(Err(IoError(NotFound)), None)
    else
      match ParseHeader(input.value)
      case Err(e) => Run(Err(e), None)
      case Ok(salt) =>
        match kdf(password, salt, DECRYPT_WORK_FACTOR)
        case Err(e) => Run(Err(e), None)
        case Ok(key) =>
          if |key| != KEY_LEN then Run(Err(DecryptionError(KEY_SETUP_FAILED)), None)
          else
          var d := OpenRecords(aead, key, input.value[HEADER_LEN..], 0);
          Run(d.outcome, Some(d.written))
  }

  // ----- The codec -----

  /** Encrypts `input` (None: the file cannot be opened). `salt` and `headerNonce` stand for
      the random bytes drawn for this call. Also returns how the reads split the input. */
  method EncryptFile(input: Option<Bytes>, password: Bytes, iterations: u32, salt: Bytes,
                     headerNonce: Bytes, kdf: Kdf, aead: Aead)
    returns (run: Run, ghost chunks: seq<Bytes>)
    requires |salt| == SALT_SIZE && |headerNonce| == HEADER_NONCE_LEN
    ensures run.outcome.Ok? ==> input.Some? && IsSplit(chunks, input.value)
    ensures run == EncryptRun(input, password, iterations, salt, headerNonce, kdf, aead, chunks)
    ensures kdf(password, salt, iterations).Err? ==> run == Run(Err(kdf(password, salt, iterations).error), None)
    ensures kdf(password, salt, iterations).Ok? && input.None? ==> run == Run(Err(IoError(NotFound)), None)
    ensures kdf(password, salt, iterations).Ok? && input.Some? && !DerivesUsableKey(kdf, password, salt, iterations) ==>
      run == Run(Err(EncryptionError(KEY_SETUP_FAILED)), Some(Header(salt, headerNonce)))
    ensures DerivesUsableKey(kdf, password, salt, iterations) && input.Some? ==>
      run.outcome == Ok(()) && run.output.Some? && run.output.value[..HEADER_LEN] == Header(salt, headerNonce)
    ensures aead.Sound() && iterations == DECRYPT_WORK_FACTOR && DerivesUsableKey(kdf, password, salt, iterations) &&
            input.Some? ==>
      DecryptRun(run.output, password, kdf, aead) == Run(Ok(()), input)
  {
    chunks := [];
    var derived := kdf(password, salt, iterations);
    if derived.Err? {
      run := Run(Err(derived.error), None);
      return;
    }
    var key := derived.value;
    if input.None? {
      run := Run(Err(IoError(NotFound)), None);
      return;
    }
    var file := new InputFile(input.value);
    var out: Bytes := [VERSION];
    out := out + [ToByte(ChaCha20Poly1305)];
    out := out + salt;
    out := out + headerNonce;
    assert out == Header(salt, headerNonce);
    if |key| != KEY_LEN {
      run := Run(Err(EncryptionError(KEY_SETUP_FAILED)), Some(out));
      return;
    }
    var records;
    records, chunks := SealChunks(file, key, aead);
    run := Run(Ok(()), Some(out + records));
    assert (out + records)[..HEADER_LEN] == out;
    if aead.Sound() && iterations == DECRYPT_WORK_FACTOR {
      RoundTrip(input.value, password, salt, headerNonce, kdf, aead, chunks);
    }
  }

  /** The chunk loop of encryption over the whole file: read up to a chunk, stop at end of
      input, otherwise seal it with the next nonce and write it as a record. Yields the records
      written and, as a ghost, how the reads split the file. */
  method SealChunks(file: InputFile, key: Bytes, aead: Aead) returns (records: Bytes, ghost chunks: seq<Bytes>)
    requires file.Valid() && file.pos == 0
    modifies file
    ensures IsSplit(chunks, file.data)
    ensures records == RecordsFrom(aead, key, chunks, 0)
  {
    chunks := [];
    records := [];
    var nonces := new CounterNonceSequence();
    while true
      invariant file.Valid()
      invariant Concat(chunks) == file.data[..file.pos]
      invariant forall i :: 0 <= i < |chunks| ==> 0 < |chunks[i]| <= CHUNK_SIZE
      invariant nonces.counter == CounterAt(|chunks|)
      invariant records == RecordsFrom(aead, key, chunks, 0)
      decreases |file.data| - file.pos
    {
      var chunk, record := SealNextChunk(file, nonces, key, aead, |chunks|);
      if |chunk| == 0 {
        assert file.data[..file.pos] == file.data;
        break;
      }
      records := records + record;
      ConcatSnoc(chunks, chunk);
      RecordsSnoc(aead, key, chunks, chunk, 0);
      chunks := chunks + [chunk];
    }
  }

  /** One turn of the encryption loop: read up to a chunk, and unless that was end of input,
      seal it with the next nonce into a length-prefixed record. */
  method SealNextChunk(file: InputFile, nonces: CounterNonceSequence, key: Bytes, aead: Aead,
                       ghost i: nat)
    returns (chunk: Bytes, record: Bytes)
    requires file.Valid() && nonces.counter == CounterAt(i)
    modifies file, nonces
    ensures file.Valid() && old(file.pos) <= file.pos && chunk == file.data[old(file.pos)..file.pos]
    ensures file.data[..file.pos] == file.data[..old(file.pos)] + chunk
    ensures |chunk| <= CHUNK_SIZE && (chunk == [] <==> old(file.pos) == |file.data|)
    ensures chunk == [] ==> nonces.counter == CounterAt(i)
    ensures chunk != [] ==> record == SealRecord(aead, key, i, chunk) && nonces.counter == CounterAt(i + 1)
  {
    ghost var before := file.pos;
    chunk := file.Read(CHUNK_SIZE);
    assert file.data[..file.pos] == file.data[..before] + chunk;
    if |chunk| == 0 {
      return chunk, [];
    }
    var nonce := nonces.Advance();
    var sealed := aead.seal(key, nonce, chunk);
    record := ToBigEndian(|sealed| % U32_LIMIT, 4);
    record := record + sealed;
  }

  /** Decrypts `input` (None: the file cannot be opened). */
  method DecryptFile(input: Option<Bytes>, password: Bytes, kdf: Kdf, aead: Aead) returns (run: Run)
    ensures run == DecryptRun(input, password, kdf, aead)
  {
    if input.None? {
      return Run(Err(IoError(NotFound)), None);
    }
    var file := new InputFile(input.value);
    var salt := ReadHeader(file);
    if salt.Err? {
      return Run(Err(salt.error), None);
    }
    var derived := kdf(password, salt.value, DECRYPT_WORK_FACTOR);
    if derived.Err? {
      return Run(Err(derived.error), None);
    }
    if |derived.value| != KEY_LEN {
      return Run(Err(DecryptionError(KEY_SETUP_FAILED)), None);
    }
    var decoded := DecryptRecords(file, derived.value, aead);
    run := Run(decoded.outcome, Some(decoded.written));
  }

  /** Reads the header field by field from the start of the file, failing at the first field
      that is wrong or missing. */
  method ReadHeader(file: InputFile) returns (salt: Result<Bytes>)
    requires file.Valid() && file.pos == 0
    modifies file
    ensures file.Valid()
    ensures salt == ParseHeader(file.data)
    ensures salt.Ok? ==> file.pos == HEADER_LEN
  {
    var version := file.ReadU8();
    if version.Err? {
      return Err(version.error);
    }
    if version.value != VERSION {
      return Err(UnsupportedVersion(version.value));
    }
    var algorithm := file.ReadU8();
    if algorithm.Err? {
      return Err(algorithm.error);
    }
    if algorithm.value != ToByte(ChaCha20Poly1305) {
      return Err(InvalidFormat("Wrong algorithm"));
    }
    salt := file.ReadExact(SALT_SIZE);
    if salt.Err? {
      return;
    }
    var headerNonce := file.ReadExact(HEADER_NONCE_LEN);
    if headerNonce.Err? {
      return Err(headerNonce.error);
    }
  }

  /** The record loop: read a length, read that many bytes, open them with the next nonce,
      append the plaintext; end of input at a length ends the loop. Yields everything written
      to the output and how the loop ended. */
  method DecryptRecords(file: InputFile, key: Bytes, aead: Aead) returns (decoded: Decoded)
    requires file.Valid()
    modifies file
    ensures decoded == OpenRecords(aead, key, old(file.data[file.pos..]), 0)
  {
    ghost var body := file.data[file.pos..];
    var nonces := new CounterNonceSequence();
    var out: Bytes := [];
    ghost var records: nat := 0;
    while true
      invariant file.Valid() && nonces.counter == CounterAt(records)
      invariant Prepend(out, OpenRecords(aead, key, file.data[file.pos..], records))
             == OpenRecords(aead, key, body, 0)
      decreases |file.data| - file.pos
    {
      ghost var rest := file.data[file.pos..];
      var turn := OpenNextRecord(file, nonces, key, aead, records);
      if turn.Opened? {
        assert file.data[file.pos..] == rest[turn.size..];
        OpenedTurn(aead, key, out, rest, records);
        out := out + turn.plain;
        records := records + 1;
      } else {
        StoppedTurn(aead, key, out, rest, records);
        if turn.EndOfInput? {
          break;
        } else if turn.Truncated? {
          return Decoded(out, Err(IoError(UnexpectedEof)));
        } else {
          return Decoded(out, Err(AuthenticationFailed));
        }
      }
    }
    decoded := Decoded(out, Ok(()));
  }

  /** After output `out`, a turn that opens a record appends its plaintext, and the loop goes
      on past that record with the next counter. */
  lemma OpenedTurn(aead: Aead, key: Bytes, out: Bytes, rest: Bytes, i: nat)
    requires NextRecord(aead, key, rest, i).Opened?
    ensures var t := NextRecord(aead, key, rest, i);
      Prepend(out, OpenRecords(aead, key, rest, i))
      == Prepend(out + t.plain, OpenRecords(aead, key, rest[t.size..], i + 1))
  {
  }

  /** After output `out`, a turn that opens no record ends the loop with nothing more written. */
  lemma StoppedTurn(aead: Aead, key: Bytes, out: Bytes, rest: Bytes, i: nat)
    requires !NextRecord(aead, key, rest, i).Opened?
    ensures var t := NextRecord(aead, key, rest, i);
      (t.EndOfInput? ==> Prepend(out, OpenRecords(aead, key, rest, i)) == Decoded(out, Ok(()))) &&
      (t.Truncated? ==> Prepend(out, OpenRecords(aead, key, rest, i)) == Decoded(out, Err(IoError(UnexpectedEof)))) &&
      (t.Rejected? ==> Prepend(out, OpenRecords(aead, key, rest, i)) == Decoded(out, Err(AuthenticationFailed)))
  {
    assert out + [] == out;
  }

  /** One turn of the record loop: the length, the sealed bytes, the next nonce, the opening. */
  method OpenNextRecord(file: InputFile, nonces: CounterNonceSequence, key: Bytes, aead: Aead,
                        ghost i: nat)
    returns (turn: Turn)
    requires file.Valid() && nonces.counter == CounterAt(i)
    modifies file, nonces
    ensures file.Valid() && turn == NextRecord(aead, key, old(file.data[file.pos..]), i)
    ensures turn.Opened? || turn.Rejected? ==> file.pos == old(file.pos) + turn.size && nonces.counter == CounterAt(i + 1)
    ensures turn.EndOfInput? || turn.Truncated? ==> file.pos == |file.data| && nonces.counter == CounterAt(i)
  {
    ghost var rest := file.data[file.pos..];
    var length := file.ReadU32();
    if length.Err? {
      return EndOfInput;
    }
    var len: nat := length.value;
    assert rest[..4] == file.data[old(file.pos)..file.pos];
    var sealed := file.ReadExact(len);
    if sealed.Err? {
      return Truncated;
    }
    assert rest[4..4 + len] == sealed.value;
    var nonce := nonces.Advance();
    var plain := aead.open(key, nonce, sealed.value);
    if plain.None? {
      return Rejected(4 + len);
    }
    turn := Opened(plain.value, 4 + len);
  }

  // ----- Properties of the layout -----

  lemma {:induction false} ConcatSnoc(chunks: seq<Bytes>, c: Bytes)
    ensures Concat(chunks + [c]) == Concat(chunks) + c
  {
    if chunks == [] {
      assert chunks + [c] == [c];
    } else {
      assert (chunks + [c])[1..] == chunks[1..] + [c];
      ConcatSnoc(chunks[1..], c);
    }
  }

  lemma {:induction false} RecordsSnoc(aead: Aead, key: Bytes, chunks: seq<Bytes>, c: Bytes, i: nat)
    ensures RecordsFrom(aead, key, chunks + [c], i)
         == RecordsFrom(aead, key, chunks, i) + SealRecord(aead, key, i + |chunks|, c)
    decreases |chunks|
  {
    if chunks == [] {
      assert chunks + [c] == [c];
    } else {
      assert (chunks + [c])[1..] == chunks[1..] + [c];
      RecordsSnoc(aead, key, chunks[1..], c, i + 1);
    }
  }

  /** A record is a 4-byte big-endian length L, then L bytes of sealed chunk, where L is the
      chunk's length plus the tag: the cast to `u32` never truncates. */
  lemma RecordLayout(aead: Aead, key: Bytes, i: nat, plain: Bytes)
    requires aead.Sound() && |plain| <= CHUNK_SIZE
    ensures var r := SealRecord(aead, key, i, plain);
      |r| == 4 + |plain| + TAG_LEN &&
      FromBigEndian(r[..4]) == |plain| + TAG_LEN &&
      r[4..] == aead.seal(key, NonceFor(CounterAt(i)), plain)
  {
    var sealed := aead.seal(key, NonceFor(CounterAt(i)), plain);
    var r := SealRecord(aead, key, i, plain);
    assert |sealed| == |plain| + TAG_LEN < U32_LIMIT;
    assert r[..4] == ToBigEndian(|sealed|, 4);
    Pow256Widths();
    BigEndianRoundTrip(|sealed|, 4);
  }

  /** One step of the decryption loop, over a record sealed from `plain`: it yields `plain`. */
  lemma OpenSealedRecord(aead: Aead, key: Bytes, i: nat, plain: Bytes, tail: Bytes)
    requires aead.Sound() && |plain| <= CHUNK_SIZE
    ensures OpenRecords(aead, key, SealRecord(aead, key, i, plain) + tail, i)
         == Prepend(plain, OpenRecords(aead, key, tail, i + 1))
  {
    var sealed := aead.seal(key, NonceFor(CounterAt(i)), plain);
    assert |sealed| == |plain| + TAG_LEN < U32_LIMIT;
    var body := SealRecord(aead, key, i, plain) + tail;
    assert body == ToBigEndian(|sealed|, 4) + sealed + tail;
    assert body[..4] == ToBigEndian(|sealed|, 4);
    Pow256Widths();
    BigEndianRoundTrip(|sealed|, 4);
    assert body[4..4 + |sealed|] == sealed;
    assert body[4 + |sealed|..] == tail;
  }

  lemma RecordsCons(aead: Aead, key: Bytes, chunks: seq<Bytes>, rest: Bytes, i: nat)
    requires chunks != []
    ensures RecordsFrom(aead, key, chunks, i) + rest
         == SealRecord(aead, key, i, chunks[0]) + (RecordsFrom(aead, key, chunks[1..], i + 1) + rest)
  {
  }

  /** Decrypting records sealed from `chunks` opens the first of them, then goes on. */
  lemma OpenRecordsCons(aead: Aead, key: Bytes, chunks: seq<Bytes>, rest: Bytes, i: nat)
    requires aead.Sound() && chunks != [] && |chunks[0]| <= CHUNK_SIZE
    ensures OpenRecords(aead, key, RecordsFrom(aead, key, chunks, i) + rest, i)
         == Prepend(chunks[0], OpenRecords(aead, key, RecordsFrom(aead, key, chunks[1..], i + 1) + rest, i + 1))
  {
    RecordsCons(aead, key, chunks, rest, i);
    OpenSealedRecord(aead, key, i, chunks[0], RecordsFrom(aead, key, chunks[1..], i + 1) + rest);
  }

  /** The inductive step of `OpenRecordsAfter`: from what the records after the first yield
      to what all of them yield. */
  lemma OpenRecordsStep(aead: Aead, key: Bytes, chunks: seq<Bytes>, rest: Bytes, i: nat, n: nat)
    requires aead.Sound() && chunks != [] && |chunks[0]| <= CHUNK_SIZE
    requires OpenRecords(aead, key, RecordsFrom(aead, key, chunks[1..], i + 1) + rest, i + 1)
          == Prepend(Concat(chunks[1..]), OpenRecords(aead, key, rest, n))
    ensures OpenRecords(aead, key, RecordsFrom(aead, key, chunks, i) + rest, i)
         == Prepend(Concat(chunks), OpenRecords(aead, key, rest, n))
  {
    OpenRecordsCons(aead, key, chunks, rest, i);
    PrependConcat(chunks, OpenRecords(aead, key, rest, n));
  }

  lemma PrependConcat(chunks: seq<Bytes>, d: Decoded)
    requires chunks != []
    ensures Prepend(chunks[0], Prepend(Concat(chunks[1..]), d)) == Prepend(Concat(chunks), d)
  {
  }

  /** Decrypting records sealed from `chunks`, followed by anything, yields the chunks in order
      and then whatever decrypting the rest yields. */
  lemma {:induction false} OpenRecordsAfter(aead: Aead, key: Bytes, chunks: seq<Bytes>, rest: Bytes, i: nat, n: nat)
    requires aead.Sound()
    requires ChunksFit(chunks) && n == i + |chunks|
    ensures OpenRecords(aead, key, RecordsFrom(aead, key, chunks, i) + rest, i)
         == Prepend(Concat(chunks), OpenRecords(aead, key, rest, n))
    decreases |chunks|
  {
    if chunks == [] {
      var d := OpenRecords(aead, key, rest, n);
      assert RecordsFrom(aead, key, chunks, i) + rest == rest;
      assert Concat(chunks) + d.written == d.written;
    } else {
      OpenRecordsAfter(aead, key, chunks[1..], rest, i + 1, n);
      OpenRecordsStep(aead, key, chunks, rest, i, n);
    }
  }

  /** The encrypted output: the header (version 1, algorithm byte 2, the salt, the header
      nonce: 46 bytes), then the records. */
  lemma EncryptedLayout(input: Bytes, password: Bytes, iterations: u32, salt: Bytes,
                        headerNonce: Bytes, kdf: Kdf, aead: Aead, chunks: seq<Bytes>)
    requires |salt| == SALT_SIZE && |headerNonce| == HEADER_NONCE_LEN
    requires DerivesUsableKey(kdf, password, salt, iterations)
    ensures var run := EncryptRun(Some(input), password, iterations, salt, headerNonce, kdf, aead, chunks);
      var out := run.output.value;
      run.outcome == Ok(()) && run.output.Some? && |out| >= HEADER_LEN == 46 &&
      out[0] == VERSION && out[1] == ToByte(ChaCha20Poly1305) == 2 &&
      out[2..34] == salt && out[34..46] == headerNonce &&
      out[46..] == RecordsFrom(aead, kdf(password, salt, iterations).value, chunks, 0)
  {
    var out := EncryptRun(Some(input), password, iterations, salt, headerNonce, kdf, aead, chunks).output.value;
    var h := Header(salt, headerNonce);
    assert out[..46] == h;
    assert h[2..34] == salt;
    assert h[34..46] == headerNonce;
  }

  /** An empty input gives a header and no records. */
  lemma EmptyInputHeaderOnly(password: Bytes, iterations: u32, salt: Bytes, headerNonce: Bytes,
                             kdf: Kdf, aead: Aead, chunks: seq<Bytes>)
    requires IsSplit(chunks, [])
    requires DerivesUsableKey(kdf, password, salt, iterations)
    ensures chunks == []
    ensures EncryptRun(Some([]), password, iterations, salt, headerNonce, kdf, aead, chunks)
         == Run(Ok(()), Some(Header(salt, headerNonce)))
  {
    var key := kdf(password, salt, iterations).value;
    assert Header(salt, headerNonce) + RecordsFrom(aead, key, chunks, 0) == Header(salt, headerNonce);
  }

  /** A derived key the cipher does not accept: encryption fails with `EncryptionError` after
      the header has been written, decryption with `DecryptionError` before the output exists. */
  lemma KeyRejected(input: Bytes, data: Bytes, password: Bytes, iterations: u32, salt: Bytes,
                    headerNonce: Bytes, kdf: Kdf, aead: Aead, chunks: seq<Bytes>)
    ensures kdf(password, salt, iterations).Ok? && !DerivesUsableKey(kdf, password, salt, iterations) ==>
      EncryptRun(Some(input), password, iterations, salt, headerNonce, kdf, aead, chunks)
        == Run(Err(EncryptionError(KEY_SETUP_FAILED)), Some(Header(salt, headerNonce)))
    ensures ParseHeader(data) == Ok(salt) &&
            kdf(password, salt, DECRYPT_WORK_FACTOR).Ok? && !DerivesUsableKey(kdf, password, salt, DECRYPT_WORK_FACTOR) ==>
      DecryptRun(Some(data), password, kdf, aead) == Run(Err(DecryptionError(KEY_SETUP_FAILED)), None)
  {
  }

  /** The random header nonce plays no part in sealing: two encryptions that differ only in
      it differ only in header bytes 34 to 45. */
  lemma HeaderNonceUnused(input: Bytes, password: Bytes, iterations: u32, salt: Bytes,
                          nonce1: Bytes, nonce2: Bytes, kdf: Kdf, aead: Aead, chunks: seq<Bytes>)
    requires |salt| == SALT_SIZE && |nonce1| == HEADER_NONCE_LEN && |nonce2| == HEADER_NONCE_LEN
    requires DerivesUsableKey(kdf, password, salt, iterations)
    ensures var out1 := EncryptRun(Some(input), password, iterations, salt, nonce1, kdf, aead, chunks).output.value;
      var out2 := EncryptRun(Some(input), password, iterations, salt, nonce2, kdf, aead, chunks).output.value;
      |out1| == |out2| && out1[..34] == out2[..34] && out1[46..] == out2[46..]
  {
    EncryptedLayout(input, password, iterations, salt, nonce1, kdf, aead, chunks);
    EncryptedLayout(input, password, iterations, salt, nonce2, kdf, aead, chunks);
    var out1 := EncryptRun(Some(input), password, iterations, salt, nonce1, kdf, aead, chunks).output.value;
    var out2 := EncryptRun(Some(input), password, iterations, salt, nonce2, kdf, aead, chunks).output.value;
    assert out1[..34] == Header(salt, nonce1)[..34] == Header(salt, nonce2)[..34] == out2[..34];
  }

  /** Decryption never looks at the header nonce either. */
  lemma HeaderNonceIgnored(data1: Bytes, data2: Bytes, password: Bytes, kdf: Kdf, aead: Aead)
    requires |data1| == |data2| >= HEADER_LEN
    requires data1[..34] == data2[..34] && data1[46..] == data2[46..]
    ensures DecryptRun(Some(data1), password, kdf, aead) == DecryptRun(Some(data2), password, kdf, aead)
  {
    assert data1[0] == data1[..34][0] && data2[0] == data2[..34][0];
    assert data1[1] == data1[..34][1] && data2[1] == data2[..34][1];
    assert data1[2..34] == data1[..34][2..] && data2[2..34] == data2[..34][2..];
  }

  /** A wrong version byte is rejected with `UnsupportedVersion`, and a wrong algorithm byte
      with `InvalidFormat`, before any key is derived and before the output is created: the
      outcome does not depend on the password, the KDF or the cipher. */
  lemma HeaderRejectedFirst(data: Bytes, password1: Bytes, password2: Bytes, kdf1: Kdf, kdf2: Kdf, aead1: Aead, aead2: Aead)
    requires 1 <= |data|
    requires data[0] != VERSION || (2 <= |data| && data[1] != ToByte(ChaCha20Poly1305))
    ensures DecryptRun(Some(data), password1, kdf1, aead1) == DecryptRun(Some(data), password2, kdf2, aead2)
    ensures data[0] != VERSION ==>
      DecryptRun(Some(data), password1, kdf1, aead1) == Run(Err(UnsupportedVersion(data[0])), None)
    ensures data[0] == VERSION && 2 <= |data| ==>
      DecryptRun(Some(data), password1, kdf1, aead1) == Run(Err(InvalidFormat("Wrong algorithm")), None)
  {
  }

  /** Round trip: decrypting what encryption wrote gives back the input, whenever encryption
      used the work factor decryption assumes. */
  lemma RoundTrip(input: Bytes, password: Bytes, salt: Bytes, headerNonce: Bytes,
                  kdf: Kdf, aead: Aead, chunks: seq<Bytes>)
    requires aead.Sound()
    requires IsSplit(chunks, input)
    requires |salt| == SALT_SIZE && |headerNonce| == HEADER_NONCE_LEN
    requires DerivesUsableKey(kdf, password, salt, DECRYPT_WORK_FACTOR)
    ensures var run := EncryptRun(Some(input), password, DECRYPT_WORK_FACTOR, salt, headerNonce, kdf, aead, chunks);
      run.outcome == Ok(()) && run.output.Some? &&
      DecryptRun(run.output, password, kdf, aead) == Run(Ok(()), Some(input))
  {
    var key := kdf(password, salt, DECRYPT_WORK_FACTOR).value;
    var records := RecordsFrom(aead, key, chunks, 0);
    var out := Header(salt, headerNonce) + records;
    EncryptedLayout(input, password, DECRYPT_WORK_FACTOR, salt, headerNonce, kdf, aead, chunks);
    assert ParseHeader(out) == Ok(salt);
    SplitChunksFit(chunks);
    OpenRecordsAfter(aead, key, chunks, [], 0, |chunks|);
    assert out[HEADER_LEN..] == records + [];
    assert Prepend(input, OpenRecords(aead, key, [], |chunks|)) == Decoded(input + [], Ok(()));
    assert input + [] == input;
  }

  /** A trailing fragment of one to three bytes after the last record is dropped silently:
      decryption ends successfully with every chunk written. */
  lemma TrailingFragmentIgnored(aead: Aead, key: Bytes, chunks: seq<Bytes>, fragment: Bytes)
    requires aead.Sound()
    requires ChunksFit(chunks)
    requires |fragment| < 4
    ensures OpenRecords(aead, key, RecordsFrom(aead, key, chunks, 0) + fragment, 0)
         == Decoded(Concat(chunks), Ok(()))
  {
    OpenRecordsAfter(aead, key, chunks, fragment, 0, |chunks|);
  }

  /** A length field announcing more bytes than remain is an end-of-input I/O error; the
      chunks before it have been written. */
  lemma ShortRecordIsIoError(aead: Aead, key: Bytes, chunks: seq<Bytes>, lengthField: Bytes, tail: Bytes)
    requires aead.Sound()
    requires ChunksFit(chunks)
    requires |lengthField| == 4 && |tail| < FromBigEndian(lengthField)
    ensures OpenRecords(aead, key, RecordsFrom(aead, key, chunks, 0) + (lengthField + tail), 0)
         == Decoded(Concat(chunks), Err(IoError(UnexpectedEof)))
  {
    OpenRecordsAfter(aead, key, chunks, lengthField + tail, 0, |chunks|);
    TruncatedRecord(aead, key, lengthField, tail, |chunks|);
    assert Concat(chunks) + [] == Concat(chunks);
  }

  /** A length field followed by fewer bytes than it announces: the loop stops, cut short. */
  lemma TruncatedRecord(aead: Aead, key: Bytes, lengthField: Bytes, tail: Bytes, i: nat)
    requires |lengthField| == 4 && |tail| < FromBigEndian(lengthField)
    ensures OpenRecords(aead, key, lengthField + tail, i) == Decoded([], Err(IoError(UnexpectedEof)))
  {
    assert (lengthField + tail)[..4] == lengthField;
  }

  /** The first record that fails to open aborts with `AuthenticationFailed`: what was written
      is exactly the chunks before it, nothing of it or of any later record. */
  lemma FirstBadRecordAborts(aead: Aead, key: Bytes, chunks: seq<Bytes>, length: u32, bad: Bytes, later: Bytes)
    requires aead.Sound()
    requires ChunksFit(chunks)
    requires |bad| == length
    requires aead.open(key, NonceFor(CounterAt(|chunks|)), bad).None?
    ensures OpenRecords(aead, key, RecordsFrom(aead, key, chunks, 0) + ToBigEndian(length, 4) + bad + later, 0)
         == Decoded(Concat(chunks), Err(AuthenticationFailed))
  {
    var records := RecordsFrom(aead, key, chunks, 0);
    var rest := ToBigEndian(length, 4) + bad + later;
    assert records + ToBigEndian(length, 4) + bad + later == records + rest;
    OpenRecordsAfter(aead, key, chunks, rest, 0, |chunks|);
    assert rest[..4] == ToBigEndian(length, 4);
    assert rest[4..4 + length] == bad;
    Pow256Widths();
    BigEndianRoundTrip(length, 4);
  }

  /** The header carries a 12-byte nonce: the ChaCha20-Poly1305 header is not sized by the
      registry's 24-byte nonce for that algorithm. */
  lemma HeaderNonceWidth()
    ensures HEADER_LEN == 2 + SALT_SIZE + NonceSize(Aes256Gcm)
    ensures HEADER_LEN != 2 + SALT_SIZE + NonceSize(ChaCha20Poly1305)
  {
  }
}
