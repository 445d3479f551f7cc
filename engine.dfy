/** The crypto engine: checks that the input exists, and for decryption checks the version and
    algorithm bytes of the header, then hands the file to the codec of the chosen algorithm. */
module Engine {
  import opened Bytes
  import opened Errors
  import opened Types
  import opened Format
  import opened Files
  import opened Primitives
  import ChaCha

  /** The AES-256-GCM codec, which is not part of this model: what one encryption (input bytes,
      password, work factor) or one decryption (input bytes, password) does. */
  datatype AesCodec = AesCodec(encrypt: (Bytes, Bytes, u32) -> Run, decrypt: (Bytes, Bytes) -> Run)

  /** `CryptoEngine::new`: an engine that encrypts with `algorithm` at work factor `iterations`. */
  function New(algorithm: Algorithm, iterations: u32): (e: CryptoEngine)
    ensures e.algorithm == algorithm && e.iterations == iterations
  {
    CryptoEngine(algorithm, iterations)
  }

  /** What encrypting the file at `input` does: it must exist, then the engine's algorithm
      picks the codec, which gets the engine's work factor. */
  function EncryptRun(engine: CryptoEngine, fs: FileSystem, input: Path, password: Bytes,
                      salt: Bytes, headerNonce: Bytes, kdf: Kdf, aead: Aead, aes: AesCodec,
                      chunks: seq<Bytes>): Run
  {
    if input !in fs then Run(Err(InputNotFound(input)), None)
    else
      match engine.algorithm
      case Aes256Gcm => aes.encrypt(fs[input], password, engine.iterations)
      case ChaCha20Poly1305 =>
        ChaCha.EncryptRun(Some(fs[input]), password, engine.iterations, salt, headerNonce, kdf, aead, chunks)
  }

  /** The first two bytes of an encrypted file as the engine reads them: both must be there,
      the version must be `VERSION`, the second must name a known algorithm. */
  function HeaderAlgorithm(data: Bytes): Result<Algorithm>
  {
    if |data| < 2 then Err(IoError(UnexpectedEof))
    else if data[0] != VERSION then Err(UnsupportedVersion(data[0]))
    else
      match FromByte(data[1])
      case None => Err(UnsupportedAlgorithm(data[1]))
      case Some(a) => Ok(a)
  }

  /** What decrypting the file at `input` does: it must exist, its header must name a known
      algorithm, whose codec then decrypts the whole file. No engine is involved: decryption
      takes no work factor. */
  function DecryptRun(fs: FileSystem, input: Path, password: Bytes, kdf: Kdf, aead: Aead,
                      aes: AesCodec): Run
  {
    if input !in fs then Run(Err(InputNotFound(input)), None)
    else
      match HeaderAlgorithm(fs[input])
      case Err(e) => Run(Err(e), None)
      case Ok(Aes256Gcm) => aes.decrypt(fs[input], password)
      case Ok(ChaCha20Poly1305) => ChaCha.DecryptRun(Some(fs[input]), password, kdf, aead)
  }

  /** `CryptoEngine::encrypt_file`. `salt` and `headerNonce` stand for the random bytes the
      ChaCha20-Poly1305 codec draws. */
  method EncryptFile(engine: CryptoEngine, fs: FileSystem, input: Path, output: Path, password: Bytes,
                     salt: Bytes, headerNonce: Bytes, kdf: Kdf, aead: Aead, aes: AesCodec)
    returns (run: Run, ghost chunks: seq<Bytes>)
    requires |salt| == SALT_SIZE && |headerNonce| == ChaCha.HEADER_NONCE_LEN
    ensures run == EncryptRun(engine, fs, input, password, salt, headerNonce, kdf, aead, aes, chunks)
    ensures engine.algorithm == ChaCha20Poly1305 && run.outcome.Ok? ==>
      input in fs && ChaCha.IsSplit(chunks, fs[input])
    ensures input !in fs ==> run == Run(Err(InputNotFound(input)), None)
    ensures input in fs && engine.algorithm == Aes256Gcm ==> run == aes.encrypt(fs[input], password, engine.iterations)
    ensures input in fs && input != output &&
            engine.algorithm == ChaCha20Poly1305 && engine.iterations == ChaCha.DECRYPT_WORK_FACTOR &&
            aead.Sound() && ChaCha.DerivesUsableKey(kdf, password, salt, engine.iterations) ==>
      run.outcome == Ok(()) && run.output.Some? &&
      DecryptRun(fs[output := run.output.value], output, password, kdf, aead, aes) == Run(Ok(()), Some(fs[input]))
  {
    chunks := [];
    if input !in fs {
      return Run(Err(InputNotFound(input)), None), chunks;
    }
    match engine.algorithm
    case Aes256Gcm =>
      run := aes.encrypt(fs[input], password, engine.iterations);
    case ChaCha20Poly1305 =>
      run, chunks := ChaCha.EncryptFile(Some(fs[input]), password, engine.iterations, salt,
                                        headerNonce, kdf, aead);
      if engine.iterations == ChaCha.DECRYPT_WORK_FACTOR && aead.Sound() &&
         ChaCha.DerivesUsableKey(kdf, password, salt, engine.iterations) {
        EngineRoundTrip(fs, input, output, password, salt, headerNonce, kdf, aead, aes, chunks);
      }
  }

  /** `CryptoEngine::decrypt_file`: reads the two leading header bytes, then dispatches. */
  method DecryptFile(fs: FileSystem, input: Path, password: Bytes, kdf: Kdf, aead: Aead, aes: AesCodec)
    returns (run: Run)
    ensures run == DecryptRun(fs, input, password, kdf, aead, aes)
  {
    if input !in fs {
      return Run(Err(InputNotFound(input)), None);
    }
    var file := new InputFile(fs[input]);
    var header := file.ReadExact(2);
    if header.Err? {
      return Run(Err(header.error), None);
    }
    var version := header.value[0];
    var algorithmByte := header.value[1];
    if version != VERSION {
      return Run(Err(UnsupportedVersion(version)), None);
    }
    var algorithm := FromByte(algorithmByte);
    if algorithm.None? {
      return Run(Err(UnsupportedAlgorithm(algorithmByte)), None);
    }
    match algorithm.value
    case Aes256Gcm =>
      run := aes.decrypt(fs[input], password);
    case ChaCha20Poly1305 =>
      run := ChaCha.DecryptFile(Some(fs[input]), password, kdf, aead);
  }

  // ----- Properties -----

  /** The engine's header check accepts exactly the files that start with the version byte and
      a known algorithm byte, and names the algorithm whose wire byte comes second. */
  lemma HeaderAlgorithmAccepts(data: Bytes, a: Algorithm)
    ensures HeaderAlgorithm(data) == Ok(a) <==> |data| >= 2 && data[0] == VERSION && data[1] == ToByte(a)
  {
    if |data| >= 2 {
      FromByteInverse(data[1], a);
    }
  }

  /** The errors of the engine's header check, in the order it checks: too short, then the
      version, then the algorithm byte. */
  lemma HeaderAlgorithmErrors(data: Bytes)
    ensures |data| < 2 ==> HeaderAlgorithm(data) == Err(IoError(UnexpectedEof))
    ensures |data| >= 2 && data[0] != VERSION ==> HeaderAlgorithm(data) == Err(UnsupportedVersion(data[0]))
    ensures |data| >= 2 && data[0] == VERSION && data[1] != 1 && data[1] != 2 ==>
      HeaderAlgorithm(data) == Err(UnsupportedAlgorithm(data[1]))
  {
  }

  /** A missing input is reported as `InputNotFound` with its path, by both operations and
      whatever the algorithm. */
  lemma MissingInput(engine: CryptoEngine, fs: FileSystem, input: Path, password: Bytes, salt: Bytes,
                     headerNonce: Bytes, kdf: Kdf, aead: Aead, aes: AesCodec, chunks: seq<Bytes>)
    requires input !in fs
    ensures EncryptRun(engine, fs, input, password, salt, headerNonce, kdf, aead, aes, chunks)
         == Run(Err(InputNotFound(input)), None)
    ensures DecryptRun(fs, input, password, kdf, aead, aes) == Run(Err(InputNotFound(input)), None)
  {
  }

  /** Once the engine has accepted the header for ChaCha20-Poly1305, the codec's own version and
      algorithm checks cannot fail: its header check can then only report a header cut short. */
  lemma ChaChaChecksRedundant(data: Bytes)
    requires HeaderAlgorithm(data) == Ok(ChaCha20Poly1305)
    ensures ChaCha.ParseHeader(data).Err? <==> |data| < ChaCha.HEADER_LEN
    ensures ChaCha.ParseHeader(data).Err? ==> ChaCha.ParseHeader(data) == Err(IoError(UnexpectedEof))
  {
    HeaderAlgorithmAccepts(data, ChaCha20Poly1305);
  }

  /** Round trip through the engine: a file encrypted by an engine set to ChaCha20-Poly1305 at
      the work factor decryption assumes, stored at any path, decrypts to the original. */
  lemma EngineRoundTrip(fs: FileSystem, input: Path, output: Path, password: Bytes, salt: Bytes,
                        headerNonce: Bytes, kdf: Kdf, aead: Aead, aes: AesCodec, chunks: seq<Bytes>)
    requires input in fs && ChaCha.IsSplit(chunks, fs[input])
    requires aead.Sound()
    requires |salt| == SALT_SIZE && |headerNonce| == ChaCha.HEADER_NONCE_LEN
    requires ChaCha.DerivesUsableKey(kdf, password, salt, ChaCha.DECRYPT_WORK_FACTOR)
    ensures var engine := New(ChaCha20Poly1305, ChaCha.DECRYPT_WORK_FACTOR);
      var run := EncryptRun(engine, fs, input, password, salt, headerNonce, kdf, aead, aes, chunks);
      run.outcome == Ok(()) && run.output.Some? &&
      DecryptRun(fs[output := run.output.value], output, password, kdf, aead, aes)
        == Run(Ok(()), Some(fs[input]))
  {
    var engine := New(ChaCha20Poly1305, ChaCha.DECRYPT_WORK_FACTOR);
    var data := fs[input];
    ChaCha.RoundTrip(data, password, salt, headerNonce, kdf, aead, chunks);
    ChaCha.EncryptedLayout(data, password, ChaCha.DECRYPT_WORK_FACTOR, salt, headerNonce, kdf, aead, chunks);
    var out := EncryptRun(engine, fs, input, password, salt, headerNonce, kdf, aead, aes, chunks).output.value;
    HeaderAlgorithmAccepts(out, ChaCha20Poly1305);
  }

  /** An engine set to AES-256-GCM hands the input, password and work factor to the AES codec
      unchanged, whatever the ChaCha20-Poly1305 parameters. */
  lemma AesDispatch(iterations: u32, fs: FileSystem, input: Path, password: Bytes, salt: Bytes,
                    headerNonce: Bytes, kdf: Kdf, aead: Aead, aes: AesCodec, chunks: seq<Bytes>)
    requires input in fs
    ensures EncryptRun(New(Aes256Gcm, iterations), fs, input, password, salt, headerNonce, kdf, aead, aes, chunks)
         == aes.encrypt(fs[input], password, iterations)
  {
  }
}
