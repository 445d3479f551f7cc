# secure_vault: the ChaCha20-Poly1305 container codec and the crypto engine, in Dafny

secure_vault is a command-line tool. It encrypts a file under a password and decrypts it again.
This project models the part of it that decides the bytes on disk and the errors reported:

- the engine (`CryptoEngine`). On encryption it checks that the input exists and hands the file
  to the codec of its configured algorithm. On decryption it reads the version and algorithm bytes
  of the file's header and dispatches on them.
- the ChaCha20-Poly1305 codec. A container is a 46-byte header followed by records.
  - The header holds the version byte 1, the algorithm byte 2, a 32-byte random salt and a
    12-byte random nonce.
  - Each record holds the sealed length as a 4-byte big-endian `u32`, then one chunk of at most
    1 MiB sealed with a 16-byte tag.
  - Chunk number i is sealed under the nonce made of four zero bytes followed by the counter i
    as 8 little-endian bytes. The counter is a `u64` that starts at zero for every file.
- the algorithm registry: wire bytes, nonce and tag sizes.
- the password source and the constant-time comparison helper.
- the error enum.

The cipher and the key derivation (Argon2id) are parameters. `Primitives.Aead.Sound` states the
two laws the codec is proved under:

- opening a sealed chunk under the same key and nonce gives it back;
- sealing adds exactly one 16-byte tag.

The key derivation is any deterministic function from password, salt and work factor to a key or
an error. The key's length is not assumed: a key the cipher does not accept (any length but 32
bytes) takes the key-setup error path of each direction (`ChaCha.KeyRejected`). The random salt
and header nonce are parameters too. How many bytes one `read` delivers is not determined: the
encryption loop yields, as a ghost, the split of the input its reads produced, and the container
is stated in terms of that split.

Behaviour of the code that the model keeps as written, each stated by a lemma:

- Decryption always derives its key with work factor 3, whatever work factor encryption used
  (`chacha.rs:124`). Nothing in the container records the work factor. A non-empty file
  encrypted at any other work factor is opened under a different key whenever the key depends on
  the work factor, as Argon2id's does. It then fails with `AuthenticationFailed` at its first
  record, with nothing written, provided the cipher rejects a record sealed under a different
  key. The cipher laws of the model do not state that (a cipher that ignores the key meets
  them); `Witnesses.WorkFactorMismatch` proves the failure for a cipher that does reject. The
  round trip is proved only at work factor 3 (`ChaCha.RoundTrip`). The round-trip test at
  `chacha.rs:169-203` encrypts at work factor 1; under this model its decryption fails for a cipher and key derivation like the ones in
  `Witnesses`.
- The random header nonce is written but used by neither direction
  (`ChaCha.HeaderNonceUnused`, `ChaCha.HeaderNonceIgnored`).
- The header's nonce field is 12 bytes, while the registry gives ChaCha20-Poly1305 a 24-byte
  nonce (`ChaCha.HeaderNonceWidth`).
- The record length is written big-endian (`write_u32`), not little-endian.
- An empty input gives a header with no records (`ChaCha.EmptyInputHeaderOnly`).
- 1 to 3 stray bytes after the last record are ignored, because end of input while reading a
  length ends the loop successfully (`ChaCha.TrailingFragmentIgnored`).
- A record shorter than its length field is an end-of-input I/O error
  (`ChaCha.ShortRecordIsIoError`).
- Decryption writes the output as it goes. A failure at record k leaves chunks 0..k-1 in the
  output (`ChaCha.FirstBadRecordAborts`).
- A wrong algorithm byte is `InvalidFormat` in the codec (`chacha.rs:111-112`) but
  `UnsupportedAlgorithm` in the engine (`mod.rs:77-78`). Behind the engine the codec's check can
  no longer fail (`Engine.ChaChaChecksRedundant`).
- The nonce counter wraps at 2^64, as a `u64` addition does in a release build
  (`ChaCha.CounterWraps`). Below that, no two records share a nonce
  (`ChaCha.RecordNoncesDistinct`).

Modules, one file each:

- `Bytes`: bytes, `u32`/`u64`, big- and little-endian encodings.
- `Errors`: `VaultError`, `Option`, `Result`.
- `Types`: the registry and `CryptoEngine`.
- `Format`: the format constants.
- `Files`: the input file as a class with a read position; a run's outcome and output.
- `Primitives`: the cipher and key derivation interfaces.
- `ChaCha`: the codec.
- `Engine`: the engine.
- `Utils`: the helpers.
- `Witnesses`: a concrete cipher and key derivation that meet the laws, and what the codec does
  with them.

## Model

| member | source | states |
|---|---|---|
| Types.FromByte | src/crypto/types.rs:26-32 | a byte decodes to an algorithm exactly when it is 1 or 2; every other byte is rejected |
| Types.ToByte | src/crypto/types.rs:18-23 | decoding an algorithm's wire byte gives the algorithm back |
| Types.FromByteInverse | src/crypto/types.rs:18-32 | `from_byte(b) == Some(a)` exactly when `a.to_byte() == b`: the two are inverse in both directions |
| Types.ToByteInjective | src/crypto/types.rs:18-23 | distinct algorithms have distinct wire bytes |
| Types.RegistrySizes | src/crypto/types.rs:35-45 | nonce sizes 12 (AES-256-GCM) and 24 (ChaCha20-Poly1305); a 16-byte tag for both |
| Format.Constants | src/crypto/mod.rs:14-21 | version 1, 32-byte salt, 1 MiB chunks |
| Engine.New | src/crypto/mod.rs:25-30 | the engine holds exactly the algorithm and work factor it was given |
| Engine.EncryptFile | src/crypto/mod.rs:33-51 | `InputNotFound(path)` with no output for a missing input; an AES-256-GCM engine gives exactly the AES codec's run with its work factor; a ChaCha20-Poly1305 engine at work factor 3, with a 32-byte derived key and an output path other than the input, succeeds, and the engine decrypts what it wrote, stored at the output path, back to the input; a successful ChaCha20-Poly1305 run read the whole input |
| Engine.DecryptFile | src/crypto/mod.rs:54-90 | the result is the engine's decryption run: `InputNotFound`, then a 2-byte header read, then the version check, then the algorithm byte, then dispatch |
| Engine.HeaderAlgorithmAccepts | src/crypto/mod.rs:67-78 | the engine accepts a header for algorithm a exactly when it starts with version 1 followed by a's wire byte |
| Engine.HeaderAlgorithmErrors | src/crypto/mod.rs:67-78 | the header errors in checking order: a file shorter than 2 bytes is end of input; a wrong version is `UnsupportedVersion(v)`; a byte other than 1 or 2 is `UnsupportedAlgorithm(b)` |
| Engine.MissingInput | src/crypto/mod.rs:39-41 | a missing input is `InputNotFound(path)` with no output, for both operations and every algorithm |
| Engine.ChaChaChecksRedundant | src/crypto/mod.rs:73-87 | once the engine has accepted a ChaCha20-Poly1305 header, the codec's header check can fail only with end of input, and only when the file is shorter than 46 bytes |
| Engine.EngineRoundTrip | src/crypto/mod.rs:43-89 | a file encrypted by a ChaCha20-Poly1305 engine at work factor 3, stored at any path, decrypts through the engine to the original contents |
| Engine.AesDispatch | src/crypto/mod.rs:43-46 | an AES-256-GCM engine passes the input, password and its work factor to the AES codec unchanged |
| ChaCha.CounterAtBelowWrap | src/crypto/chacha.rs:25-30 | after i < 2^64 advances from zero the counter equals i |
| ChaCha.CounterWraps | src/crypto/chacha.rs:28 | the 2^64-th advance wraps the `u64` counter back to zero |
| ChaCha.NonceFor | src/crypto/chacha.rs:26-27 | every nonce is 12 bytes long |
| ChaCha.NonceLayout | src/crypto/chacha.rs:26-27 | the nonce's first 4 bytes are zero and its last 8 read back, little-endian, as the counter |
| ChaCha.NonceInjective | src/crypto/chacha.rs:26-27 | two counter values give the same nonce exactly when they are equal |
| ChaCha.RecordNoncesDistinct | src/crypto/chacha.rs:14-31 | records i < j < 2^64 of one file are sealed under different nonces |
| ChaCha.CounterNonceSequence.constructor | src/crypto/chacha.rs:19-21 | a new sequence starts at counter 0 |
| ChaCha.CounterNonceSequence.Advance | src/crypto/chacha.rs:25-30 | returns the nonce for the current counter and moves the counter on by one, modulo 2^64 |
| ChaCha.SplitChunksFit | src/crypto/chacha.rs:71-79 | the pieces the reads deliver each fit the 1 MiB buffer |
| ChaCha.NextRecord | src/crypto/chacha.rs:137-152 | a record that is read in full, whether it opens or not, consumes at least its 4-byte length field and never more than remains |
| ChaCha.EncryptFile | src/crypto/chacha.rs:34-93 | a key derivation error is reported first and creates no output; then `NotFound` for an input that cannot be opened; a derived key that is not 32 bytes is `EncryptionError` with the header already written; otherwise it succeeds, writing the 46-byte header and then one record per chunk of the split its reads produced, which covers the whole input; at work factor 3, under a sound cipher, decryption of what it wrote gives the input back |
| ChaCha.SealChunks | src/crypto/chacha.rs:67-88 | the loop reads the whole file as non-empty pieces of at most 1 MiB, and writes exactly the records sealed from them with nonces 0, 1, 2, ... |
| ChaCha.SealNextChunk | src/crypto/chacha.rs:74-87 | one turn reads the next piece, which is empty only at end of input; a non-empty piece is sealed with the next nonce into a length-prefixed record, and the counter moves on; at end of input the counter is left as it was |
| ChaCha.DecryptFile | src/crypto/chacha.rs:96-161 | the result is the decryption run: header errors, then key derivation at work factor 3, then key setup (`DecryptionError` before any output exists), then the record loop's output and outcome |
| ChaCha.ReadHeader | src/crypto/chacha.rs:104-121 | reading the header field by field gives the header check's verdict (version, algorithm, salt, nonce, in that order), leaving the file at byte 46 on success |
| ChaCha.DecryptRecords | src/crypto/chacha.rs:130-156 | the record loop writes and ends exactly as the record-by-record definition over the rest of the file says |
| ChaCha.OpenNextRecord | src/crypto/chacha.rs:139-155 | one turn ends the loop at a missing length field, fails on a short record (both consume the rest of the file and leave the counter alone) or on a record that does not open (past that record, counter advanced), or yields the plaintext and moves past the record and the counter |
| ChaCha.ConcatSnoc | src/crypto/chacha.rs:73-88 | appending a piece to the split appends its bytes to the input read so far |
| ChaCha.RecordsSnoc | src/crypto/chacha.rs:81-87 | sealing one more piece appends one record, sealed with the next counter value |
| ChaCha.RecordLayout | src/crypto/chacha.rs:81-87 | a record is 4 + chunk + 16 bytes long; its length field reads back as the sealed length, which the `u32` cast never truncates; the sealed chunk follows |
| ChaCha.OpenSealedRecord | src/crypto/chacha.rs:137-155 | the decryption loop opens a record sealed from a chunk to that chunk and goes on with the next counter |
| ChaCha.RecordsCons | src/crypto/chacha.rs:73-88 | the records of a split are the first chunk's record followed by the rest's |
| ChaCha.OpenRecordsCons | src/crypto/chacha.rs:137-155 | decrypting the records of a split yields its first chunk, then decrypts the rest |
| ChaCha.OpenRecordsStep | src/crypto/chacha.rs:137-155 | if the records after the first decrypt to the rest of the chunks, all of them decrypt to all of the chunks |
| ChaCha.PrependConcat | src/crypto/chacha.rs:155 | writing the first chunk, then the rest, writes the concatenation |
| ChaCha.OpenRecordsAfter | src/crypto/chacha.rs:137-156 | records sealed from a split, followed by anything, decrypt to the split's bytes in order, followed by whatever the remainder decrypts to with the counter moved past them |
| ChaCha.EncryptedLayout | src/crypto/chacha.rs:58-61 | the output starts with version 1, algorithm byte 2, the salt at bytes 2-33 and the header nonce at 34-45, and the records follow from byte 46 |
| ChaCha.KeyRejected | src/crypto/chacha.rs:63-65 | a derived key the cipher does not accept fails encryption with `EncryptionError` at any work factor, leaving the header written, and fails decryption with `DecryptionError` before the output is created (chacha.rs:126-134) |
| ChaCha.EmptyInputHeaderOnly | src/crypto/chacha.rs:73-77 | an empty input is read as no chunks and encrypts to the bare header |
| ChaCha.HeaderNonceUnused | src/crypto/chacha.rs:48-61 | two encryptions that differ only in the header nonce differ only in bytes 34-45 |
| ChaCha.HeaderNonceIgnored | src/crypto/chacha.rs:119-130 | files that differ only in bytes 34-45 decrypt alike |
| ChaCha.HeaderRejectedFirst | src/crypto/chacha.rs:105-113 | a wrong version is `UnsupportedVersion(v)`, even in a 1-byte file, and a wrong algorithm byte `InvalidFormat`, with no output and whatever the password, key derivation or cipher |
| ChaCha.RoundTrip | src/crypto/chacha.rs:169-203 | encrypting at work factor 3 and decrypting the result succeeds and writes exactly the input |
| ChaCha.TrailingFragmentIgnored | src/crypto/chacha.rs:139-141 | 1 to 3 bytes after the last record are dropped, and decryption succeeds |
| ChaCha.ShortRecordIsIoError | src/crypto/chacha.rs:146-147 | after well-formed records, any 4-byte length field whose big-endian value exceeds the bytes that follow it is an end-of-input error, and exactly the preceding chunks were written |
| ChaCha.TruncatedRecord | src/crypto/chacha.rs:139-147 | a length field followed by fewer bytes than it announces writes nothing and fails with an end-of-input error |
| ChaCha.FirstBadRecordAborts | src/crypto/chacha.rs:150-152 | the first record that does not open gives `AuthenticationFailed`; exactly the chunks before it have been written |
| ChaCha.HeaderNonceWidth | src/crypto/chacha.rs:47-48 | the header's nonce field is 12 bytes, not the registry's 24 for ChaCha20-Poly1305 |
| Utils.GetPassword | src/utils.rs:7-25 | a `VAULT_PASSWORD` that is set to valid Unicode is used as it is; otherwise (unset, or not Unicode) the typed password is returned, refused with `PasswordRequired` exactly when empty |
| Utils.PasswordRequiredOnlyWhenTypedEmpty | src/utils.rs:10-22 | `PasswordRequired` arises exactly when the variable is unset or not valid Unicode and the typed line is empty; an empty variable is accepted |
| Utils.ConstantTimeCompare | src/utils.rs:28-39 | the comparison answers true exactly when the two byte strings are equal, including when their lengths differ |
| Utils.XorZero | src/utils.rs:35-38 | two bytes XOR to zero exactly when they are equal |
| Files.InputFile.Read | src/crypto/chacha.rs:74 | `read` into a 1 MiB buffer delivers the next bytes of the file, at most as many as the buffer holds and at least one unless the file is at its end; how many is not determined |
| Files.InputFile.ReadU8 | src/crypto/chacha.rs:105-110 | `read_u8` yields the next byte, or an end-of-input error at the end of the file |
| Files.InputFile.ReadExact | src/crypto/chacha.rs:117-121 | `read_exact` yields the next n bytes, or an end-of-input error when fewer remain |
| Files.InputFile.ReadU32 | src/crypto/chacha.rs:139-143 | `read_u32` yields the next 4 bytes read big-endian as a `u32`, or an end-of-input error when fewer remain |
| Bytes.BigEndianRoundTrip | src/crypto/chacha.rs:86 | a length written as a big-endian `u32` reads back as itself |
| Bytes.LittleEndianRoundTrip | src/crypto/chacha.rs:27 | a counter written little-endian reads back as itself |
| Witnesses.TagAeadSound | src/crypto/chacha.rs:81-83 | the cipher laws can be met |
| Witnesses.WorkFactorMismatch | src/crypto/chacha.rs:124 | with a key derivation that depends on the work factor, a non-empty file encrypted at a work factor other than 3 fails to decrypt at its first record, with nothing written |
| Witnesses.TagRoundTrip | src/crypto/chacha.rs:169-203 | the round trip holds for a concrete cipher and key derivation, so its premises can be met |

## Left out

- The ciphers themselves: ChaCha20-Poly1305 and AES-256-GCM sealing and opening come from the
  `ring` crate. The model takes any cipher that meets the two laws in `Primitives.Aead.Sound`.
- Argon2id (`src/crypto/kdf.rs`) is not part of this model. Key derivation is a parameter, and its
  failure is any error it returns.
- The AES-256-GCM codec (`src/crypto/aes.rs`) is not part of this model. The engine hands that
  codec's runs through as opaque functions (`Engine.AesCodec`).
- Sealing failures (`seal_in_place_append_tag` giving `EncryptionError`, chacha.rs:81-83): the
  model assumes sealing succeeds. Key setup is modelled only as far as the key's length; a
  32-byte key is taken to be accepted.
- Randomness: the salt and the header nonce are parameters.
- File system effects:
  - write errors, `flush`, and creating the output;
  - I/O errors other than a missing file and end of input;
  - a missing output directory.
  A run's output is the bytes written. In the engine, `input.exists()` is membership in a map.
- `Engine.EncryptFile`: an output path equal to the input is not modelled. The source opens the
  input, then creates (and so truncates) the same file as output and writes the header to it
  before the first read. The first read therefore sees the header just written. The loop then
  seals the header and its own records, and does not reach end of input while writes succeed.
  The original contents are lost. The model reads the input as it was. The round trip is stated
  only for an output path other than the input.
- `ChaCha.DecryptFile`: an output path equal to the input is not modelled; a run's output is
  always a fresh file. The source reads the header, then creates (and so truncates) the same file
  as output, so the next length read meets end of input: the call succeeds with an empty output
  and the encrypted file is gone.
- `Engine.EncryptFile`: the ChaCha20-Poly1305 codec reports a missing input with `NotFound`, but
  behind the engine's existence check that path is unreachable. A race between the check and the
  open is not modelled.
- `src/main.rs` and `src/cli.rs` (argument parsing, `--force`, the `OutputExists` check) are not
  part of this model. `VaultError` declares all the variants; `OutputExists`, `FileReadError`,
  `FileWriteError` and `KdfError` have no producer in the model (a key derivation error is whatever the `Kdf`
  parameter returns).
- `Utils.GetPassword`: the environment lookup and the line typed at the prompt become parameters.
  The I/O errors of flushing the prompt and of reading the password are dropped: the model has no
  way for them to occur.
- `Utils.ConstantTimeCompare`: its running time is not modelled, only its result. It takes bytes
  as `bv8` (the type XOR and OR are defined on), not the `byte` used elsewhere.
- `KeyMaterial` and `Zeroizing`: clearing key memory on drop has no counterpart in a value model.
- The error messages' display strings.
- Asynchronous execution: each run is modelled as sequential.
- `ChaCha.CounterNonceSequence.Advance`: wraps at 2^64 as in a release build. A debug build
  panics on the overflow instead. Reaching it takes 2^64 records.
- `ChaCha.TrailingFragmentIgnored`, `ChaCha.ShortRecordIsIoError`, `ChaCha.FirstBadRecordAborts`:
  stated for records sealed from chunks of at most 1 MiB, which is what encryption writes. Files
  built by hand with larger chunks before the point of interest are not covered.
