/** A concrete cipher and key derivation that meet the laws the codec is proved under, and what
    the codec does with them when encryption used a work factor other than the one decryption
    assumes. The cipher is no cipher at all: it appends a tag made of the key's first bytes. */
module Witnesses {
  import opened Bytes
  import opened Errors
  import opened Format
  import opened Files
  import opened Primitives
  import ChaCha

  function Zeros(n: nat): (z: Bytes)
    ensures |z| == n
  {
    if n == 0 then [] else [0] + Zeros(n - 1)
  }

  /** The tag under `key`: its first `TAG_LEN` bytes, padded with zeros. */
  function Tag(key: Bytes): (t: Bytes)
    ensures |t| == TAG_LEN
  {
    (key + Zeros(TAG_LEN))[..TAG_LEN]
  }

  function TagSeal(key: Bytes, nonce: Bytes, plain: Bytes): Bytes
  {
    plain + Tag(key)
  }

  function TagOpen(key: Bytes, nonce: Bytes, sealed: Bytes): Option<Bytes>
  {
    if |sealed| >= TAG_LEN && sealed[|sealed| - TAG_LEN..] == Tag(key)
    then Some(sealed[..|sealed| - TAG_LEN])
    else None
  }

  const TagAead: Aead := Aead(TagSeal, TagOpen)

  /** The tag-appending cipher meets both laws. */
  lemma TagAeadSound()
    ensures TagAead.Sound()
  {
    forall key: Bytes, nonce: Bytes, plain: Bytes
      ensures TagOpen(key, nonce, TagSeal(key, nonce, plain)) == Some(plain)
    {
      var sealed := TagSeal(key, nonce, plain);
      assert sealed[|sealed| - TAG_LEN..] == Tag(key);
      assert sealed[..|sealed| - TAG_LEN] == plain;
    }
  }

  /** The key derived at work factor t: t in four little-endian bytes, then zeros. */
  function WorkFactorKey(t: u32): (key: Bytes)
    ensures |key| == 32
  {
    ToLittleEndian(t, 4) + Zeros(28)
  }

  /** A key derivation whose key starts with the work factor, whatever the password and salt. */
  function WorkFactorKdf(password: Bytes, salt: Bytes, iterations: u32): (r: Result<Bytes>)
    ensures r == Ok(WorkFactorKey(iterations))
  {
    Ok(WorkFactorKey(iterations))
  }

  /** Keys derived at different work factors have different tags. */
  lemma TagsDiffer(t1: u32, t2: u32)
    requires t1 != t2
    ensures Tag(WorkFactorKey(t1)) != Tag(WorkFactorKey(t2))
  {
    Pow256Widths();
    LittleEndianRoundTrip(t1, 4);
    LittleEndianRoundTrip(t2, 4);
    assert Tag(WorkFactorKey(t1))[..4] == ToLittleEndian(t1, 4);
    assert Tag(WorkFactorKey(t2))[..4] == ToLittleEndian(t2, 4);
  }

  /** The records sealed under `key` start with the first chunk's record: its length in four
      bytes, then the chunk with the tag appended. */
  lemma FirstRecordLayout(key: Bytes, chunks: seq<Bytes>)
    requires chunks != [] && |chunks[0]| <= CHUNK_SIZE
    ensures var sealed := TagSeal(key, ChaCha.NonceFor(ChaCha.CounterAt(0)), chunks[0]);
      |sealed| < U32_LIMIT &&
      ChaCha.RecordsFrom(TagAead, key, chunks, 0)
        == [] + ToBigEndian(|sealed|, 4) + sealed + ChaCha.RecordsFrom(TagAead, key, chunks[1..], 1)
  {
    var sealed := TagSeal(key, ChaCha.NonceFor(ChaCha.CounterAt(0)), chunks[0]);
    assert |sealed| % U32_LIMIT == |sealed|;
    assert [] + ToBigEndian(|sealed|, 4) == ToBigEndian(|sealed|, 4);
  }

  /** Records sealed at a work factor other than 3 and opened with the key for 3: the first
      one fails authentication and nothing is written. */
  lemma FirstRecordRejected(t: u32, chunks: seq<Bytes>)
    requires t != ChaCha.DECRYPT_WORK_FACTOR
    requires chunks != [] && |chunks[0]| <= CHUNK_SIZE
    ensures ChaCha.OpenRecords(TagAead, WorkFactorKey(ChaCha.DECRYPT_WORK_FACTOR),
                               ChaCha.RecordsFrom(TagAead, WorkFactorKey(t), chunks, 0), 0)
         == ChaCha.Decoded([], Err(AuthenticationFailed))
  {
    var keyD := WorkFactorKey(ChaCha.DECRYPT_WORK_FACTOR);
    var sealed := TagSeal(WorkFactorKey(t), ChaCha.NonceFor(ChaCha.CounterAt(0)), chunks[0]);
    FirstRecordLayout(WorkFactorKey(t), chunks);
    TagAeadSound();
    TagsDiffer(t, ChaCha.DECRYPT_WORK_FACTOR);
    assert sealed[|sealed| - TAG_LEN..] == Tag(WorkFactorKey(t));
    ChaCha.FirstBadRecordAborts(TagAead, keyD, [], |sealed|, sealed,
                                ChaCha.RecordsFrom(TagAead, WorkFactorKey(t), chunks[1..], 1));
  }

  /** Encrypting a non-empty input at any work factor other than 3 succeeds, yet decrypting the
      result fails authentication at the first record, having written nothing. */
  lemma WorkFactorMismatch(input: Bytes, password: Bytes, iterations: u32, salt: Bytes,
                           headerNonce: Bytes, chunks: seq<Bytes>)
    requires iterations != ChaCha.DECRYPT_WORK_FACTOR
    requires input != [] && ChaCha.IsSplit(chunks, input)
    requires |salt| == SALT_SIZE && |headerNonce| == ChaCha.HEADER_NONCE_LEN
    ensures var run := ChaCha.EncryptRun(Some(input), password, iterations, salt, headerNonce,
                                         WorkFactorKdf, TagAead, chunks);
      run.outcome == Ok(()) &&
      ChaCha.DecryptRun(run.output, password, WorkFactorKdf, TagAead)
        == Run(Err(AuthenticationFailed), Some([]))
  {
    assert chunks != [] && |chunks[0]| <= CHUNK_SIZE;
    ChaCha.EncryptedLayout(input, password, iterations, salt, headerNonce, WorkFactorKdf, TagAead, chunks);
    var out := ChaCha.Header(salt, headerNonce) + ChaCha.RecordsFrom(TagAead, WorkFactorKey(iterations), chunks, 0);
    assert ChaCha.ParseHeader(out) == Ok(salt);
    FirstRecordRejected(iterations, chunks);
  }

  /** The codec's round trip holds for the tag-appending cipher and the work-factor key
      derivation: the laws it is proved under can be met. */
  lemma TagRoundTrip(input: Bytes, password: Bytes, salt: Bytes, headerNonce: Bytes, chunks: seq<Bytes>)
    requires ChaCha.IsSplit(chunks, input)
    requires |salt| == SALT_SIZE && |headerNonce| == ChaCha.HEADER_NONCE_LEN
    ensures var run := ChaCha.EncryptRun(Some(input), password, ChaCha.DECRYPT_WORK_FACTOR, salt,
                                         headerNonce, WorkFactorKdf, TagAead, chunks);
      run.outcome == Ok(()) &&
      ChaCha.DecryptRun(run.output, password, WorkFactorKdf, TagAead) == Run(Ok(()), Some(input))
  {
    TagAeadSound();
    ChaCha.RoundTrip(input, password, salt, headerNonce, WorkFactorKdf, TagAead, chunks);
  }
}
