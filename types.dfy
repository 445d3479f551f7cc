/** The algorithm registry and the engine's configuration record. */
module Types {
  import opened Bytes
  import opened Errors

  /** The closed set of supported AEAD ciphers. */
  datatype Algorithm = Aes256Gcm | ChaCha20Poly1305

  /** Wire byte to algorithm; every byte other than the two identifiers is rejected, there is no default. */
  function FromByte(b: byte): (r: Option<Algorithm>)
    ensures r.None? <==> b != 1 && b != 2
  {
    match b
    case 1 => Some(Aes256Gcm)
    case 2 => Some(ChaCha20Poly1305)
    case _ => None
  }

  /** Algorithm to wire byte; reading the byte back gives the same algorithm. */
  function ToByte(a: Algorithm): (b: byte)
    ensures FromByte(b) == Some(a)
  {
    match a
    case Aes256Gcm => 1
    case ChaCha20Poly1305 => 2
  }

  function NonceSize(a: Algorithm): nat
  {
    match a
    case Aes256Gcm => 12
    case ChaCha20Poly1305 => 24
  }

  function TagSize(a: Algorithm): nat
  {
    16
  }

  /** A byte that decodes to an algorithm is that algorithm's wire byte. */
  lemma FromByteInverse(b: byte, a: Algorithm)
    ensures FromByte(b) == Some(a) <==> ToByte(a) == b
  {
  }

  lemma ToByteInjective(a1: Algorithm, a2: Algorithm)
    ensures ToByte(a1) == ToByte(a2) ==> a1 == a2
  {
  }

  /** The sizes the registry declares: 12- and 24-byte nonces, 16-byte tags for both. */
  lemma RegistrySizes(a: Algorithm)
    ensures NonceSize(Aes256Gcm) == 12 && NonceSize(ChaCha20Poly1305) == 24
    ensures TagSize(a) == 16
  {
  }

  /** The engine's configuration: the cipher to encrypt with and the KDF work factor. */
  datatype CryptoEngine = CryptoEngine(algorithm: Algorithm, iterations: u32)
}
