/** The cryptographic primitives the codec is built on, taken as parameters rather than defined:
    an AEAD cipher (sealing and opening with a key and a nonce) and a password-based key
    derivation function. */
module Primitives {
  import opened Bytes
  import opened Errors
  import opened Types

  /** Tag bytes the cipher appends to every sealed chunk. */
  const TAG_LEN: nat := TagSize(ChaCha20Poly1305)

  /** An AEAD cipher with empty associated data: `seal(key, nonce, plaintext)` returns the
      ciphertext with its tag appended, `open(key, nonce, ciphertext)` the plaintext or `None`
      when authentication fails. */
  datatype Aead = Aead(seal: (Bytes, Bytes, Bytes) -> Bytes, open: (Bytes, Bytes, Bytes) -> Option<Bytes>)
  {
    /** The two laws the codec relies on: opening what was sealed under the same key and nonce
        gives the plaintext back, and sealing adds exactly one tag. */
    ghost predicate Sound()
    {
      forall key, nonce, plain ::
        open(key, nonce, seal(key, nonce, plain)) == Some(plain) &&
        |seal(key, nonce, plain)| == |plain| + TAG_LEN
    }
  }

  /** Bytes of key the cipher accepts; key setup rejects a key of any other length. */
  const KEY_LEN: nat := 32

  /** Key derivation: (password, salt, work factor) to a key, or a `KdfError`. Being a function,
      it is deterministic. Nothing fixes the key's length here: the codecs check it. */
  type Kdf = (Bytes, Bytes, u32) -> Result<Bytes>
}
