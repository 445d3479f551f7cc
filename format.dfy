/** The container format's constants. */
module Format {
  import opened Bytes

  /** Format version byte, the first byte of every container. */
  const VERSION: byte := 1
  /** Bytes of random salt fed to the key derivation. */
  const SALT_SIZE: nat := 32
  /** Largest plaintext chunk one read may deliver (1 MiB). */
  const CHUNK_SIZE: nat := 1024 * 1024

  lemma Constants()
    ensures VERSION == 1 && SALT_SIZE == 32 && CHUNK_SIZE == 1048576
  {
  }
}
