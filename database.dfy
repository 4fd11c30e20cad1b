/**
 * The parts of a database the settings pages read and write: its composite
 * master key, its cipher and its key-derivation function object. The KDF
 * object is shared: the pages change its parameters in place through the
 * pointer the database hands out.
 */
module DatabaseModel {
  import opened Keys

  /** The KDF UUIDs: Argon2 (KDBX 4) and AES-KDF in its KDBX 3.1 and KDBX 4 forms. */
  datatype KdfUuid = Argon2 | AesKdbx3 | AesKdbx4

  /** Cipher UUIDs; only AES is named by the pages. */
  datatype CipherUuid = CipherAes | OtherCipher(id: nat)

  /** A key-derivation function object. Memory is in KiB; memory and
      parallelism mean something only for Argon2. */
  class Kdf {
    const uuid: KdfUuid
    var rounds: int
    var memory: nat
    var parallelism: nat

    /** KeePass2::uuidToKdf: a new object with the class's default parameters. */
    constructor (id: KdfUuid, defaultRounds: int, defaultMemory: nat, defaultParallelism: nat)
      ensures uuid == id && rounds == defaultRounds
      ensures memory == defaultMemory && parallelism == defaultParallelism
    {
      uuid := id;
      rounds := defaultRounds;
      memory := defaultMemory;
      parallelism := defaultParallelism;
    }
  }

  /** The default parameters uuidToKdf gives a new KDF object. */
  datatype KdfDefaults = KdfDefaults(rounds: int, memory: nat, parallelism: nat)

  class Database {
    var key: CompositeKey
    var cipher: CipherUuid
    var kdf: Kdf

    constructor (k: CompositeKey, c: CipherUuid, f: Kdf)
      ensures key == k && cipher == c && kdf == f
    {
      key := k;
      cipher := c;
      kdf := f;
    }

    method SetKey(k: CompositeKey)
      modifies this
      ensures key == k && cipher == old(cipher) && kdf == old(kdf)
    {
      key := k;
    }

    method SetCipher(c: CipherUuid)
      modifies this
      ensures cipher == c && key == old(key) && kdf == old(kdf)
    {
      cipher := c;
    }

    method SetKdf(f: Kdf)
      modifies this
      ensures kdf == f && key == old(key) && cipher == old(cipher)
    {
      kdf := f;
    }

    /**
     * changeKdf: re-transforms the master key with the new KDF. Whether the
     * transform succeeds is the parameter `succeeds`; only on success does the
     * database switch to the new KDF object.
     */
    method ChangeKdf(f: Kdf, succeeds: bool) returns (ok: bool)
      modifies this
      ensures ok == succeeds
      ensures kdf == (if ok then f else old(kdf))
      ensures key == old(key) && cipher == old(cipher)
    {
      ok := succeeds;
      if ok {
        kdf := f;
      }
    }
  }
}
