/**
 * The pure rules behind the encryption settings: round-count safety warnings,
 * the MiB spin box versus the KiB memory parameter, the "format
 * compatibility" choice between KDBX 4.0 (Argon2) and KDBX 3.1 (AES-KDF),
 * and the unit of the decryption-time label.
 */
module KdfPolicy {
  import opened Wrappers
  import opened DatabaseModel

  /** Argon2 above this many rounds may take hours or days to open. */
  const Argon2MaxSafeRounds := 10000
  /** AES-KDF below this many rounds may be too easy to crack. */
  const AesMinSafeRounds := 100000
  /** Argon2 memory set by a compatibility choice: 128 MiB, in KiB. */
  const SimpleArgon2Memory: nat := 128 * 1024
  /** The decryption-time slider's initial value, in milliseconds. */
  const DefaultDecryptionTime := 1000

  datatype RoundsWarning = RoundsTooHigh | RoundsTooLow

  /** The safety check before saving advanced settings: at most one warning. */
  function SafetyWarning(kdf: KdfUuid, rounds: int): (w: Option<RoundsWarning>)
    ensures w == Some(RoundsTooHigh) <==> kdf == Argon2 && rounds > Argon2MaxSafeRounds
    ensures w == Some(RoundsTooLow) <==> (kdf == AesKdbx3 || kdf == AesKdbx4) && rounds < AesMinSafeRounds
  {
    if kdf == Argon2 && rounds > Argon2MaxSafeRounds then Some(RoundsTooHigh)
    else if (kdf == AesKdbx3 || kdf == AesKdbx4) && rounds < AesMinSafeRounds then Some(RoundsTooLow)
    else None
  }

  /** The boundary values themselves do not warn. */
  lemma SafetyBoundariesDoNotWarn()
    ensures SafetyWarning(Argon2, 10000) == None
    ensures SafetyWarning(AesKdbx3, 100000) == None
    ensures SafetyWarning(AesKdbx4, 100000) == None
    ensures SafetyWarning(Argon2, 10001) == Some(RoundsTooHigh)
    ensures SafetyWarning(AesKdbx4, 99999) == Some(RoundsTooLow)
  {
  }

  const TwoTo32 := 0x1_0000_0000

  /** A C++ `int`. */
  type Int32 = x: int | -0x8000_0000 <= x < 0x8000_0000

  /** `static_cast<quint32>` of an `int`: the 32-bit unsigned value with the same bits. */
  function AsUnsigned32(x: Int32): (u: nat)
    ensures u < TwoTo32 && (u - x) % TwoTo32 == 0
  {
    if x < 0 then x + TwoTo32 else x
  }

  /** QThread::idealThreadCount() returns -1 when the count is unknown; the
      parallelism set from it is then 4294967295. */
  lemma UnknownThreadCountWraps()
    ensures AsUnsigned32(-1) == 0xFFFF_FFFF
  {
  }

  /**
   * The value loadKdfParameters shows in the MiB spin box for a KiB memory
   * value: the memory is cast to a 32-bit `int` and then divided by the
   * unsigned 1024, which divides the low 32 bits.
   */
  function MemorySpinBoxValue(memoryKiB: nat): (mib: nat)
    ensures mib * 1024 <= memoryKiB % TwoTo32 < (mib + 1) * 1024
    ensures memoryKiB < TwoTo32 ==> mib * 1024 <= memoryKiB < (mib + 1) * 1024
  {
    (memoryKiB % TwoTo32) / 1024
  }

  /** The KiB value save writes for the MiB spin box. */
  function MemoryFromSpinBox(mib: nat): (kib: nat)
    ensures kib % 1024 == 0
  {
    mib * 1024
  }

  /** Saving a spin-box value and loading it again shows the same value, for
      every value below 4 TiB; at 4 TiB the load side wraps to 0. */
  lemma MemorySaveThenLoad(mib: nat)
    ensures mib < 0x40_0000 ==> MemorySpinBoxValue(MemoryFromSpinBox(mib)) == mib
    ensures MemorySpinBoxValue(MemoryFromSpinBox(0x40_0000)) == 0
  {
    if mib < 0x40_0000 {
      assert MemoryFromSpinBox(mib) < TwoTo32;
      assert MemoryFromSpinBox(mib) % TwoTo32 == mib * 1024;
    }
    assert MemoryFromSpinBox(0x40_0000) % TwoTo32 == 0;
  }

  /** Loading and saving again keeps a KiB value exactly when it is whole MiB
      below 4 TiB, and never grows it. */
  lemma MemoryLoadThenSave(kib: nat)
    ensures MemoryFromSpinBox(MemorySpinBoxValue(kib)) <= kib
    ensures MemoryFromSpinBox(MemorySpinBoxValue(kib)) == kib <==> kib % 1024 == 0 && kib < TwoTo32
  {
  }

  /** The KDF of each compatibility item: 0 is KDBX 4.0, 1 is KDBX 3.1. */
  function CompatibilityKdf(index: int): (k: KdfUuid)
    requires 0 <= index < 2
    ensures k != AesKdbx4
    ensures k == Argon2 <==> index == 0
  {
    if index == 0 then Argon2 else AesKdbx3
  }

  /** The compatibility item simple mode selects for the database's KDF. */
  function SimpleCompatibilityIndex(kdf: KdfUuid): (i: int)
    ensures 0 <= i < 2
    ensures i == 1 <==> kdf == AesKdbx3
  {
    if kdf == AesKdbx3 then 1 else 0
  }

  /** Simple mode recovers the compatibility item that installed the KDF. */
  lemma SimpleIndexInvertsCompatibility(index: int)
    requires 0 <= index < 2
    ensures SimpleCompatibilityIndex(CompatibilityKdf(index)) == index
  {
  }

  /** ... and maps every KDF a compatibility item can install back to it;
      AES-KDF in its KDBX 4 form falls to the KDBX 4.0 item, which means Argon2. */
  lemma CompatibilityInvertsSimpleIndex(kdf: KdfUuid)
    ensures kdf != AesKdbx4 ==> CompatibilityKdf(SimpleCompatibilityIndex(kdf)) == kdf
    ensures kdf == AesKdbx4 ==> CompatibilityKdf(SimpleCompatibilityIndex(kdf)) == Argon2
  {
  }

  /** The decryption-time label: its unit and the slider value it shows. */
  datatype DecryptionTimeLabel = Milliseconds(ms: int) | Seconds(ms: int)

  function DecryptionTimeText(value: int): (l: DecryptionTimeLabel)
    ensures l.ms == value
    ensures l.Milliseconds? <==> value < 1000
  {
    if value < 1000 then Milliseconds(value) else Seconds(value)
  }

  /** The parameters a compatibility choice gives the new KDF object: the class
      defaults, except 128 MiB and one lane per thread for Argon2. */
  predicate HasCompatibilityParameters(k: Kdf, threadCount: Int32, defaults: KdfDefaults)
    reads k
  {
    && k.rounds == defaults.rounds
    && (k.uuid == Argon2 ==> k.memory == SimpleArgon2Memory && k.parallelism == AsUnsigned32(threadCount))
    && (k.uuid != Argon2 ==> k.memory == defaults.memory && k.parallelism == defaults.parallelism)
  }

  /**
   * Kdf::benchmark: the rounds a KDF of the given kind, memory (KiB) and
   * parallelism needs to take the given number of milliseconds. It is measured
   * on the machine, so the model takes it as a parameter.
   */
  type Benchmark = (KdfUuid, nat, nat, int) -> int
}
