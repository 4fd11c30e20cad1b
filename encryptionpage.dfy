/**
 * The encryption page of the database settings. In simple mode the user picks
 * a format compatibility and a decryption time; in advanced mode cipher, KDF,
 * rounds, memory and parallelism are edited directly and checked against the
 * safety thresholds before they are written into the database's KDF object.
 */
module EncryptionPage {
  import opened Wrappers
  import opened DatabaseModel
  import opened KdfPolicy

  /** Everything the page shows, widget by widget. */
  datatype PageView = PageView(
    advancedMode: bool,
    stackedIndex: int,                       // 0: simple settings, 1: advanced settings
    compatibilityIndex: int,                 // the compatibility combo's current index
    decryptionTime: int,                     // the slider, in milliseconds
    decryptionTimeLabel: DecryptionTimeLabel,
    selectedCipher: CipherUuid,              // the algorithm combo's current data
    selectedKdf: KdfUuid,                    // the KDF combo's current data
    roundsSpin: int,
    memorySpin: nat,                         // MiB
    parallelismSpin: nat,
    memoryEnabled: bool,
    parallelismEnabled: bool)

  /** What loadKdfParameters shows for the KDF object `k`: its kind and rounds,
      and for Argon2 its memory in MiB and its parallelism. */
  function WithKdfParameters(v: PageView, k: Kdf): (w: PageView)
    reads k
    ensures w.selectedKdf == k.uuid && w.roundsSpin == k.rounds
    ensures k.uuid == Argon2 ==> w.memorySpin * 1024 <= k.memory % TwoTo32 < (w.memorySpin + 1) * 1024
    ensures k.uuid == Argon2 ==> w.parallelismSpin == k.parallelism
    ensures k.uuid != Argon2 ==> w.memorySpin == v.memorySpin && w.parallelismSpin == v.parallelismSpin
    ensures w.(selectedKdf := v.selectedKdf, roundsSpin := v.roundsSpin,
               memorySpin := v.memorySpin, parallelismSpin := v.parallelismSpin) == v
  {
    if k.uuid == Argon2 then
      v.(selectedKdf := k.uuid, roundsSpin := k.rounds,
         memorySpin := MemorySpinBoxValue(k.memory), parallelismSpin := k.parallelism)
    else
      v.(selectedKdf := k.uuid, roundsSpin := k.rounds)
  }

  class DatabaseSettingsPageEncryption {
    var db: Database?
    var advancedMode: bool
    var stackedIndex: int
    var compatibilityIndex: int
    var decryptionTime: int
    var decryptionTimeLabel: DecryptionTimeLabel
    var selectedCipher: CipherUuid
    var selectedKdf: KdfUuid
    var roundsSpin: int
    var memorySpin: nat
    var parallelismSpin: nat
    var memoryEnabled: bool
    var parallelismEnabled: bool

    function View(): PageView
      reads this
    {
      PageView(advancedMode, stackedIndex, compatibilityIndex, decryptionTime, decryptionTimeLabel,
               selectedCipher, selectedKdf, roundsSpin, memorySpin, parallelismSpin,
               memoryEnabled, parallelismEnabled)
    }

    /** The compatibility combo holds its two items, so one of them is current. */
    ghost predicate Valid()
      reads this
    {
      0 <= compatibilityIndex < 2
    }

    /** The widgets start as the form file sets them (`widgets`), except the
        compatibility combo, whose first added item becomes current. */
    constructor (d: Database?, widgets: PageView)
      ensures Valid() && db == d
      ensures View() == widgets.(compatibilityIndex := 0)
    {
      db := d;
      advancedMode := widgets.advancedMode;
      stackedIndex := widgets.stackedIndex;
      compatibilityIndex := 0;
      decryptionTime := widgets.decryptionTime;
      decryptionTimeLabel := widgets.decryptionTimeLabel;
      selectedCipher := widgets.selectedCipher;
      selectedKdf := widgets.selectedKdf;
      roundsSpin := widgets.roundsSpin;
      memorySpin := widgets.memorySpin;
      parallelismSpin := widgets.parallelismSpin;
      memoryEnabled := widgets.memoryEnabled;
      parallelismEnabled := widgets.parallelismEnabled;
    }

    method UpdateDecryptionTime(value: int)
      modifies this
      ensures db == old(db)
      ensures View() == old(View()).(decryptionTimeLabel := DecryptionTimeText(value))
    {
      decryptionTimeLabel := DecryptionTimeText(value);
    }

    /**
     * Installs AES and a new KDF object for the compatibility item; Argon2
     * gets 128 MiB and `threadCount` lanes. Does nothing without a database.
     */
    method UpdateFormatCompatibility(index: int, threadCount: Int32, defaults: KdfDefaults)
      requires 0 <= index < 2
      modifies db
      ensures db != null ==> && db.cipher == CipherAes && db.key == old(db.key)
                             && fresh(db.kdf) && db.kdf.uuid == CompatibilityKdf(index)
                             && HasCompatibilityParameters(db.kdf, threadCount, defaults)
    {
      if db == null {
        return;
      }
      db.SetCipher(CipherAes);
      var kdf := new Kdf(CompatibilityKdf(index), defaults.rounds, defaults.memory, defaults.parallelism);
      db.SetKdf(kdf);
      if kdf.uuid == Argon2 {
        kdf.memory := SimpleArgon2Memory;
        kdf.parallelism := AsUnsigned32(threadCount);
      }
    }

    /** The user picks a compatibility item: currentIndexChanged runs the
        format update only when the index changes. */
    method SelectCompatibility(index: int, threadCount: Int32, defaults: KdfDefaults)
      requires Valid() && 0 <= index < 2
      modifies this, db
      ensures Valid() && db == old(db)
      ensures View() == old(View()).(compatibilityIndex := index)
      ensures index == old(compatibilityIndex) && db != null ==> unchanged(db)
      ensures index != old(compatibilityIndex) && db != null ==>
                && db.cipher == CipherAes && db.key == old(db.key)
                && fresh(db.kdf) && db.kdf.uuid == CompatibilityKdf(index)
                && HasCompatibilityParameters(db.kdf, threadCount, defaults)
    {
      if index != compatibilityIndex {
        compatibilityIndex := index;
        UpdateFormatCompatibility(index, threadCount, defaults);
      }
    }

    /** Shows the database's KDF parameters; memory is shown in MiB. */
    method LoadKdfParameters()
      modifies this
      ensures db == old(db)
      ensures db == null ==> View() == old(View())
      ensures db != null ==> View() == WithKdfParameters(old(View()), db.kdf)
    {
      if db == null {
        return;
      }
      var kdf := db.kdf;
      selectedKdf := kdf.uuid;
      roundsSpin := kdf.rounds;
      if kdf.uuid == Argon2 {
        memorySpin := MemorySpinBoxValue(kdf.memory);
        parallelismSpin := kdf.parallelism;
      }
    }

    /**
     * initializePage: KDBX 4.0 defaults (the compatibility combo itself is
     * not moved), a one-second decryption time, and the combo boxes and spin
     * boxes loaded from the database.
     */
    method InitializePage(threadCount: Int32, defaults: KdfDefaults)
      requires Valid() && db != null
      modifies this, db
      ensures Valid() && db == old(db) && db.key == old(db.key) && db.cipher == CipherAes
      ensures fresh(db.kdf) && db.kdf.uuid == Argon2 && HasCompatibilityParameters(db.kdf, threadCount, defaults)
      ensures View() == old(View()).(decryptionTime := DefaultDecryptionTime,
                                     decryptionTimeLabel := Seconds(DefaultDecryptionTime),
                                     selectedCipher := CipherAes, selectedKdf := Argon2,
                                     roundsSpin := defaults.rounds, memorySpin := 128,
                                     parallelismSpin := AsUnsigned32(threadCount))
    {
      UpdateFormatCompatibility(0, threadCount, defaults);
      decryptionTime := DefaultDecryptionTime;
      UpdateDecryptionTime(decryptionTime);
      selectedCipher := db.cipher;
      LoadKdfParameters();
    }

    /**
     * transformRoundsBenchmark: benchmarks, for one second, a new KDF object
     * of the selected kind with the spin boxes' rounds and, for Argon2, their
     * memory and parallelism, and shows the result.
     */
    method TransformRoundsBenchmark(defaults: KdfDefaults, benchmark: Benchmark)
      modifies this
      ensures db == old(db)
      ensures View() == old(View()).(roundsSpin := benchmark(
                selectedKdf,
                if selectedKdf == Argon2 then MemoryFromSpinBox(memorySpin) else defaults.memory,
                if selectedKdf == Argon2 then parallelismSpin else defaults.parallelism,
                1000))
    {
      var kdf := new Kdf(selectedKdf, defaults.rounds, defaults.memory, defaults.parallelism);
      kdf.rounds := roundsSpin;
      if kdf.uuid == Argon2 {
        kdf.memory := MemoryFromSpinBox(memorySpin);
        kdf.parallelism := parallelismSpin;
      }
      roundsSpin := benchmark(kdf.uuid, kdf.memory, kdf.parallelism, 1000);
    }

    /**
     * The KDF combo changed to `kdf`: the memory and parallelism fields are
     * enabled exactly for Argon2, the database gets a new KDF object of that
     * kind, and the rounds spin box gets the one-second benchmark.
     */
    method KdfChanged(kdf: KdfUuid, defaults: KdfDefaults, benchmark: Benchmark)
      modifies this, db
      ensures db == old(db)
      ensures memoryEnabled <==> kdf == Argon2
      ensures parallelismEnabled <==> kdf == Argon2
      ensures View() == old(View()).(selectedKdf := kdf,
                                     memoryEnabled := kdf == Argon2, parallelismEnabled := kdf == Argon2,
                                     roundsSpin := benchmark(
                                       kdf,
                                       if kdf == Argon2 then MemoryFromSpinBox(memorySpin) else defaults.memory,
                                       if kdf == Argon2 then parallelismSpin else defaults.parallelism,
                                       1000))
      ensures db != null ==> && fresh(db.kdf) && db.kdf.uuid == kdf && db.kdf.rounds == defaults.rounds
                             && db.kdf.memory == defaults.memory && db.kdf.parallelism == defaults.parallelism
                             && db.key == old(db.key) && db.cipher == old(db.cipher)
    {
      selectedKdf := kdf;
      memoryEnabled := kdf == Argon2;
      parallelismEnabled := kdf == Argon2;
      if db != null {
        var created := new Kdf(kdf, defaults.rounds, defaults.memory, defaults.parallelism);
        db.SetKdf(created);
      }
      TransformRoundsBenchmark(defaults, benchmark);
    }

    /**
     * Switching to advanced mode loads the KDF parameters; switching to simple
     * mode selects the compatibility item of the database's KDF, which, when it
     * is a different item, re-installs that item's KDF.
     */
    method SetAdvancedMode(advanced: bool, threadCount: Int32, defaults: KdfDefaults)
      requires Valid() && (!advanced ==> db != null)
      modifies this, db
      ensures Valid() && db == old(db)
      ensures db != null ==> db.key == old(db.key)
      ensures advanced && db == null ==> View() == old(View()).(advancedMode := true, stackedIndex := 1)
      ensures advanced && db != null ==>
                && unchanged(db)
                && View() == WithKdfParameters(old(View()), db.kdf).(advancedMode := true, stackedIndex := 1)
      ensures !advanced ==>
                View() == old(View()).(advancedMode := false, stackedIndex := 0,
                                       compatibilityIndex := SimpleCompatibilityIndex(old(db.kdf.uuid)))
      ensures !advanced && compatibilityIndex == old(compatibilityIndex) ==> unchanged(db)
      ensures !advanced && compatibilityIndex != old(compatibilityIndex) ==>
                && fresh(db.kdf) && db.kdf.uuid == CompatibilityKdf(compatibilityIndex) && db.cipher == CipherAes
                && HasCompatibilityParameters(db.kdf, threadCount, defaults)
    {
      advancedMode := advanced;
      if advanced {
        LoadKdfParameters();
        stackedIndex := 1;
      } else {
        var index := SimpleCompatibilityIndex(db.kdf.uuid);
        if index != compatibilityIndex {
          compatibilityIndex := index;
          UpdateFormatCompatibility(index, threadCount, defaults);
        }
        stackedIndex := 0;
      }
    }

    /**
     * save. `keepRounds` is the answer to a rounds warning ("Understood, keep
     * number"), `benchmark` measures rounds for the slider's time, and
     * `changeKdfSucceeds` is whether the key transform with the new KDF succeeds.
     */
    method Save(keepRounds: bool, benchmark: Benchmark, changeKdfSucceeds: bool,
                threadCount: Int32, defaults: KdfDefaults) returns (ok: bool)
      requires Valid() && db != null
      modifies db, db.kdf
      ensures db.key == old(db.key)
      // simple mode: the KDF object taken before the format reset is benchmarked and installed
      ensures !advancedMode ==>
                && ok == changeKdfSucceeds && db.cipher == CipherAes
                && old(db.kdf).rounds
                   == benchmark(old(db.kdf.uuid), old(db.kdf.memory), old(db.kdf.parallelism), decryptionTime)
                && old(db.kdf).memory == old(db.kdf.memory)
                && old(db.kdf).parallelism == old(db.kdf.parallelism)
                && (ok ==> db.kdf == old(db.kdf))
                && (!ok ==> fresh(db.kdf) && db.kdf.uuid == CompatibilityKdf(compatibilityIndex)
                            && HasCompatibilityParameters(db.kdf, threadCount, defaults))
      // advanced mode, a warning the user declines: nothing is written
      ensures advancedMode && SafetyWarning(old(db.kdf.uuid), roundsSpin).Some? && !keepRounds ==>
                !ok && unchanged(db) && unchanged(old(db.kdf))
      // advanced mode otherwise: cipher and parameters written, then the transform decides
      ensures advancedMode && (SafetyWarning(old(db.kdf.uuid), roundsSpin).None? || keepRounds) ==>
                && ok == changeKdfSucceeds && db.cipher == selectedCipher && db.kdf == old(db.kdf)
                && db.kdf.rounds == roundsSpin
                && (db.kdf.uuid == Argon2 ==> db.kdf.memory == MemoryFromSpinBox(memorySpin)
                                              && db.kdf.parallelism == parallelismSpin)
                && (db.kdf.uuid != Argon2 ==> db.kdf.memory == old(db.kdf.memory)
                                              && db.kdf.parallelism == old(db.kdf.parallelism))
    {
      var kdf := db.kdf;

      if !advancedMode {
        var time := decryptionTime;
        UpdateFormatCompatibility(compatibilityIndex, threadCount, defaults);
        kdf.rounds := benchmark(kdf.uuid, kdf.memory, kdf.parallelism, time);
        ok := db.ChangeKdf(kdf, changeKdfSucceeds);
        return;
      }

      // first the safety check on the rounds
      if SafetyWarning(kdf.uuid, roundsSpin).Some? && !keepRounds {
        return false;
      }

      db.SetCipher(selectedCipher);
      kdf.rounds := roundsSpin;
      if kdf.uuid == Argon2 {
        kdf.memory := MemoryFromSpinBox(memorySpin);
        kdf.parallelism := parallelismSpin;
      }
      ok := db.ChangeKdf(kdf, changeKdfSucceeds);
    }
  }
}
