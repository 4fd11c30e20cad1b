/**
 * The encryption page of the new-database wizard: a compatibility choice, a
 * decryption-time slider, and a button that flips between the simple page
 * and the advanced settings.
 */
module WizardEncryption {
  import opened DatabaseModel
  import opened KdfPolicy

  const SimpleSettingsText := "Simple Settings"
  const AdvancedSettingsText := "Advanced Settings"

  /** The stacked-widget page after the advanced-settings button is clicked. */
  function ToggledIndex(index: int): (toggled: int)
    ensures toggled == 0 || toggled == 1
    ensures toggled == 1 <==> index == 0
  {
    if index == 0 then 1 else 0
  }

  /** The button offers the page that is not shown. */
  function ButtonText(index: int): (text: string)
    ensures index == 1 ==> text == SimpleSettingsText
    ensures index != 1 ==> text == AdvancedSettingsText
  {
    if index == 1 then SimpleSettingsText else AdvancedSettingsText
  }

  /** Two clicks bring back the page shown before. */
  lemma ToggleTwiceRestores(index: int)
    requires index == 0 || index == 1
    ensures ToggledIndex(ToggledIndex(index)) == index
  {
  }

  /** Everything the page shows, widget by widget. */
  datatype WizardView = WizardView(
    compatibilityIndex: int,
    stackedIndex: int,                       // 0: simple settings, 1: advanced settings
    advancedButtonText: string,
    decryptionTime: int,                     // the slider, in milliseconds
    decryptionTimeLabel: DecryptionTimeLabel)

  class NewDatabaseWizardPageEncryption {
    var db: Database?
    var compatibilityIndex: int
    var stackedIndex: int
    var advancedButtonText: string
    var decryptionTime: int
    var decryptionTimeLabel: DecryptionTimeLabel

    function View(): WizardView
      reads this
    {
      WizardView(compatibilityIndex, stackedIndex, advancedButtonText, decryptionTime, decryptionTimeLabel)
    }

    ghost predicate Valid()
      reads this
    {
      && 0 <= compatibilityIndex < 2
      && (stackedIndex == 0 || stackedIndex == 1)
    }

    /** The slider's value before initializePage is given as `time`. */
    constructor (d: Database?, time: int)
      ensures Valid() && db == d
      ensures View() == WizardView(0, 0, AdvancedSettingsText, time, DecryptionTimeText(time))
    {
      db := d;
      compatibilityIndex := 0;
      stackedIndex := 0;
      advancedButtonText := AdvancedSettingsText;
      decryptionTime := time;
      decryptionTimeLabel := DecryptionTimeText(time);
    }

    method UpdateDecryptionTime(value: int)
      modifies this
      ensures db == old(db)
      ensures View() == old(View()).(decryptionTimeLabel := DecryptionTimeText(value))
    {
      decryptionTimeLabel := DecryptionTimeText(value);
    }

    /**
     * Asks the database to change to a new KDF for the compatibility item
     * (`changeKdfSucceeds` is that call's outcome, which the page ignores)
     * and then gives an Argon2 object 128 MiB and `threadCount` lanes.
     * The cipher is not touched.
     */
    method UpdateFormatCompatibility(index: int, threadCount: Int32, defaults: KdfDefaults, changeKdfSucceeds: bool)
      requires 0 <= index < 2
      modifies db
      ensures db != null ==> db.key == old(db.key) && db.cipher == old(db.cipher)
      ensures db != null && changeKdfSucceeds ==>
                fresh(db.kdf) && db.kdf.uuid == CompatibilityKdf(index)
                && HasCompatibilityParameters(db.kdf, threadCount, defaults)
      ensures db != null && !changeKdfSucceeds ==> db.kdf == old(db.kdf) && unchanged(db.kdf)
    {
      if db != null {
        var kdf := new Kdf(CompatibilityKdf(index), defaults.rounds, defaults.memory, defaults.parallelism);
        var _ := db.ChangeKdf(kdf, changeKdfSucceeds);
        if kdf.uuid == Argon2 {
          kdf.memory := SimpleArgon2Memory;
          kdf.parallelism := AsUnsigned32(threadCount);
        }
      }
    }

    /** The compatibility combo's currentIndexChanged runs the update only for a new index. */
    method SelectCompatibility(index: int, threadCount: Int32, defaults: KdfDefaults, changeKdfSucceeds: bool)
      requires Valid() && 0 <= index < 2
      modifies this, db
      ensures Valid() && db == old(db)
      ensures View() == old(View()).(compatibilityIndex := index)
      ensures db != null ==> db.key == old(db.key) && db.cipher == old(db.cipher)
      ensures index == old(compatibilityIndex) && db != null ==> unchanged(db)
      ensures index != old(compatibilityIndex) && db != null && changeKdfSucceeds ==>
                fresh(db.kdf) && db.kdf.uuid == CompatibilityKdf(index)
                && HasCompatibilityParameters(db.kdf, threadCount, defaults)
      ensures index != old(compatibilityIndex) && db != null && !changeKdfSucceeds ==>
                db.kdf == old(db.kdf) && unchanged(db.kdf)
    {
      if index != compatibilityIndex {
        compatibilityIndex := index;
        UpdateFormatCompatibility(index, threadCount, defaults, changeKdfSucceeds);
      }
    }

    /** initializePage: the KDBX 4.0 KDF (the combo itself is not moved) and a
        one-second decryption time. */
    method InitializePage(threadCount: Int32, defaults: KdfDefaults, changeKdfSucceeds: bool)
      modifies this, db
      ensures db == old(db)
      ensures View() == old(View()).(decryptionTime := DefaultDecryptionTime,
                                     decryptionTimeLabel := Seconds(DefaultDecryptionTime))
      ensures db != null ==> db.key == old(db.key) && db.cipher == old(db.cipher)
      ensures db != null && changeKdfSucceeds ==>
                fresh(db.kdf) && db.kdf.uuid == Argon2 && HasCompatibilityParameters(db.kdf, threadCount, defaults)
      ensures db != null && !changeKdfSucceeds ==> db.kdf == old(db.kdf) && unchanged(db.kdf)
    {
      UpdateFormatCompatibility(0, threadCount, defaults, changeKdfSucceeds);
      decryptionTime := DefaultDecryptionTime;
      UpdateDecryptionTime(decryptionTime);
    }

    /** initializePage(Database*): the same, for the database `d`. */
    method InitializePageFor(d: Database?, threadCount: Int32, defaults: KdfDefaults, changeKdfSucceeds: bool)
      modifies this, d
      ensures db == d
      ensures View() == old(View()).(decryptionTime := DefaultDecryptionTime,
                                     decryptionTimeLabel := Seconds(DefaultDecryptionTime))
      ensures d != null ==> d.key == old(d.key) && d.cipher == old(d.cipher)
      ensures d != null && changeKdfSucceeds ==>
                fresh(d.kdf) && d.kdf.uuid == Argon2 && HasCompatibilityParameters(d.kdf, threadCount, defaults)
      ensures d != null && !changeKdfSucceeds ==> d.kdf == old(d.kdf) && unchanged(d.kdf)
    {
      db := d;
      InitializePage(threadCount, defaults, changeKdfSucceeds);
    }

    /**
     * validatePage always lets the wizard go on; with a database its KDF gets
     * the rounds `benchmark` measures for that KDF and the slider's time.
     */
    method ValidatePage(benchmark: Benchmark) returns (ok: bool)
      modifies if db != null then {db.kdf} else {}
      ensures ok
      ensures db != null ==> && db.kdf == old(db.kdf)
                             && db.kdf.rounds
                                == benchmark(db.kdf.uuid, old(db.kdf.memory), old(db.kdf.parallelism), decryptionTime)
                             && db.kdf.memory == old(db.kdf.memory)
                             && db.kdf.parallelism == old(db.kdf.parallelism)
    {
      if db != null {
        var kdf := db.kdf;
        var time := decryptionTime;
        kdf.rounds := benchmark(kdf.uuid, kdf.memory, kdf.parallelism, time);
      }
      ok := true;
    }

    /** The advanced-settings button. */
    method ToggleAdvancedSettings()
      requires Valid()
      modifies this
      ensures Valid() && db == old(db)
      ensures View() == old(View()).(stackedIndex := ToggledIndex(old(stackedIndex)),
                                     advancedButtonText := ButtonText(ToggledIndex(old(stackedIndex))))
    {
      if stackedIndex == 0 {
        stackedIndex := 1;
        advancedButtonText := SimpleSettingsText;
      } else {
        stackedIndex := 0;
        advancedButtonText := AdvancedSettingsText;
      }
    }
  }
}
