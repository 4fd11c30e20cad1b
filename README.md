# KeePassXC master-key editors and KDF settings, modelled in Dafny

This project models the part of KeePassXC's GUI that decides what a database's
master key and key-derivation settings become:

- **Key components** (`KeyComponentWidget`). A password, key-file or YubiKey
  component is a three-page stacked widget: `AddNew`, `Edit` and
  `LeaveOrRemove`. It remembers the previous page so a cancel can go back, and
  it keeps an "added" flag that moves the widget to `LeaveOrRemove` or `AddNew`.
  The model is the class `KeyComponent.KeyComponentWidget`. Each of its methods
  is specified as one step of the pure state machine `KeyComponent.Next`, and
  lemmas about whole runs of that machine sit beside it.
- **Component editors.** The password editor validates its two fields: empty
  first, then mismatch. The YubiKey editor packs slot and blocking mode into an
  integer combo payload (`(slot << 1) | blocking`) and unpacks it when a key is
  added. A detection or not-found event sets its validity.
- **Assembling a new master key.** Two nearly identical pages do this:
  `ChangeMasterKeyWidget` and `DatabaseSettingsWidgetChangeMasterKey`.
  - Both find the database's current key of each kind, the last of its kind in
    the list.
  - They process the password, key file and YubiKey in that order. A component
    on `Edit` must validate and add; one on `LeaveOrRemove` carries its old key
    object forward; one on `AddNew` adds nothing.
  - An empty result is rejected. A key without a password needs an explicit
    "Yes". The database key is replaced only when the save succeeds.
  - The pure function `MasterKeyAssembly.Assemble` specifies the save, and
    lemmas state its properties. `MasterKeyAssembly.SaveMasterKey` and the two
    pages' `Save` methods are proved against it.
- **KDF policy** (`DatabaseSettingsPageEncryption`,
  `NewDatabaseWizardPageEncryption`).
  - Compatibility index 0 is KDBX 4 / Argon2 and index 1 is KDBX 3.1 / AES-KDF.
    On the settings page a compatibility change also resets the cipher to AES;
    the wizard leaves the cipher alone. On both, Argon2 gets 128 MiB and one
    lane per thread.
  - In advanced mode the rounds safety check is made before saving: Argon2 above
    10000 rounds, AES-KDF below 100000.
  - Memory is shown in MiB and stored in KiB.
  - The memory and parallelism fields are enabled only for Argon2.
  - The decryption-time label switches between milliseconds and seconds at
    1000 ms.
  - The wizard page has an advanced-settings toggle.

Everything the GUI obtains from outside is a parameter of the method that uses
it:
- the user's answer to a message box;
- the benchmark, as a function from KDF kind, memory (KiB), parallelism and
  target time (ms) to rounds;
- whether `Database::changeKdf` succeeds;
- `QThread::idealThreadCount()`, as a 32-bit signed integer;
- the default parameters of a new KDF object;
- the YubiKey detection outcome.

`Database`, `CompositeKey`, `Kdf` and the key classes are not part of this
model. `DatabaseModel` and `Keys` hold small stand-ins with exactly the
operations the GUI calls: `setKey`, `setCipher`, `setKdf`, `changeKdf`, `addKey`
and `addChallengeResponseKey`. A key is a value that carries its kind and, for
a YubiKey, its slot and blocking mode.

Some behaviour of the code as written is kept in the model:

- In simple mode the settings page's `save` reads `m_db->kdf()` before it calls
  `updateFormatCompatibility`. That call installs a new KDF object, yet the
  benchmarked rounds are written into the old object, which `changeKdf` then
  re-installs. `EncryptionPage.DatabaseSettingsPageEncryption.Save` states this
  in its contract: on success the database holds the old object with the new
  rounds; on failure it keeps the fresh object from the format reset.
- In advanced mode the safety check looks at the KDF object the database holds,
  not at the KDF combo.
- Both pages' `initializePage` call `updateFormatCompatibility(0)` but do not
  move the compatibility combo, so the model leaves the combo's index as it
  was. Only a change of the combo's index (`SelectCompatibility`) runs
  `updateFormatCompatibility` through `currentIndexChanged`.
- The parallelism is `static_cast<quint32>(QThread::idealThreadCount())`. When
  Qt cannot determine the thread count it returns -1, which becomes 4294967295
  lanes (`KdfPolicy.AsUnsigned32`, `KdfPolicy.UnknownThreadCountWraps`).
- `loadKdfParameters` shows the memory as `static_cast<int>(memory) / 1024`.
  The cast keeps the low 32 bits, so a memory of 4 TiB or more is shown wrapped
  (`KdfPolicy.MemorySpinBoxValue`). From 2 TiB (2^31 KiB) the cast value is a
  negative `int`, but the division by the unsigned `1u << 10` reads those low
  32 bits as unsigned, so no negative value reaches the spin box;
  `MemorySpinBoxValue` is that value.
- The wizard ignores the result of `changeKdf`. It then sets the Argon2
  parameters on the new object whether or not that object was installed.
- `ChangeMasterKeyWidget` has no `WITH_XC_YUBIKEY` guard, so it always
  processes the YubiKey component. `DatabaseSettingsWidgetChangeMasterKey`
  processes it only when built with YubiKey support, which the model shows as
  its `withYubiKey` constant. That constant is about this one page: the
  editors' own `WITH_XC_YUBIKEY` guards are not part of this model.

The two encryption pages bundle their widget values into a view datatype,
`EncryptionPage.PageView` and `WizardEncryption.WizardView`. Each method's
contract gives the whole new view, so it also says which widgets stay as they
were.

Some functions and predicates have no row of their own. They are contract
helpers for the rows that use them: `KdfPolicy.HasCompatibilityParameters`,
`KeyComponent.LastAddedFlag`, `MasterKeyAssembly.SaveInputs`,
`MasterKeyAssembly.InputsCarryOldKeys`, `MasterKeyAssembly.YubiKeyContribution`,
and the constructors of `DatabaseModel.Database` and
`MasterKeyAssembly.KeyFileEditWidget`.

## Model

| member | source | states |
|---|---|---|
| KeyComponent.PageIndex | src/gui/masterkey/KeyComponentWidget.h:37-42 | the three pages are numbered 0, 1, 2 in declaration order, and every index is below 3 |
| KeyComponent.PageAt | src/gui/masterkey/KeyComponentWidget.h:37-42 | casting an index below 3 back to a page gives the page with that number |
| KeyComponent.PageIndexRoundTrip | src/gui/masterkey/KeyComponentWidget.h:37-42 | casting a page's index back to a page gives the same page |
| KeyComponent.ShowPageTransition | src/gui/masterkey/KeyComponentWidget.cpp:92-96 | changing the page shows the new page, records the page shown before, and keeps the added flag |
| KeyComponent.AddStatusPage | src/gui/masterkey/KeyComponentWidget.cpp:113-120 | the page for an added flag is LeaveOrRemove exactly when the flag is set, and never Edit |
| KeyComponent.Next | src/gui/masterkey/KeyComponentWidget.cpp:77-141 | setComponentAdded sets the flag, keeps the remembered page and, for a new value, shows the page for that flag; every other request keeps the flag; cancel shows the remembered page |
| KeyComponent.AddThenCancel | src/gui/masterkey/KeyComponentWidget.cpp:137-141 | add then cancel returns to the page shown before the add; only the remembered page differs |
| KeyComponent.ShowThenCancel | src/gui/masterkey/KeyComponentWidget.cpp:137-141 | cancel after any page change shows exactly the page shown before that change |
| KeyComponent.FreshAddThenCancel | src/gui/masterkey/KeyComponentWidget.cpp:137-141 | on a new component, add then cancel is back on AddNew |
| KeyComponent.EditFromSetThenCancel | src/gui/masterkey/KeyComponentWidget.cpp:137-141 | a component on LeaveOrRemove that is edited and then cancelled is on LeaveOrRemove again |
| KeyComponent.SetAddedSameIsNoOp | src/gui/masterkey/KeyComponentWidget.cpp:79-81 | setting the added flag to its current value changes nothing |
| KeyComponent.SetAddedIdempotent | src/gui/masterkey/KeyComponentWidget.cpp:77-85 | setting the flag twice to the same value is the same as setting it once |
| KeyComponent.Run | src/gui/masterkey/KeyComponentWidget.cpp:77-85 | after any sequence of requests, the added flag is the last one set through setComponentAdded, or the initial one if none was set |
| KeyComponent.RunWithoutSetAddedKeepsFlag | src/gui/masterkey/KeyComponentWidget.cpp:132-135 | page changes, add, edit, remove and cancel never change the added flag |
| KeyComponent.SetAddedThenFlagOnlyKeepsPage | src/gui/masterkey/KeyComponentWidget.cpp:113-120 | a run of setComponentAdded calls keeps the page in step with the flag and never changes the remembered page |
| KeyComponent.KeyComponentWidget.constructor | src/gui/masterkey/KeyComponentWidget.h:104-105 | a new component is on AddNew, remembers AddNew, and is not added |
| KeyComponent.KeyComponentWidget.ChangeVisiblePage | src/gui/masterkey/KeyComponentWidget.cpp:92-96 | the new state is the page-change transition of the old one |
| KeyComponent.KeyComponentWidget.VisiblePage | src/gui/masterkey/KeyComponentWidget.cpp:98-101 | returns the current page and changes nothing |
| KeyComponent.KeyComponentWidget.ComponentAdded | src/gui/masterkey/KeyComponentWidget.cpp:87-90 | returns the added flag and changes nothing |
| KeyComponent.KeyComponentWidget.UpdateAddStatus | src/gui/masterkey/KeyComponentWidget.cpp:113-120 | shows the page for the flag without recording the previous page |
| KeyComponent.KeyComponentWidget.SetComponentAdded | src/gui/masterkey/KeyComponentWidget.cpp:77-85 | leaves the state alone when the flag is unchanged; otherwise sets the flag and runs updateAddStatus |
| KeyComponent.KeyComponentWidget.DoAdd | src/gui/masterkey/KeyComponentWidget.cpp:122-125 | goes to Edit through changeVisiblePage |
| KeyComponent.KeyComponentWidget.DoEdit | src/gui/masterkey/KeyComponentWidget.cpp:127-130 | goes to Edit through changeVisiblePage |
| KeyComponent.KeyComponentWidget.DoRemove | src/gui/masterkey/KeyComponentWidget.cpp:132-135 | goes to AddNew through changeVisiblePage and leaves the added flag alone |
| KeyComponent.KeyComponentWidget.CancelEdit | src/gui/masterkey/KeyComponentWidget.cpp:137-141 | shows the remembered page |
| Keys.LastSomeIff | src/gui/dbsettings/ChangeMasterKeyWidget.cpp:88-100 | the search finds an old key of a kind exactly when the current key holds a key of that kind |
| Keys.LastIsLastMatch | src/gui/dbsettings/DatabaseSettingsWidgetChangeMasterKey.cpp:94-106 | the old key found is one of the key's entries of that kind, and no later entry has that kind, because each match overwrites the previous one |
| Keys.LastSnoc | src/gui/dbsettings/ChangeMasterKeyWidget.cpp:88-100 | one more loop iteration: a matching key replaces the result and any other key keeps it |
| Keys.Last | src/gui/dbsettings/ChangeMasterKeyWidget.cpp:88-100 | the key found has the UUID searched for and is one of the key list's entries |
| Keys.CompositeKey.constructor | src/gui/dbsettings/ChangeMasterKeyWidget.cpp:82 | a new composite key has no keys and no challenge-response keys |
| Keys.CompositeKey.AddKey | src/gui/dbsettings/ChangeMasterKeyWidget.cpp:159 | appends the key to the regular keys and leaves the challenge-response keys alone |
| Keys.CompositeKey.AddChallengeResponseKey | src/gui/dbsettings/ChangeMasterKeyWidget.cpp:175 | appends to the challenge-response keys and leaves the regular keys alone |
| PasswordEdit.ValidatePassword | src/gui/masterkey/PasswordEditWidget.cpp:53-66 | valid exactly when the password is non-empty and equals the repeat; an empty password reports "Password cannot be empty."; a non-empty mismatch reports "Passwords do not match." |
| PasswordEdit.EmptyReportedBeforeMismatch | src/gui/masterkey/PasswordEditWidget.cpp:55-63 | an empty password reports emptiness whatever the repeat field holds |
| PasswordEdit.PasswordEditWidget.Validate | src/gui/masterkey/PasswordEditWidget.cpp:53-66 | the result is ValidatePassword of the two fields, and the widget is unchanged |
| PasswordEdit.PasswordEditWidget.Addition | src/gui/masterkey/PasswordEditWidget.cpp:37 | the key added is a password key |
| PasswordEdit.PasswordEditWidget.AddToCompositeKey | src/gui/masterkey/PasswordEditWidget.cpp:35-39 | appends exactly one password key holding the entered text and returns true |
| YubiKeyEdit.EncodePayload | src/gui/masterkey/YubiKeyEditWidget.cpp:121 | the payload's low bit is set exactly when the key is blocking |
| YubiKeyEdit.DecodeSlot | src/gui/masterkey/YubiKeyEditWidget.cpp:59 | the slot is the payload without its low bit |
| YubiKeyEdit.DecodeBlocking | src/gui/masterkey/YubiKeyEditWidget.cpp:58 | the key is blocking exactly when the payload is twice its slot plus one, its low bit set |
| YubiKeyEdit.SelectedPayload | src/gui/masterkey/YubiKeyEditWidget.cpp:46-47 | with a current item the payload is that item's data; a non-zero payload always comes from an item |
| YubiKeyEdit.BitOperationsAsArithmetic | src/gui/masterkey/YubiKeyEditWidget.cpp:58-59 | on 32-bit values, shifting the slot left by one and or-ing in the blocking bit is `2*slot + b`; masking with 1 gives the bit back and shifting right gives the slot back, so the model's arithmetic is the code's bit operations |
| YubiKeyEdit.DecodeEncode | src/gui/masterkey/YubiKeyEditWidget.cpp:58-59 | decoding an encoded payload gives back the slot and the blocking mode |
| YubiKeyEdit.EncodeDecode | src/gui/masterkey/YubiKeyEditWidget.cpp:58-59 | encoding a decoded payload gives back the payload |
| YubiKeyEdit.NonZeroSlotNonZeroPayload | src/gui/masterkey/YubiKeyEditWidget.cpp:49 | a slot of 1 or more never encodes to the error payload 0 |
| YubiKeyEdit.YubiKeyValidation | src/gui/masterkey/YubiKeyEditWidget.cpp:66-72 | valid exactly when the widget is valid; otherwise the message is "No YubiKey detected, please ensure its plugged in." |
| YubiKeyEdit.AdditionFor | src/gui/masterkey/YubiKeyEditWidget.cpp:39-64 | a key is added exactly when the widget is valid, has its edit widget and the selected payload is not 0; the key has the decoded slot and blocking mode |
| YubiKeyEdit.DetectedThenAddition | src/gui/masterkey/YubiKeyEditWidget.cpp:112-127 | after a detection in slot 1 or more, saving adds exactly the detected key |
| YubiKeyEdit.NotFoundThenNoAddition | src/gui/masterkey/YubiKeyEditWidget.cpp:129-142 | after a not-found event nothing can be added |
| YubiKeyEdit.YubiKeyEditWidget.constructor | src/gui/masterkey/YubiKeyEditWidget.cpp:28-33 | a new editor has no edit widget, is not valid and has an empty combo |
| YubiKeyEdit.YubiKeyEditWidget.Addition | src/gui/masterkey/YubiKeyEditWidget.cpp:39-64 | a key is added exactly when the widget is valid, has its edit widget and a non-zero payload is selected; the key added is a YubiKey challenge-response key |
| YubiKeyEdit.YubiKeyEditWidget.Validate | src/gui/masterkey/YubiKeyEditWidget.cpp:66-72 | the result is YubiKeyValidation of the validity flag, and the widget is unchanged |
| YubiKeyEdit.YubiKeyEditWidget.AddToCompositeKey | src/gui/masterkey/YubiKeyEditWidget.cpp:39-64 | returns true exactly when there is a key to add; only then is that one challenge-response key appended, and the regular keys are untouched |
| YubiKeyEdit.YubiKeyEditWidget.CreateEditWidget | src/gui/masterkey/YubiKeyEditWidget.cpp:74-94 | the edit widget exists with an empty combo, and the validity flag is unchanged |
| YubiKeyEdit.YubiKeyEditWidget.PollYubikey | src/gui/masterkey/YubiKeyEditWidget.cpp:96-110 | with an edit widget the combo is cleared; without one nothing happens |
| YubiKeyEdit.YubiKeyEditWidget.YubikeyDetected | src/gui/masterkey/YubiKeyEditWidget.cpp:112-127 | with an edit widget the combo holds exactly the encoded payload, selected, and the widget is valid; without one nothing changes |
| YubiKeyEdit.YubiKeyEditWidget.NoYubikeyFound | src/gui/masterkey/YubiKeyEditWidget.cpp:129-142 | with an edit widget the combo holds one entry with payload 0 and the widget is invalid; without one nothing changes |
| DatabaseModel.Database.SetKey | src/gui/dbsettings/ChangeMasterKeyWidget.cpp:132 | replaces the key and keeps cipher and KDF |
| DatabaseModel.Database.SetCipher | src/gui/dbsettings/DatabaseSettingsPageEncryption.cpp:289 | replaces the cipher and keeps key and KDF |
| DatabaseModel.Database.SetKdf | src/gui/dbsettings/DatabaseSettingsPageEncryption.cpp:293 | installs the KDF object and keeps key and cipher |
| DatabaseModel.Database.ChangeKdf | src/gui/dbsettings/DatabaseSettingsPageEncryption.cpp:181 | installs the KDF object exactly when the key transform succeeds, reports that, and keeps key and cipher |
| DatabaseModel.Kdf.constructor | src/gui/dbsettings/DatabaseSettingsPageEncryption.cpp:292 | a new KDF object of the given kind carries the kind's default parameters |
| MasterKeyAssembly.ComponentContribution | src/gui/dbsettings/ChangeMasterKeyWidget.cpp:148-162 | AddNew adds nothing; LeaveOrRemove adds the old key; Edit adds the new key only when it validates and is added, and otherwise fails with the validation message or "Unknown error" |
| MasterKeyAssembly.Assemble | src/gui/dbsettings/ChangeMasterKeyWidget.cpp:102-135 | a successful save never yields an empty key and, with no password, means the user said Yes; the no-password refusal happens only without a password and without that Yes |
| MasterKeyAssembly.AssembleStopsAtFirstFailure | src/gui/dbsettings/ChangeMasterKeyWidget.cpp:102-112 | a failing password component decides the error before the key file is consulted; a failing key file decides it before the YubiKey; a failing YubiKey decides it before the empty-key check and the no-password prompt |
| MasterKeyAssembly.AssembleSucceedsIff | src/gui/dbsettings/ChangeMasterKeyWidget.cpp:102-135 | a save succeeds exactly when every component contributes, something was contributed, and a missing password was confirmed |
| MasterKeyAssembly.AssembleContents | src/gui/dbsettings/ChangeMasterKeyWidget.cpp:102-112 | the new key's regular keys are the password's then the key file's contribution, and its challenge-response keys are the YubiKey's |
| MasterKeyAssembly.NothingAddedRejected | src/gui/dbsettings/ChangeMasterKeyWidget.cpp:114-119 | with every component on AddNew the save fails with "No encryption key added" |
| MasterKeyAssembly.AssembleCarriesOldKeysForward | src/gui/dbsettings/ChangeMasterKeyWidget.cpp:157-161 | a component on LeaveOrRemove puts the very same old key object into the new key |
| MasterKeyAssembly.WithoutYubiKeyNoChallengeResponse | src/gui/dbsettings/DatabaseSettingsWidgetChangeMasterKey.cpp:116-120 | without YubiKey support the new key never has a challenge-response key |
| MasterKeyAssembly.SaveOutcome | src/gui/dbsettings/DatabaseSettingsWidgetChangeMasterKey.cpp:114-126 | without YubiKey support a successful save has no challenge-response key, and a successful save is never empty |
| MasterKeyAssembly.FindOldKeys | src/gui/dbsettings/ChangeMasterKeyWidget.cpp:88-100 | the loops return the last password key, the last key-file key and the last YubiKey challenge-response key of the current key |
| MasterKeyAssembly.KeyFileEditWidget.Validate | src/gui/masterkey/KeyComponentWidget.h:59-66 | reports the key-file editor's validation outcome |
| MasterKeyAssembly.KeyFileEditWidget.AddToCompositeKey | src/gui/masterkey/KeyComponentWidget.h:49-57 | returns whether a key was added; only then is the key appended |
| MasterKeyAssembly.AddPasswordComponent | src/gui/dbsettings/ChangeMasterKeyWidget.cpp:148-162 | returns true exactly when the password component contributes, and the new key grows by exactly that contribution |
| MasterKeyAssembly.AddKeyFileComponent | src/gui/dbsettings/ChangeMasterKeyWidget.cpp:148-162 | as for the password, for the key-file component |
| MasterKeyAssembly.AddYubiKeyComponent | src/gui/dbsettings/ChangeMasterKeyWidget.cpp:164-178 | returns true exactly when the YubiKey component contributes; its contribution goes to the challenge-response keys |
| MasterKeyAssembly.InitializeThenLoad | src/gui/dbsettings/ChangeMasterKeyWidget.cpp:48-74 | after the clear and then the load, a component is added exactly when a key of its kind is present, and shows LeaveOrRemove when it is |
| MasterKeyAssembly.LoadComponents | src/gui/dbsettings/DatabaseSettingsWidgetChangeMasterKey.cpp:50-69 | each component is marked added when the current key holds a key of its kind, and is left alone otherwise; the YubiKey component only with YubiKey support |
| MasterKeyAssembly.InitializeComponents | src/gui/dbsettings/DatabaseSettingsWidgetChangeMasterKey.cpp:71-80 | every component's flag is cleared through setComponentAdded(false) |
| MasterKeyAssembly.LoadedState | src/gui/dbsettings/DatabaseSettingsWidgetChangeMasterKey.cpp:50-69 | after load a component is added exactly when it was already or a key of its kind is present; a newly added one shows LeaveOrRemove and keeps its remembered page; otherwise nothing changes |
| MasterKeyAssembly.SaveMasterKey | src/gui/dbsettings/DatabaseSettingsWidgetChangeMasterKey.cpp:86-144 | succeeds exactly when Assemble succeeds. Then the database gets a new key with the assembled contents. On failure the key stays; the old key object, the cipher and the KDF are never changed |
| ChangeMasterKey.ChangeMasterKeyWidget.constructor | src/gui/dbsettings/ChangeMasterKeyWidget.cpp:30-42 | three distinct new components, no database, no editFinished signal yet |
| ChangeMasterKey.ChangeMasterKeyWidget.Load | src/gui/dbsettings/ChangeMasterKeyWidget.cpp:48-65 | all three components, the YubiKey one included, are marked added when the current key holds a key of their kind, and are otherwise left alone |
| ChangeMasterKey.ChangeMasterKeyWidget.InitializePage | src/gui/dbsettings/ChangeMasterKeyWidget.cpp:67-74 | all three components are set to not added |
| ChangeMasterKey.ChangeMasterKeyWidget.Save | src/gui/dbsettings/ChangeMasterKeyWidget.cpp:80-136 | the master-key save over all three components: the outcome of Assemble, and editFinished(true) only on success |
| ChangeMasterKey.ChangeMasterKeyWidget.Discard | src/gui/dbsettings/ChangeMasterKeyWidget.cpp:138-141 | emits editFinished(false) and leaves the database alone |
| ChangeMasterKey.ChangeMasterKeyWidget.HasAdvancedMode | src/gui/dbsettings/ChangeMasterKeyWidget.cpp:143-146 | the page has no advanced mode |
| SettingsChangeMasterKey.DatabaseSettingsWidgetChangeMasterKey.constructor | src/gui/dbsettings/DatabaseSettingsWidgetChangeMasterKey.cpp:30-44 | three distinct new components, no database, no editFinished signal yet, and YubiKey support as built |
| SettingsChangeMasterKey.DatabaseSettingsWidgetChangeMasterKey.Load | src/gui/dbsettings/DatabaseSettingsWidgetChangeMasterKey.cpp:50-69 | as ChangeMasterKeyWidget.Load, with the YubiKey component consulted only with YubiKey support |
| SettingsChangeMasterKey.DatabaseSettingsWidgetChangeMasterKey.Initialize | src/gui/dbsettings/DatabaseSettingsWidgetChangeMasterKey.cpp:71-80 | clears the password and key-file flags, and the YubiKey flag only with YubiKey support |
| SettingsChangeMasterKey.DatabaseSettingsWidgetChangeMasterKey.Save | src/gui/dbsettings/DatabaseSettingsWidgetChangeMasterKey.cpp:86-144 | the outcome of Assemble, consulting the YubiKey only with YubiKey support; setKey and editFinished(true) only on success |
| SettingsChangeMasterKey.DatabaseSettingsWidgetChangeMasterKey.Discard | src/gui/dbsettings/DatabaseSettingsWidgetChangeMasterKey.cpp:146-149 | emits editFinished(false) and leaves the key unchanged |
| KdfPolicy.SafetyWarning | src/gui/dbsettings/DatabaseSettingsPageEncryption.cpp:138-165 | warns "too high" exactly for Argon2 above 10000 rounds and "too low" exactly for AES-KDF (KDBX 3 or 4) below 100000; never both |
| KdfPolicy.SafetyBoundariesDoNotWarn | src/gui/dbsettings/DatabaseSettingsPageEncryption.cpp:139-152 | exactly 10000 Argon2 rounds and exactly 100000 AES rounds do not warn; one round past either does |
| KdfPolicy.MemorySpinBoxValue | src/gui/dbsettings/DatabaseSettingsPageEncryption.cpp:111 | the MiB shown is the stored KiB, cut to its low 32 bits by the int cast, divided by 1024 and rounded down; below 4 TiB that is the stored KiB divided by 1024 |
| KdfPolicy.MemoryFromSpinBox | src/gui/dbsettings/DatabaseSettingsPageEncryption.cpp:174 | the KiB stored is the MiB times 1024, a whole number of MiB |
| KdfPolicy.MemorySaveThenLoad | src/gui/dbsettings/DatabaseSettingsPageEncryption.cpp:111 | saving a MiB value below 4194304 and loading it back shows the same value; 4194304 MiB comes back as 0 |
| KdfPolicy.MemoryLoadThenSave | src/gui/dbsettings/DatabaseSettingsPageEncryption.cpp:174 | loading and then saving never grows the memory, and keeps it exactly when it is a whole number of MiB below 4 TiB |
| KdfPolicy.AsUnsigned32 | src/gui/dbsettings/DatabaseSettingsPageEncryption.cpp:298 | the static_cast to quint32: a value below 2^32 congruent to the thread count modulo 2^32 |
| KdfPolicy.UnknownThreadCountWraps | src/gui/dbsettings/DatabaseSettingsPageEncryption.cpp:298 | an unknown thread count, -1, becomes 4294967295 lanes |
| KdfPolicy.CompatibilityKdf | src/gui/dbsettings/DatabaseSettingsPageEncryption.cpp:42-43 | index 0 is Argon2 and index 1 is AES-KDF for KDBX 3.1 |
| KdfPolicy.SimpleCompatibilityIndex | src/gui/dbsettings/DatabaseSettingsPageEncryption.cpp:265-269 | index 1 exactly for AES-KDF KDBX 3, otherwise 0 |
| KdfPolicy.SimpleIndexInvertsCompatibility | src/gui/dbsettings/DatabaseSettingsPageEncryption.cpp:265-269 | switching to simple mode picks back the index whose KDF was installed |
| KdfPolicy.CompatibilityInvertsSimpleIndex | src/gui/dbsettings/DatabaseSettingsPageEncryption.cpp:265-269 | the index picked for a KDF installs that KDF again, except that AES-KDF for KDBX 4 maps to Argon2 |
| KdfPolicy.DecryptionTimeText | src/gui/wizard/NewDatabaseWizardPageEncryption.cpp:92-99 | the label shows milliseconds exactly below 1000 ms and seconds otherwise, for the slider's value |
| EncryptionPage.WithKdfParameters | src/gui/dbsettings/DatabaseSettingsPageEncryption.cpp:101-113 | the KDF combo and rounds show the KDF; for Argon2 the memory spin box shows its memory in MiB and the parallelism spin box its lanes; for other KDFs those keep their values; nothing else changes |
| EncryptionPage.DatabaseSettingsPageEncryption.constructor | src/gui/dbsettings/DatabaseSettingsPageEncryption.cpp:30-47 | the widgets are as the form sets them, except that the compatibility combo is on its first item |
| EncryptionPage.DatabaseSettingsPageEncryption.UpdateDecryptionTime | src/gui/dbsettings/DatabaseSettingsPageEncryption.cpp:274-281 | the label becomes DecryptionTimeText of the value; nothing else changes |
| EncryptionPage.DatabaseSettingsPageEncryption.UpdateFormatCompatibility | src/gui/dbsettings/DatabaseSettingsPageEncryption.cpp:283-300 | with a database: cipher AES, a new KDF object for the index with the default rounds, and for Argon2 128 MiB and the thread count as quint32; the key is untouched |
| EncryptionPage.DatabaseSettingsPageEncryption.SelectCompatibility | src/gui/dbsettings/DatabaseSettingsPageEncryption.cpp:46 | only the combo index changes on the page; a new index resets the format (AES, the item's KDF, key kept), the current index changes nothing |
| EncryptionPage.DatabaseSettingsPageEncryption.LoadKdfParameters | src/gui/dbsettings/DatabaseSettingsPageEncryption.cpp:93-114 | with a database the page shows WithKdfParameters of the database's KDF; without one nothing changes |
| EncryptionPage.DatabaseSettingsPageEncryption.InitializePage | src/gui/dbsettings/DatabaseSettingsPageEncryption.cpp:53-62 | the database keeps its key and gets AES and a new Argon2 object; the page shows AES, Argon2, the default rounds, 128 MiB, the thread count and 1.0 s, and the compatibility combo, mode and every other widget stay as they were |
| EncryptionPage.DatabaseSettingsPageEncryption.TransformRoundsBenchmark | src/gui/dbsettings/DatabaseSettingsPageEncryption.cpp:194-219 | the rounds spin box shows the one-second benchmark of the selected KDF kind, with the spin boxes' memory and parallelism for Argon2 and the defaults otherwise; nothing else changes |
| EncryptionPage.DatabaseSettingsPageEncryption.KdfChanged | src/gui/dbsettings/DatabaseSettingsPageEncryption.cpp:221-239 | memory and parallelism are enabled exactly for Argon2 and the KDF combo shows the kind; the database gets a new KDF object of that kind with the default parameters, keeping key and cipher; the rounds field shows the one-second benchmark; nothing else changes |
| EncryptionPage.DatabaseSettingsPageEncryption.SetAdvancedMode | src/gui/dbsettings/DatabaseSettingsPageEncryption.cpp:257-272 | advanced: page 1 with the KDF parameters loaded and the database unchanged. Simple: page 0, and the compatibility index of the database's KDF is selected; only a changed index resets the format. The key is always kept |
| EncryptionPage.DatabaseSettingsPageEncryption.Save | src/gui/dbsettings/DatabaseSettingsPageEncryption.cpp:116-192 | simple mode: format reset, then the old KDF object gets the rounds benchmarked for its parameters and the slider's time, and changeKdf. Advanced mode: a declined warning changes nothing; otherwise cipher, rounds and (for Argon2 only) memory and parallelism are written before changeKdf. The result is changeKdf's; the key is kept |
| WizardEncryption.ToggledIndex | src/gui/wizard/NewDatabaseWizardPageEncryption.cpp:80-90 | page 0 becomes 1 and any other page becomes 0 |
| WizardEncryption.ButtonText | src/gui/wizard/NewDatabaseWizardPageEncryption.cpp:80-90 | "Simple Settings" on page 1, "Advanced Settings" otherwise |
| WizardEncryption.ToggleTwiceRestores | src/gui/wizard/NewDatabaseWizardPageEncryption.cpp:80-90 | two toggles restore the page |
| WizardEncryption.NewDatabaseWizardPageEncryption.constructor | src/gui/wizard/NewDatabaseWizardPageEncryption.cpp:29-45 | the page starts on the simple settings, compatibility index 0, the button offering the advanced settings, and the label for the slider's value |
| WizardEncryption.NewDatabaseWizardPageEncryption.UpdateDecryptionTime | src/gui/wizard/NewDatabaseWizardPageEncryption.cpp:92-99 | the label becomes DecryptionTimeText of the value; nothing else changes |
| WizardEncryption.NewDatabaseWizardPageEncryption.UpdateFormatCompatibility | src/gui/wizard/NewDatabaseWizardPageEncryption.cpp:101-114 | without a database nothing changes. Otherwise key and cipher are kept; when changeKdf succeeds the database holds a new KDF for the index with the compatibility parameters; when it fails, the old KDF is installed and untouched |
| WizardEncryption.NewDatabaseWizardPageEncryption.SelectCompatibility | src/gui/wizard/NewDatabaseWizardPageEncryption.cpp:44 | only the combo index changes on the page; a different item runs the format update (key and cipher kept, the old KDF kept when changeKdf fails); the current one changes nothing |
| WizardEncryption.NewDatabaseWizardPageEncryption.InitializePage | src/gui/wizard/NewDatabaseWizardPageEncryption.cpp:51-57 | the KDBX 4 format with the compatibility parameters is requested, key and cipher kept, and the slider shows 1000 ms as "1.0 s"; the combo index and the rest of the page stay |
| WizardEncryption.NewDatabaseWizardPageEncryption.InitializePageFor | src/gui/wizard/NewDatabaseWizardPageEncryption.cpp:59-63 | takes the database and then initializes the page as InitializePage does, for that database |
| WizardEncryption.NewDatabaseWizardPageEncryption.ValidatePage | src/gui/wizard/NewDatabaseWizardPageEncryption.cpp:65-78 | always true; with a database only the KDF's rounds change, to the benchmark of that KDF for the slider's time |
| WizardEncryption.NewDatabaseWizardPageEncryption.ToggleAdvancedSettings | src/gui/wizard/NewDatabaseWizardPageEncryption.cpp:80-90 | the page index toggles and the button names the other page; nothing else changes |

## Left out

- Qt plumbing: layout, `connect` wiring, `blockSignals`, cursor overrides, size
  policies, `updateSize`, `reset` and translation. A signal-to-slot connection
  that carries behaviour is a direct call instead. `componentAddChanged` runs
  `updateAddStatus`, and a compatibility combo change runs
  `updateFormatCompatibility` only when the index differs.
- Message boxes are parameters holding the user's answer. Their titles and texts
  are left out.
- `Database`, `CompositeKey`, `Kdf`, the key classes and the key-file editor are
  not part of this model. Small stand-ins with the operations the GUI calls take
  their place:
  - `KeePass2::uuidToKdf`'s default parameters are the parameter `KdfDefaults`;
  - `Database::changeKdf`'s key transform is a boolean parameter;
  - the key-file editor is a class whose validation and addition are given when
    it is built.
- KDF benchmarking is a function parameter; its timing is not modelled. In
  `transformRoundsBenchmark` the spin boxes are reset when Argon2 rejects a
  memory or parallelism value; that reset is left out because the limits live
  in `Argon2Kdf`.
- `Kdf::setRounds`, `Argon2Kdf::setMemory` and `Argon2Kdf::setParallelism` can
  refuse an out-of-range value. Their limits are in `Kdf` and `Argon2Kdf`,
  which are not part of this model, so every set value is taken as stored.
- Spin-box and slider range clamping is left out: a value set on a widget is
  the value shown. Part of what that clamping would see is the conversion in
  `parallelismSpinBox->setValue(argon2Kdf->parallelism())`, which turns the
  quint32 lane count into an `int`. The 4294967295 lanes of an unknown thread
  count reach the C++ spin box as -1, while the model's `parallelismSpin`
  holds 4294967295.
- WizardEncryption.NewDatabaseWizardPageEncryption.constructor: the initial
  button text "Advanced Settings", the simple-settings page and the slider's
  label are taken from the page's form file, which is not part of this model.
- YubiKey detection runs asynchronously in `QtConcurrent::run` and depends on
  hardware. Only its outcomes are modelled, as the events `YubikeyDetected` and
  `NoYubikeyFound`. The `WITH_XC_YUBIKEY` switch in `DatabaseSettingsWidgetChangeMasterKey` is its
  `withYubiKey` constant; the same switch inside the editors is not modelled.
  The key's display name is not modelled.
- YubiKeyEdit.YubiKeyEditWidget.YubikeyDetected: the slot is taken below 2^30
  so that the shifted payload stays a non-negative 32-bit integer. Larger slots
  would overflow `int` in the source and are not modelled.
- YubiKeyEdit.YubiKeyEditWidget.AddToCompositeKey:
  `Q_ASSERT(m_compEditWidget)` is a debug check. The model keeps only the
  release behaviour: without an edit widget nothing is added.
- `m_isValid` starts false. Its initializer is in `YubiKeyEditWidget.h`, which
  is not part of this model.
- The decryption-time label's number formatting is left out: seconds with one
  decimal, computed in floating point. The model keeps the unit choice and the
  value in milliseconds.
- The `memoryChanged` and `parallelismChanged` slots only change spin-box
  suffixes and are left out.
- `setupAlgorithmComboBox` and `setupKdfComboBox` fill combo boxes. The model
  keeps only their effect on the selection.
- The advanced settings widget embedded in the wizard page is not part of this
  model, so its `initializePage` calls are left out.
- The `Q_ASSERT(oldKey)` in `addToCompositeKey` is a precondition
  (`CarriesOldKey`). A component on LeaveOrRemove always has an old key to
  carry.
- Several operations take `QThread::idealThreadCount()` as a parameter named
  `threadCount`, a 32-bit signed integer.
