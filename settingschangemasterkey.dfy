/**
 * The master-key widget of the database settings dialog. Its YubiKey component
 * exists only in builds with YubiKey support, given here by `withYubiKey`:
 * without it load, initialize and save touch only the password and key-file
 * components.
 */
module SettingsChangeMasterKey {
  import opened Keys
  import opened KeyComponent
  import opened PasswordEdit
  import opened YubiKeyEdit
  import opened DatabaseModel
  import opened MasterKeyAssembly

  class DatabaseSettingsWidgetChangeMasterKey {
    var db: Database?
    const passwordEditWidget: PasswordEditWidget
    const keyFileEditWidget: KeyFileEditWidget
    const yubiKeyEditWidget: YubiKeyEditWidget
    var editFinished: seq<bool>   // the arguments of every editFinished signal, in order
    const withYubiKey: bool       // built with YubiKey support

    /** The three component widgets are distinct objects. */
    ghost predicate Valid()
      reads this
    {
      && passwordEditWidget.component != keyFileEditWidget.component
      && passwordEditWidget.component != yubiKeyEditWidget.component
      && keyFileEditWidget.component != yubiKeyEditWidget.component
    }

    /** `keyFileValidation` and `keyFileAddition` stand for the key-file editor. */
    constructor (yubiKeySupport: bool, keyFileValidation: Validation, keyFileAddition: Wrappers.Option<Key>)
      ensures Valid() && db == null && editFinished == [] && withYubiKey == yubiKeySupport
      ensures passwordEditWidget.component.State() == Initial
      ensures keyFileEditWidget.component.State() == Initial
      ensures yubiKeyEditWidget.component.State() == Initial
    {
      db := null;
      passwordEditWidget := new PasswordEditWidget();
      keyFileEditWidget := new KeyFileEditWidget(keyFileValidation, keyFileAddition);
      yubiKeyEditWidget := new YubiKeyEditWidget();
      editFinished := [];
      withYubiKey := yubiKeySupport;
    }

    method Load(d: Database)
      requires Valid()
      modifies this, passwordEditWidget.component, keyFileEditWidget.component, yubiKeyEditWidget.component
      ensures Valid() && db == d && editFinished == old(editFinished)
      ensures passwordEditWidget.component.State()
              == LoadedState(old(passwordEditWidget.component.State()), Last(d.key.keys, KeyUuid, PasswordKeyUuid).Some?)
      ensures keyFileEditWidget.component.State()
              == LoadedState(old(keyFileEditWidget.component.State()), Last(d.key.keys, KeyUuid, FileKeyUuid).Some?)
      ensures yubiKeyEditWidget.component.State()
              == if withYubiKey
                 then LoadedState(old(yubiKeyEditWidget.component.State()),
                                  Last(d.key.challengeResponseKeys, ChallengeResponseKeyUuid, YkChallengeResponseKeyUuid).Some?)
                 else old(yubiKeyEditWidget.component.State())
    {
      db := d;
      LoadComponents(d.key, passwordEditWidget.component, keyFileEditWidget.component,
                     yubiKeyEditWidget.component, withYubiKey);
    }

    method Initialize()
      requires Valid()
      modifies passwordEditWidget.component, keyFileEditWidget.component, yubiKeyEditWidget.component
      ensures passwordEditWidget.component.State() == Next(old(passwordEditWidget.component.State()), SetAdded(false))
      ensures keyFileEditWidget.component.State() == Next(old(keyFileEditWidget.component.State()), SetAdded(false))
      ensures yubiKeyEditWidget.component.State()
              == if withYubiKey then Next(old(yubiKeyEditWidget.component.State()), SetAdded(false))
                 else old(yubiKeyEditWidget.component.State())
    {
      InitializeComponents(passwordEditWidget.component, keyFileEditWidget.component,
                           yubiKeyEditWidget.component, withYubiKey);
    }

    /** `confirmNoPassword` is the answer to the "No password set" warning (true for Yes). */
    method Save(confirmNoPassword: bool) returns (ok: bool)
      requires db != null
      requires SaveInputsCarryOldKeys(db.key, passwordEditWidget, keyFileEditWidget, yubiKeyEditWidget, withYubiKey)
      modifies this, db
      ensures db == old(db)
      ensures ok <==> old(SaveOutcome(db.key, passwordEditWidget, keyFileEditWidget, yubiKeyEditWidget,
                                      withYubiKey, confirmNoPassword)).Success?
      ensures ok ==> fresh(db.key) && editFinished == old(editFinished) + [true]
      ensures ok ==> AssembledKey(db.key.keys, db.key.challengeResponseKeys)
                     == old(SaveOutcome(db.key, passwordEditWidget, keyFileEditWidget, yubiKeyEditWidget,
                                        withYubiKey, confirmNoPassword)).value
      ensures !ok ==> db.key == old(db.key) && editFinished == old(editFinished)
      ensures db.cipher == old(db.cipher) && db.kdf == old(db.kdf)
      ensures unchanged(old(db.key))
    {
      ok := SaveMasterKey(db, passwordEditWidget, keyFileEditWidget, yubiKeyEditWidget, withYubiKey, confirmNoPassword);
      if ok {
        editFinished := editFinished + [true];
      }
    }

    method Discard()
      modifies this
      ensures editFinished == old(editFinished) + [false] && db == old(db)
    {
      editFinished := editFinished + [false];
    }
  }
}
