/**
 * How the master-key editors turn the three key components into a new
 * composite key. Each component is processed according to its visible page:
 * Edit validates and adds fresh key material, LeaveOrRemove carries the
 * database's existing key object forward, AddNew contributes nothing. The
 * first failing component stops the save; an empty result is rejected; a key
 * without a password needs the user's explicit "Yes".
 */
module MasterKeyAssembly {
  import opened Wrappers
  import opened Keys
  import opened KeyComponent
  import opened PasswordEdit
  import opened YubiKeyEdit
  import opened DatabaseModel

  /** The message shown when validate succeeds but addToCompositeKey does not. */
  const UnknownError := "Unknown error"

  /** What the save reads from one component: its page, what validate reports,
      what addToCompositeKey would add (None: it returns false) and the old key
      of that kind found in the database's current key. */
  datatype ComponentInput<K> = ComponentInput(page: Page, validation: Validation,
                                              addition: Option<K>, oldKey: Option<K>)

  /** The code asserts that a component left as it was has an old key to carry. */
  predicate CarriesOldKey<K>(c: ComponentInput<K>)
  {
    c.page == LeaveOrRemove ==> c.oldKey.Some?
  }

  /** What one component adds to the new key, or the message that stops the save. */
  datatype Contribution<K> = Contribute(added: seq<K>) | Fail(message: string)

  function ComponentContribution<K>(c: ComponentInput<K>): (r: Contribution<K>)
    requires CarriesOldKey(c)
    ensures c.page == AddNew ==> r == Contribute([])
    ensures c.page == LeaveOrRemove ==> r == Contribute([c.oldKey.value])
    ensures c.page == Edit ==> (r.Contribute? <==> c.validation == Valid && c.addition.Some?)
    ensures c.page == Edit && r.Contribute? ==> r.added == [c.addition.value]
    ensures c.page == Edit && r.Fail? ==>
              r.message == if c.validation.Invalid? then c.validation.message else UnknownError
  {
    match c.page
    case Edit =>
      if c.validation.Invalid? then Fail(c.validation.message)
      else if c.addition.None? then Fail(UnknownError)
      else Contribute([c.addition.value])
    case LeaveOrRemove => Contribute([c.oldKey.value])
    case AddNew => Contribute([])
  }

  /** Why a save returned false. */
  datatype SaveError =
    | ComponentFailed(message: string)   // "Failed to change master key"
    | NoEncryptionKey                    // "No encryption key added"
    | NoPasswordDeclined                 // "No password set", answered other than Yes

  /** The content of the new composite key. */
  datatype AssembledKey = AssembledKey(keys: seq<Key>, challengeResponseKeys: seq<ChallengeResponseKey>)

  predicate InputsCarryOldKeys(pw: ComponentInput<Key>, kf: ComponentInput<Key>,
                               yk: Option<ComponentInput<ChallengeResponseKey>>)
  {
    CarriesOldKey(pw) && CarriesOldKey(kf) && (yk.Some? ==> CarriesOldKey(yk.value))
  }

  /** The challenge-response component's contribution; none when it is not built in. */
  function YubiKeyContribution(yk: Option<ComponentInput<ChallengeResponseKey>>): Contribution<ChallengeResponseKey>
    requires yk.Some? ==> CarriesOldKey(yk.value)
  {
    if yk.None? then Contribute([]) else ComponentContribution(yk.value)
  }

  /**
   * The save: password, then key file, then (when built in) the YubiKey, then
   * the empty-key check, then the no-password confirmation.
   */
  function Assemble(pw: ComponentInput<Key>, kf: ComponentInput<Key>,
                    yk: Option<ComponentInput<ChallengeResponseKey>>,
                    confirmNoPassword: bool): (r: Result<AssembledKey, SaveError>)
    requires InputsCarryOldKeys(pw, kf, yk)
    // an empty key is never produced, and a key without a password needs the user's Yes
    ensures r.Success? ==> r.value.keys != [] || r.value.challengeResponseKeys != []
    ensures r.Success? && pw.page == AddNew ==> confirmNoPassword
    ensures r == Failure(NoPasswordDeclined) ==> pw.page == AddNew && !confirmNoPassword
  {
    match ComponentContribution(pw)
    case Fail(m) => Failure(ComponentFailed(m))
    case Contribute(a) =>
      match ComponentContribution(kf)
      case Fail(m) => Failure(ComponentFailed(m))
      case Contribute(b) =>
        match YubiKeyContribution(yk)
        case Fail(m) => Failure(ComponentFailed(m))
        case Contribute(c) =>
          if a + b == [] && c == [] then Failure(NoEncryptionKey)
          else if pw.page == AddNew && !confirmNoPassword then Failure(NoPasswordDeclined)
          else Success(AssembledKey(a + b, c))
  }

  /** The first failing component decides the error; later ones are never consulted. */
  lemma AssembleStopsAtFirstFailure(pw: ComponentInput<Key>, kf: ComponentInput<Key>,
                                    yk: Option<ComponentInput<ChallengeResponseKey>>, yes: bool)
    requires InputsCarryOldKeys(pw, kf, yk)
    ensures ComponentContribution(pw).Fail? ==>
              Assemble(pw, kf, yk, yes) == Failure(ComponentFailed(ComponentContribution(pw).message))
    ensures ComponentContribution(pw).Contribute? && ComponentContribution(kf).Fail? ==>
              Assemble(pw, kf, yk, yes) == Failure(ComponentFailed(ComponentContribution(kf).message))
    ensures && ComponentContribution(pw).Contribute? && ComponentContribution(kf).Contribute?
            && YubiKeyContribution(yk).Fail? ==>
              Assemble(pw, kf, yk, yes) == Failure(ComponentFailed(YubiKeyContribution(yk).message))
  {
  }

  /** A save succeeds exactly when every component contributes, the result is
      not empty, and a missing password was confirmed. */
  lemma AssembleSucceedsIff(pw: ComponentInput<Key>, kf: ComponentInput<Key>,
                            yk: Option<ComponentInput<ChallengeResponseKey>>, yes: bool)
    requires InputsCarryOldKeys(pw, kf, yk)
    ensures Assemble(pw, kf, yk, yes).Success? <==>
              && ComponentContribution(pw).Contribute?
              && ComponentContribution(kf).Contribute?
              && YubiKeyContribution(yk).Contribute?
              && (ComponentContribution(pw).added + ComponentContribution(kf).added != []
                  || YubiKeyContribution(yk).added != [])
              && (pw.page == AddNew ==> yes)
  {
  }

  /** On success the key holds the components' contributions, in order. */
  lemma AssembleContents(pw: ComponentInput<Key>, kf: ComponentInput<Key>,
                         yk: Option<ComponentInput<ChallengeResponseKey>>, yes: bool)
    requires InputsCarryOldKeys(pw, kf, yk)
    requires Assemble(pw, kf, yk, yes).Success?
    ensures Assemble(pw, kf, yk, yes).value.keys
            == ComponentContribution(pw).added + ComponentContribution(kf).added
    ensures Assemble(pw, kf, yk, yes).value.challengeResponseKeys == YubiKeyContribution(yk).added
  {
  }

  /** With every component on AddNew the save is rejected as empty. */
  lemma NothingAddedRejected(pw: ComponentInput<Key>, kf: ComponentInput<Key>,
                             yk: Option<ComponentInput<ChallengeResponseKey>>, yes: bool)
    requires pw.page == AddNew && kf.page == AddNew && (yk.Some? ==> yk.value.page == AddNew)
    ensures Assemble(pw, kf, yk, yes) == Failure(NoEncryptionKey)
  {
  }

  /** Components left as they were are carried forward as the very same key objects. */
  lemma AssembleCarriesOldKeysForward(pw: ComponentInput<Key>, kf: ComponentInput<Key>,
                                      yk: Option<ComponentInput<ChallengeResponseKey>>, yes: bool)
    requires InputsCarryOldKeys(pw, kf, yk)
    requires Assemble(pw, kf, yk, yes).Success?
    ensures pw.page == LeaveOrRemove ==> Assemble(pw, kf, yk, yes).value.keys[0] == pw.oldKey.value
    ensures kf.page == LeaveOrRemove ==>
              Assemble(pw, kf, yk, yes).value.keys[|Assemble(pw, kf, yk, yes).value.keys| - 1] == kf.oldKey.value
    ensures yk.Some? && yk.value.page == LeaveOrRemove ==>
              Assemble(pw, kf, yk, yes).value.challengeResponseKeys == [yk.value.oldKey.value]
  {
  }

  /** Without the YubiKey component no challenge-response key is ever assembled. */
  lemma WithoutYubiKeyNoChallengeResponse(pw: ComponentInput<Key>, kf: ComponentInput<Key>, yes: bool)
    requires InputsCarryOldKeys(pw, kf, None)
    requires Assemble(pw, kf, None, yes).Success?
    ensures Assemble(pw, kf, None, yes).value.challengeResponseKeys == []
  {
  }

  /**
   * The loops at the start of save: the last password key, the last key-file
   * key and the last YubiKey challenge-response key of the current key.
   */
  method FindOldKeys(key: CompositeKey)
    returns (passwordKey: Option<Key>, fileKey: Option<Key>, ykCrKey: Option<ChallengeResponseKey>)
    ensures passwordKey == Last(key.keys, KeyUuid, PasswordKeyUuid)
    ensures fileKey == Last(key.keys, KeyUuid, FileKeyUuid)
    ensures ykCrKey == Last(key.challengeResponseKeys, ChallengeResponseKeyUuid, YkChallengeResponseKeyUuid)
  {
    var keys := key.keys;
    passwordKey, fileKey := None, None;
    var i := 0;
    while i < |keys|
      invariant 0 <= i <= |keys|
      invariant passwordKey == Last(keys[..i], KeyUuid, PasswordKeyUuid)
      invariant fileKey == Last(keys[..i], KeyUuid, FileKeyUuid)
    {
      var k := keys[i];
      LastSnoc(keys[..i], k, KeyUuid, PasswordKeyUuid);
      LastSnoc(keys[..i], k, KeyUuid, FileKeyUuid);
      assert keys[..i + 1] == keys[..i] + [k];
      if KeyUuid(k) == PasswordKeyUuid {
        passwordKey := Some(k);
      } else if KeyUuid(k) == FileKeyUuid {
        fileKey := Some(k);
      }
      i := i + 1;
    }
    assert keys[..i] == keys;

    var crKeys := key.challengeResponseKeys;
    ykCrKey := None;
    var j := 0;
    while j < |crKeys|
      invariant 0 <= j <= |crKeys|
      invariant ykCrKey == Last(crKeys[..j], ChallengeResponseKeyUuid, YkChallengeResponseKeyUuid)
    {
      var k := crKeys[j];
      LastSnoc(crKeys[..j], k, ChallengeResponseKeyUuid, YkChallengeResponseKeyUuid);
      assert crKeys[..j + 1] == crKeys[..j] + [k];
      if ChallengeResponseKeyUuid(k) == YkChallengeResponseKeyUuid {
        ykCrKey := Some(k);
      }
      j := j + 1;
    }
    assert crKeys[..j] == crKeys;
  }

  /**
   * The key-file component. Its editor is not part of this model: what its
   * validate reports and what its addToCompositeKey adds are given as state.
   */
  class KeyFileEditWidget {
    const component: KeyComponentWidget
    var validation: Validation
    var addition: Option<Key>

    constructor (v: Validation, a: Option<Key>)
      ensures fresh(component) && component.State() == Initial
      ensures validation == v && addition == a
    {
      component := new KeyComponentWidget();
      validation := v;
      addition := a;
    }

    method Validate() returns (v: Validation)
      ensures v == validation
    {
      v := validation;
    }

    method AddToCompositeKey(key: CompositeKey) returns (ok: bool)
      modifies key
      ensures ok <==> addition.Some?
      ensures key.keys == old(key.keys) + (if ok then [addition.value] else [])
      ensures key.challengeResponseKeys == old(key.challengeResponseKeys)
    {
      if addition.None? {
        return false;
      }
      key.AddKey(addition.value);
      ok := true;
    }
  }

  function PasswordInput(w: PasswordEditWidget, oldKey: Option<Key>): ComponentInput<Key>
    reads w, w.component
  {
    ComponentInput(w.component.page, ValidatePassword(w.enterPassword, w.repeatPassword),
                   Some(w.Addition()), oldKey)
  }

  function KeyFileInput(w: KeyFileEditWidget, oldKey: Option<Key>): ComponentInput<Key>
    reads w, w.component
  {
    ComponentInput(w.component.page, w.validation, w.addition, oldKey)
  }

  function YubiKeyInput(w: YubiKeyEditWidget, oldKey: Option<ChallengeResponseKey>)
    : ComponentInput<ChallengeResponseKey>
    reads w, w.component
  {
    ComponentInput(w.component.page, YubiKeyValidation(w.isValid), w.Addition(), oldKey)
  }

  /** addToCompositeKey(widget, newKey, oldKey) for the password component. */
  method AddPasswordComponent(w: PasswordEditWidget, newKey: CompositeKey, oldKey: Option<Key>)
    returns (ok: bool, message: string)
    requires CarriesOldKey(PasswordInput(w, oldKey))
    modifies newKey
    ensures ok <==> ComponentContribution(PasswordInput(w, oldKey)).Contribute?
    ensures ok ==> newKey.keys == old(newKey.keys) + ComponentContribution(PasswordInput(w, oldKey)).added
    ensures !ok ==> newKey.keys == old(newKey.keys)
                    && message == ComponentContribution(PasswordInput(w, oldKey)).message
    ensures newKey.challengeResponseKeys == old(newKey.challengeResponseKeys)
  {
    message := "";
    var page := w.component.VisiblePage();
    if page == Edit {
      var v := w.Validate();
      if v.Invalid? {
        return false, v.message;
      }
      var added := w.AddToCompositeKey(newKey);
      if !added {
        return false, UnknownError;
      }
    } else if page == LeaveOrRemove {
      newKey.AddKey(oldKey.value);
    }
    ok := true;
  }

  /** addToCompositeKey(widget, newKey, oldKey) for the key-file component. */
  method AddKeyFileComponent(w: KeyFileEditWidget, newKey: CompositeKey, oldKey: Option<Key>)
    returns (ok: bool, message: string)
    requires CarriesOldKey(KeyFileInput(w, oldKey))
    modifies newKey
    ensures ok <==> ComponentContribution(KeyFileInput(w, oldKey)).Contribute?
    ensures ok ==> newKey.keys == old(newKey.keys) + ComponentContribution(KeyFileInput(w, oldKey)).added
    ensures !ok ==> newKey.keys == old(newKey.keys)
                    && message == ComponentContribution(KeyFileInput(w, oldKey)).message
    ensures newKey.challengeResponseKeys == old(newKey.challengeResponseKeys)
  {
    message := "";
    var page := w.component.VisiblePage();
    if page == Edit {
      var v := w.Validate();
      if v.Invalid? {
        return false, v.message;
      }
      var added := w.AddToCompositeKey(newKey);
      if !added {
        return false, UnknownError;
      }
    } else if page == LeaveOrRemove {
      newKey.AddKey(oldKey.value);
    }
    ok := true;
  }

  /** addToCompositeKey(widget, newKey, oldKey) for the challenge-response component. */
  method AddYubiKeyComponent(w: YubiKeyEditWidget, newKey: CompositeKey, oldKey: Option<ChallengeResponseKey>)
    returns (ok: bool, message: string)
    requires CarriesOldKey(YubiKeyInput(w, oldKey))
    modifies newKey
    ensures ok <==> ComponentContribution(YubiKeyInput(w, oldKey)).Contribute?
    ensures ok ==> newKey.challengeResponseKeys
                   == old(newKey.challengeResponseKeys) + ComponentContribution(YubiKeyInput(w, oldKey)).added
    ensures !ok ==> newKey.challengeResponseKeys == old(newKey.challengeResponseKeys)
                    && message == ComponentContribution(YubiKeyInput(w, oldKey)).message
    ensures newKey.keys == old(newKey.keys)
  {
    message := "";
    var page := w.component.VisiblePage();
    if page == Edit {
      var v := w.Validate();
      if v.Invalid? {
        return false, v.message;
      }
      var added := w.AddToCompositeKey(newKey);
      if !added {
        return false, UnknownError;
      }
    } else if page == LeaveOrRemove {
      newKey.AddChallengeResponseKey(oldKey.value);
    }
    ok := true;
  }

  /** A component after load: marked added when a key of its kind is present. */
  function LoadedState(s: ComponentState, found: bool): (t: ComponentState)
    ensures t.added == (s.added || found)
    ensures found && !s.added ==> t.page == LeaveOrRemove && t.previousPage == s.previousPage
    ensures !found || s.added ==> t == s
  {
    if found then Next(s, SetAdded(true)) else s
  }

  /** After initialize and then load, a component is added iff its key is present,
      and it shows LeaveOrRemove exactly then. */
  lemma InitializeThenLoad(s: ComponentState, found: bool)
    ensures LoadedState(Next(s, SetAdded(false)), found).added == found
    ensures LoadedState(Next(s, SetAdded(false)), found).page == LeaveOrRemove
            <==> found || (s.page == LeaveOrRemove && !s.added)
  {
  }

  /** The loops of load: every component whose kind occurs in the current key is marked added. */
  method LoadComponents(key: CompositeKey, pw: KeyComponentWidget, kf: KeyComponentWidget,
                        yk: KeyComponentWidget, withYubiKey: bool)
    requires pw != kf && pw != yk && kf != yk
    modifies pw, kf, yk
    ensures pw.State() == LoadedState(old(pw.State()), Last(key.keys, KeyUuid, PasswordKeyUuid).Some?)
    ensures kf.State() == LoadedState(old(kf.State()), Last(key.keys, KeyUuid, FileKeyUuid).Some?)
    ensures yk.State() == if withYubiKey
                          then LoadedState(old(yk.State()), Last(key.challengeResponseKeys,
                                             ChallengeResponseKeyUuid, YkChallengeResponseKeyUuid).Some?)
                          else old(yk.State())
  {
    var keys := key.keys;
    var i := 0;
    while i < |keys|
      invariant 0 <= i <= |keys|
      invariant pw.State() == LoadedState(old(pw.State()), Last(keys[..i], KeyUuid, PasswordKeyUuid).Some?)
      invariant kf.State() == LoadedState(old(kf.State()), Last(keys[..i], KeyUuid, FileKeyUuid).Some?)
      invariant yk.State() == old(yk.State())
    {
      var k := keys[i];
      LastSnoc(keys[..i], k, KeyUuid, PasswordKeyUuid);
      LastSnoc(keys[..i], k, KeyUuid, FileKeyUuid);
      assert keys[..i + 1] == keys[..i] + [k];
      SetAddedIdempotent(old(pw.State()), true);
      SetAddedIdempotent(old(kf.State()), true);
      if KeyUuid(k) == PasswordKeyUuid {
        pw.SetComponentAdded(true);
      } else if KeyUuid(k) == FileKeyUuid {
        kf.SetComponentAdded(true);
      }
      i := i + 1;
    }
    assert keys[..i] == keys;

    if withYubiKey {
      var crKeys := key.challengeResponseKeys;
      var j := 0;
      while j < |crKeys|
        invariant 0 <= j <= |crKeys|
        invariant yk.State() == LoadedState(old(yk.State()), Last(crKeys[..j],
                                  ChallengeResponseKeyUuid, YkChallengeResponseKeyUuid).Some?)
        invariant pw.State() == LoadedState(old(pw.State()), Last(keys, KeyUuid, PasswordKeyUuid).Some?)
        invariant kf.State() == LoadedState(old(kf.State()), Last(keys, KeyUuid, FileKeyUuid).Some?)
      {
        var k := crKeys[j];
        LastSnoc(crKeys[..j], k, ChallengeResponseKeyUuid, YkChallengeResponseKeyUuid);
        assert crKeys[..j + 1] == crKeys[..j] + [k];
        SetAddedIdempotent(old(yk.State()), true);
        if ChallengeResponseKeyUuid(k) == YkChallengeResponseKeyUuid {
          yk.SetComponentAdded(true);
        }
        j := j + 1;
      }
      assert crKeys[..j] == crKeys;
    }
  }

  /** initialize: every component is reset to "not added". */
  method InitializeComponents(pw: KeyComponentWidget, kf: KeyComponentWidget,
                              yk: KeyComponentWidget, withYubiKey: bool)
    requires pw != kf && pw != yk && kf != yk
    modifies pw, kf, yk
    ensures pw.State() == Next(old(pw.State()), SetAdded(false))
    ensures kf.State() == Next(old(kf.State()), SetAdded(false))
    ensures yk.State() == if withYubiKey then Next(old(yk.State()), SetAdded(false)) else old(yk.State())
    ensures !pw.isComponentAdded && !kf.isComponentAdded && (withYubiKey ==> !yk.isComponentAdded)
  {
    pw.SetComponentAdded(false);
    kf.SetComponentAdded(false);
    if withYubiKey {
      yk.SetComponentAdded(false);
    }
  }

  /** Everything the save reads, as inputs of Assemble. */
  function SaveInputs(key: CompositeKey, pw: PasswordEditWidget, kf: KeyFileEditWidget,
                      yk: YubiKeyEditWidget, withYubiKey: bool)
    : (ComponentInput<Key>, ComponentInput<Key>, Option<ComponentInput<ChallengeResponseKey>>)
    reads key, pw, pw.component, kf, kf.component, yk, yk.component
  {
    (PasswordInput(pw, Last(key.keys, KeyUuid, PasswordKeyUuid)),
     KeyFileInput(kf, Last(key.keys, KeyUuid, FileKeyUuid)),
     if withYubiKey
     then Some(YubiKeyInput(yk, Last(key.challengeResponseKeys, ChallengeResponseKeyUuid, YkChallengeResponseKeyUuid)))
     else None)
  }

  /** The components left as they were all have an old key in the current key. */
  predicate SaveInputsCarryOldKeys(key: CompositeKey, pw: PasswordEditWidget, kf: KeyFileEditWidget,
                                   yk: YubiKeyEditWidget, withYubiKey: bool)
    reads key, pw, pw.component, kf, kf.component, yk, yk.component
  {
    var (p, f, y) := SaveInputs(key, pw, kf, yk, withYubiKey);
    InputsCarryOldKeys(p, f, y)
  }

  /** The outcome of save for the current key and widgets. */
  function SaveOutcome(key: CompositeKey, pw: PasswordEditWidget, kf: KeyFileEditWidget,
                       yk: YubiKeyEditWidget, withYubiKey: bool, confirmNoPassword: bool)
    : (r: Result<AssembledKey, SaveError>)
    reads key, pw, pw.component, kf, kf.component, yk, yk.component
    requires SaveInputsCarryOldKeys(key, pw, kf, yk, withYubiKey)
    ensures !withYubiKey && r.Success? ==> r.value.challengeResponseKeys == []
    ensures r.Success? ==> r.value.keys != [] || r.value.challengeResponseKeys != []
  {
    var (p, f, y) := SaveInputs(key, pw, kf, yk, withYubiKey);
    Assemble(p, f, y, confirmNoPassword)
  }

  /**
   * save: assembles a new composite key and installs it in the database only
   * when every step succeeded. `confirmNoPassword` is the user's answer to the
   * "No password set" question (true for Yes).
   */
  method SaveMasterKey(db: Database, pw: PasswordEditWidget, kf: KeyFileEditWidget,
                       yk: YubiKeyEditWidget, withYubiKey: bool, confirmNoPassword: bool)
    returns (ok: bool)
    requires SaveInputsCarryOldKeys(db.key, pw, kf, yk, withYubiKey)
    modifies db
    ensures ok <==> old(SaveOutcome(db.key, pw, kf, yk, withYubiKey, confirmNoPassword)).Success?
    ensures ok ==> fresh(db.key)
                   && db.key.keys == old(SaveOutcome(db.key, pw, kf, yk, withYubiKey, confirmNoPassword)).value.keys
                   && db.key.challengeResponseKeys
                      == old(SaveOutcome(db.key, pw, kf, yk, withYubiKey, confirmNoPassword)).value.challengeResponseKeys
    ensures !ok ==> db.key == old(db.key)
    ensures db.cipher == old(db.cipher) && db.kdf == old(db.kdf)
    ensures unchanged(old(db.key))
  {
    ghost var inputs := SaveInputs(db.key, pw, kf, yk, withYubiKey);
    var newKey := new CompositeKey();
    var passwordKey, fileKey, ykCrKey := FindOldKeys(db.key);

    var added, message := AddPasswordComponent(pw, newKey, passwordKey);
    if !added {
      return false;
    }
    added, message := AddKeyFileComponent(kf, newKey, fileKey);
    if !added {
      return false;
    }
    if withYubiKey {
      added, message := AddYubiKeyComponent(yk, newKey, ykCrKey);
      if !added {
        return false;
      }
    }

    if newKey.keys == [] && newKey.challengeResponseKeys == [] {
      return false;   // "No encryption key added"
    }

    var passwordPage := pw.component.VisiblePage();
    if passwordPage == AddNew && !confirmNoPassword {
      return false;   // "No password set" not answered with Yes
    }

    db.SetKey(newKey);
    ok := true;
  }
}
