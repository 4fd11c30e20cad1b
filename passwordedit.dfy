/** The password key component: two text fields, checked and turned into a password key. */
module PasswordEdit {
  import opened Keys
  import opened KeyComponent

  const EmptyPasswordMessage := "Password cannot be empty."
  const MismatchMessage := "Passwords do not match."

  /** The validation rule for the "enter" and "repeat" fields. */
  function ValidatePassword(password: string, repeat: string): (v: Validation)
    ensures v == Valid <==> password != "" && password == repeat
    ensures password == "" ==> v == Invalid(EmptyPasswordMessage)
    ensures password != "" && password != repeat ==> v == Invalid(MismatchMessage)
  {
    if password == "" then Invalid(EmptyPasswordMessage)
    else if password != repeat then Invalid(MismatchMessage)
    else Valid
  }

  /** The emptiness check wins over the mismatch check. */
  lemma EmptyReportedBeforeMismatch(repeat: string)
    requires repeat != ""
    ensures ValidatePassword("", repeat) == Invalid(EmptyPasswordMessage)
  {
  }

  class PasswordEditWidget {
    const component: KeyComponentWidget
    var enterPassword: string
    var repeatPassword: string

    constructor ()
      ensures fresh(component) && component.State() == Initial
      ensures enterPassword == "" && repeatPassword == ""
    {
      component := new KeyComponentWidget();
      enterPassword := "";
      repeatPassword := "";
    }

    method Validate() returns (v: Validation)
      ensures v == ValidatePassword(enterPassword, repeatPassword)
    {
      if enterPassword == "" {
        return Invalid(EmptyPasswordMessage);
      }
      if enterPassword != repeatPassword {
        return Invalid(MismatchMessage);
      }
      return Valid;
    }

    /** The key addToCompositeKey adds: always one password key from the entered text. */
    function Addition(): (k: Key)
      reads this
      ensures KeyUuid(k) == PasswordKeyUuid
    {
      PasswordKey(enterPassword)
    }

    method AddToCompositeKey(key: CompositeKey) returns (ok: bool)
      modifies key
      ensures ok
      ensures key.keys == old(key.keys) + [Addition()]
      ensures key.challengeResponseKeys == old(key.challengeResponseKeys)
    {
      key.AddKey(PasswordKey(enterPassword));
      ok := true;
    }
  }
}
