/**
 * The YubiKey challenge-response key component. A detected key is shown as a
 * single combo-box item whose data packs the slot and the blocking mode into
 * one integer: blocking in the lowest bit, the slot number above it.
 */
module YubiKeyEdit {
  import opened Wrappers
  import opened Keys
  import opened KeyComponent

  /**
   * A combo item's integer data. Only encodings of slots and the data-less
   * item (read as 0) are ever stored, so payloads are non-negative 32-bit ints,
   * on which `<< 1`, `| b`, `& 1` and `>> 1` are `* 2`, `+ b`, `% 2` and `/ 2`
   * (BitOperationsAsArithmetic).
   */
  type Payload = p: int | 0 <= p < 0x8000_0000

  /** Slots for which `slot << 1` stays inside a non-negative 32-bit int. */
  type Slot = s: int | 0 <= s < 0x4000_0000

  const NoYubiKeyMessage := "No YubiKey detected, please ensure its plugged in."

  /** (slot << 1) | blocking */
  function EncodePayload(slot: Slot, blocking: bool): (p: Payload)
    ensures p % 2 == 1 <==> blocking
  {
    slot * 2 + (if blocking then 1 else 0)
  }

  /** payload & 1 */
  function DecodeBlocking(p: Payload): (blocking: bool)
    ensures blocking <==> p == 2 * DecodeSlot(p) + 1
  {
    p % 2 == 1
  }

  /** payload >> 1 */
  function DecodeSlot(p: Payload): (s: Slot)
    ensures 2 * s <= p <= 2 * s + 1
  {
    p / 2
  }

  /** On 32-bit words the shift-and-or packing is the arithmetic one above. */
  lemma BitOperationsAsArithmetic(s: bv32, b: bv32)
    requires s < 0x4000_0000 && b < 2
    ensures (s << 1) | b == s * 2 + b
    ensures ((s << 1) | b) & 1 == b
    ensures ((s << 1) | b) >> 1 == s
  {
  }

  /** Decoding an encoded payload gives back the slot and the blocking mode. */
  lemma DecodeEncode(slot: Slot, blocking: bool)
    ensures DecodeSlot(EncodePayload(slot, blocking)) == slot
    ensures DecodeBlocking(EncodePayload(slot, blocking)) == blocking
  {
  }

  /** Every payload is the encoding of what it decodes to. */
  lemma EncodeDecode(p: Payload)
    ensures EncodePayload(DecodeSlot(p), DecodeBlocking(p)) == p
  {
  }

  /** A slot number of at least one never encodes to the error payload 0. */
  lemma NonZeroSlotNonZeroPayload(slot: Slot, blocking: bool)
    requires slot >= 1
    ensures EncodePayload(slot, blocking) != 0
  {
  }

  /** validate(): the result is m_isValid, and the message is written only when invalid. */
  function YubiKeyValidation(isValid: bool): (v: Validation)
    ensures v == Valid <==> isValid
    ensures v != Valid ==> v == Invalid(NoYubiKeyMessage)
  {
    if isValid then Valid else Invalid(NoYubiKeyMessage)
  }

  /** itemData(currentIndex).toInt(): 0 when no item is selected or it has no data. */
  function SelectedPayload(payloads: seq<Payload>, index: int): (p: Payload)
    ensures 0 <= index < |payloads| ==> p == payloads[index]
    ensures p != 0 ==> p in payloads
  {
    if 0 <= index < |payloads| then payloads[index] else 0
  }

  /**
   * The key addToCompositeKey adds, or None when it returns false: the widget
   * must be valid, its edit widget must exist and the selected payload must
   * not be 0.
   */
  function AdditionFor(isValid: bool, hasEditWidget: bool, payloads: seq<Payload>, index: int)
    : (r: Option<ChallengeResponseKey>)
    ensures r.Some? <==> isValid && hasEditWidget && SelectedPayload(payloads, index) != 0
    ensures r.Some? ==> r.value == YkChallengeResponseKey(DecodeSlot(SelectedPayload(payloads, index)),
                                                          DecodeBlocking(SelectedPayload(payloads, index)))
  {
    if !isValid || !hasEditWidget then None
    else
      var p := SelectedPayload(payloads, index);
      if p == 0 then None
      else Some(YkChallengeResponseKey(DecodeSlot(p), DecodeBlocking(p)))
  }

  /** After a detection event, adding yields exactly the detected slot and mode. */
  lemma DetectedThenAddition(slot: Slot, blocking: bool)
    requires slot >= 1
    ensures AdditionFor(true, true, [EncodePayload(slot, blocking)], 0)
            == Some(YkChallengeResponseKey(slot, blocking))
  {
    NonZeroSlotNonZeroPayload(slot, blocking);
    DecodeEncode(slot, blocking);
  }

  /** After a not-found event nothing can be added. */
  lemma NotFoundThenNoAddition(payloads: seq<Payload>, index: int)
    ensures AdditionFor(false, true, payloads, index) == None
  {
  }

  class YubiKeyEditWidget {
    const component: KeyComponentWidget
    var hasEditWidget: bool          // m_compEditWidget != nullptr
    var isValid: bool                // m_isValid
    var comboPayloads: seq<Payload>  // the data of each challenge-response combo item
    var comboIndex: int              // the combo's current index, -1 when empty

    constructor ()
      ensures fresh(component) && component.State() == Initial
      ensures !hasEditWidget && !isValid && comboPayloads == [] && comboIndex == -1
    {
      component := new KeyComponentWidget();
      hasEditWidget := false;
      isValid := false;
      comboPayloads := [];
      comboIndex := -1;
    }

    /** What addToCompositeKey adds: a YubiKey challenge-response key, and
        only from a valid widget with a non-empty selection. */
    function Addition(): (r: Option<ChallengeResponseKey>)
      reads this
      ensures r.Some? <==> isValid && hasEditWidget && SelectedPayload(comboPayloads, comboIndex) != 0
      ensures r.Some? ==> ChallengeResponseKeyUuid(r.value) == YkChallengeResponseKeyUuid
    {
      AdditionFor(isValid, hasEditWidget, comboPayloads, comboIndex)
    }

    method Validate() returns (v: Validation)
      ensures v == YubiKeyValidation(isValid)
    {
      if !isValid {
        return Invalid(NoYubiKeyMessage);
      }
      return Valid;
    }

    method AddToCompositeKey(key: CompositeKey) returns (ok: bool)
      modifies key
      ensures ok <==> Addition().Some?
      ensures key.challengeResponseKeys
              == old(key.challengeResponseKeys) + (if ok then [Addition().value] else [])
      ensures key.keys == old(key.keys)
    {
      if !isValid || !hasEditWidget {
        return false;
      }
      var payload := if 0 <= comboIndex < |comboPayloads| then comboPayloads[comboIndex] else 0;
      if payload == 0 {
        return false;
      }
      var blocking := payload % 2 == 1;
      var slot := payload / 2;
      key.AddChallengeResponseKey(YkChallengeResponseKey(slot, blocking));
      ok := true;
    }

    /** componentEditWidget(): a new edit widget with an empty combo, then a poll. */
    method CreateEditWidget()
      modifies this
      ensures hasEditWidget && comboPayloads == [] && comboIndex == -1
      ensures isValid == old(isValid)
    {
      hasEditWidget := true;
      comboPayloads := [];
      comboIndex := -1;
      PollYubikey();
    }

    /** pollYubikey(): clears the combo; the detection it starts is not part of this model. */
    method PollYubikey()
      modifies this
      ensures if old(hasEditWidget) then comboPayloads == [] && comboIndex == -1
              else comboPayloads == old(comboPayloads) && comboIndex == old(comboIndex)
      ensures hasEditWidget == old(hasEditWidget) && isValid == old(isValid)
    {
      if !hasEditWidget {
        return;
      }
      comboPayloads := [];
      comboIndex := -1;
    }

    method YubikeyDetected(slot: Slot, blocking: bool)
      modifies this
      ensures hasEditWidget == old(hasEditWidget)
      ensures old(hasEditWidget) ==>
                isValid && comboPayloads == [EncodePayload(slot, blocking)] && comboIndex == 0
      ensures !old(hasEditWidget) ==>
                isValid == old(isValid) && comboPayloads == old(comboPayloads) && comboIndex == old(comboIndex)
    {
      if !hasEditWidget {
        return;
      }
      comboPayloads := [slot * 2 + (if blocking then 1 else 0)];
      comboIndex := 0;
      isValid := true;
    }

    /** The "No YubiKey inserted." item carries no data, so it reads as payload 0. */
    method NoYubikeyFound()
      modifies this
      ensures hasEditWidget == old(hasEditWidget)
      ensures old(hasEditWidget) ==> !isValid && comboPayloads == [0] && comboIndex == 0
      ensures !old(hasEditWidget) ==>
                isValid == old(isValid) && comboPayloads == old(comboPayloads) && comboIndex == old(comboIndex)
    {
      if !hasEditWidget {
        return;
      }
      comboPayloads := [0];
      comboIndex := 0;
      isValid := false;
    }
  }
}
