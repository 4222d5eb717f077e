/** The phone-field normaliser both booking forms use: keep the digits of
    what was typed, at most eight of them, and keep a per-field error entry
    for a number that is started but not complete. */
module PhoneInput {
  import opened Seqs
  import opened Strings

  /** The two fields the normaliser is attached to. */
  datatype PhoneField = PrimaryPhone | AltPhone

  const PhoneLength := 8

  /** `val.replace(/\D/g, '')`. */
  function Digits(input: string): string
  {
    Filter(input, IsDigit)
  }

  /** `val.replace(/\D/g, '').slice(0, 8)`. */
  function NormalizePhone(input: string): (phone: string)
    ensures AllDigits(phone)
    ensures |phone| <= PhoneLength
    ensures phone <= Digits(input)
    ensures |phone| == if |Digits(input)| < PhoneLength then |Digits(input)| else PhoneLength
  {
    var digits := Digits(input);
    if |digits| <= PhoneLength then digits else digits[..PhoneLength]
  }

  /** A value the normaliser can leave in a phone field. */
  ghost predicate IsNormalized(phone: string)
  {
    AllDigits(phone) && |phone| <= PhoneLength
  }

  /** The field shows an error: a number has been started but has fewer
      than eight digits. */
  predicate NeedsError(phone: string)
  {
    0 < |phone| < PhoneLength
  }

  /** The submit gate: the primary phone has exactly eight characters. */
  predicate CanSubmit(phone: string)
  {
    |phone| == PhoneLength
  }

  /** The browser's constraint validation of `required` inputs, which runs
      before the submit event and cancels it when one of them is empty. */
  predicate RequiredFilled(values: seq<string>)
  {
    forall i :: 0 <= i < |values| ==> values[i] != ""
  }

  /** The error map after `field` received `phone`: the field's entry is set
      to `message` when the number is incomplete and cleared otherwise; the
      other field's entry is untouched. */
  function UpdateErrors(errors: map<PhoneField, string>, field: PhoneField, phone: string, message: string)
    : (updated: map<PhoneField, string>)
    ensures field in updated <==> NeedsError(phone)
    ensures field in updated ==> updated[field] == message
    ensures forall f :: f != field ==> (f in updated <==> f in errors)
    ensures forall f :: f != field && f in errors ==> updated[f] == errors[f]
  {
    if NeedsError(phone) then errors[field := message] else errors - {field}
  }

  /** The error map reflects the current phone values. */
  ghost predicate ErrorsMatch(errors: map<PhoneField, string>, phone: string, altPhone: string)
  {
    (PrimaryPhone in errors <==> NeedsError(phone)) && (AltPhone in errors <==> NeedsError(altPhone))
  }

  /** Normalising a normalised value changes nothing, so re-rendering the
      field with its own value is harmless. */
  lemma NormalizeIdempotent(input: string)
    ensures NormalizePhone(NormalizePhone(input)) == NormalizePhone(input)
  {
    var phone := NormalizePhone(input);
    FilterKeepsAll(phone, IsDigit);
  }

  /** A normalised value passes through the normaliser unchanged. */
  lemma NormalizeKeepsNormalized(phone: string)
    requires IsNormalized(phone)
    ensures NormalizePhone(phone) == phone
  {
    FilterKeepsAll(phone, IsDigit);
  }

  /** Typing one more character after a normalised value: a digit is
      appended while there is room, and anything else is dropped. */
  lemma {:induction false} TypeOneCharacter(phone: string, c: char)
    requires IsNormalized(phone)
    ensures IsDigit(c) && |phone| < PhoneLength ==> NormalizePhone(phone + [c]) == phone + [c]
    ensures !IsDigit(c) || |phone| == PhoneLength ==> NormalizePhone(phone + [c]) == phone
  {
    FilterKeepsAll(phone, IsDigit);
    FilterConcat(phone, [c], IsDigit);
    assert Filter([c], IsDigit) == (if IsDigit(c) then [c] else []) by {
      assert [c][1..] == [];
    }
    if IsDigit(c) && |phone| == PhoneLength {
      assert (phone + [c])[..PhoneLength] == phone;
    }
  }

  /** For a normalised value the gate and the error entry tell the same
      story, except for the empty field: it shows no error yet cannot be
      submitted. */
  lemma GateAgreesWithError(phone: string)
    requires IsNormalized(phone)
    ensures CanSubmit(phone) <==> phone != "" && !NeedsError(phone)
  {
  }
}
