/**
 * The two input schemas of src/lib/auth/schema.js. Email syntax is
 * whatever the schema library's email check accepts, passed in as `isEmail`;
 * the other checks are string lengths.
 */
module AuthSchema {

  datatype FieldError = FieldError(field: string, message: string)

  const InvalidEmailMessage: string := "Invalid email address"
  const ShortPhoneMessage: string := "Phone number must be at least 10 digits"
  const InvalidHashMessage: string := "Invalid authenitication hash"

  const MinPhoneLength: nat := 10
  const MinHashLength: nat := 64

  /** The issues `signUpSchema` reports for a form, one per failing field, email first. */
  function SignUpErrors(isEmail: string -> bool, email: string, phone: string): (r: seq<FieldError>)
    ensures r == [] <==> isEmail(email) && |phone| >= MinPhoneLength
    ensures FieldError("email", InvalidEmailMessage) in r <==> !isEmail(email)
    ensures FieldError("phone", ShortPhoneMessage) in r <==> |phone| < MinPhoneLength
    ensures forall e :: e in r ==> e == FieldError("email", InvalidEmailMessage) || e == FieldError("phone", ShortPhoneMessage)
  {
    (if isEmail(email) then [] else [FieldError("email", InvalidEmailMessage)])
    + (if |phone| >= MinPhoneLength then [] else [FieldError("phone", ShortPhoneMessage)])
  }

  /** The issues `loginSchema` reports: only a hash shorter than 64 characters fails. */
  function LoginErrors(hash: string): (r: seq<FieldError>)
    ensures r == [] <==> |hash| >= MinHashLength
    ensures r != [] ==> r == [FieldError("hash", InvalidHashMessage)]
  {
    if |hash| >= MinHashLength then [] else [FieldError("hash", InvalidHashMessage)]
  }

  /** The phone check looks at the length only: ten letters pass, whatever the message says. */
  lemma PhoneDigitsNotChecked(isEmail: string -> bool, email: string)
    requires isEmail(email)
    ensures SignUpErrors(isEmail, email, "abcdefghij") == []
  {
  }

  /**
   * The login check looks at the length only, and does not trim: sixty-four
   * spaces pass, while sixty-three hex digits do not.
   */
  lemma LoginAcceptsLongStrings()
    ensures LoginErrors(seq(64, _ => ' ')) == []
    ensures LoginErrors(seq(63, _ => 'f')) == [FieldError("hash", InvalidHashMessage)]
  {
  }
}
