/**
 * Login by hash (src/components/auth/LoginForm.jsx). The form registers a
 * single field, "hash"; the schema gate runs first, then the submit handler
 * compares one field of the form data with the stored slot.
 *
 * The handler as written reads the field "user", which the form never
 * registers, so the value compared is `undefined`. `SubmitOutcome` takes the
 * field name as a parameter: `AsWrittenField` gives the code as it is,
 * `CorrectedField` the evidently intended behaviour.
 */
module LoginForm {
  import opened Wrappers
  import opened AuthStorage
  import opened AuthSchema

  const InvalidHashToast: string := "hash is invalid my dude............"
  const AsWrittenField: string := "user"
  const CorrectedField: string := "hash"

  datatype LoginOutcome =
    | SchemaRejected(errors: seq<FieldError>)
    | LoggedIn
    | Toasted(message: string)

  /** The values the form hands to its submit handler: only "hash" is registered. */
  function FormData(input: string): (data: map<string, string>)
    ensures data.Keys == {CorrectedField} && data[CorrectedField] == input
  {
    map[CorrectedField := input]
  }

  /** `data[name]`: `undefined` (None) for a field the form does not have. */
  function Field(data: map<string, string>, name: string): (r: Option<string>)
    ensures r.Some? <==> name in data
    ensures r.Some? ==> r.value == data[name]
  {
    if name in data then Some(data[name]) else None
  }

  /**
   * `verifyHash`: strict equality with the slot. `undefined === null` is
   * false, so a missing value never matches, not even an empty slot; a
   * storage that throws gives false.
   */
  function HashVerified(items: map<string, string>, access: Access, hash: Option<string>): (ok: bool)
    ensures hash.None? ==> !ok
    ensures !access.Available? ==> !ok
    ensures ok <==> access.Available? && hash.Some? && AuthHashKey in items && items[AuthHashKey] == hash.value
  {
    access.Available? && hash.Some? && Slot(items) == hash
  }

  /**
   * Submitting `input` when the handler reads the form field `field`: the
   * schema's errors, or the toast, or a login, which needs the handler to
   * read the registered field and the input to equal the stored hash.
   */
  function SubmitOutcome(items: map<string, string>, access: Access, input: string, field: string): (o: LoginOutcome)
    ensures o.SchemaRejected? <==> LoginErrors(input) != []
    ensures o.SchemaRejected? ==> o.errors == LoginErrors(input)
    ensures o.Toasted? ==> o.message == InvalidHashToast
    ensures o == LoggedIn ==> field == CorrectedField && access.Available? && Matches(items, input)
  {
    var errors := LoginErrors(input);
    if errors != [] then SchemaRejected(errors)
    else if HashVerified(items, access, Field(FormData(input), field)) then LoggedIn
    else Toasted(InvalidHashToast)
  }

  /** As written, no input, storage content or storage state ever logs in. */
  lemma AsWrittenNeverLogsIn(items: map<string, string>, access: Access, input: string)
    ensures SubmitOutcome(items, access, input, AsWrittenField) != LoggedIn
    ensures LoginErrors(input) == [] ==> SubmitOutcome(items, access, input, AsWrittenField) == Toasted(InvalidHashToast)
  {
    assert AsWrittenField !in FormData(input);
  }

  /** The witness: the very hash just stored is refused as written and accepted once corrected. */
  lemma AsWrittenRefusesStoredHash(items: map<string, string>, hash: string)
    requires |hash| >= MinHashLength
    ensures SubmitOutcome(Stored(items, hash), Available, hash, AsWrittenField) == Toasted(InvalidHashToast)
    ensures SubmitOutcome(Stored(items, hash), Available, hash, CorrectedField) == LoggedIn
  {
    AsWrittenNeverLogsIn(Stored(items, hash), Available, hash);
  }

  /**
   * Corrected: login succeeds exactly for an input that passes the schema and
   * equals the stored hash of a usable storage; every other valid input gets the toast.
   */
  lemma CorrectedLoginIff(items: map<string, string>, access: Access, input: string)
    ensures SubmitOutcome(items, access, input, CorrectedField) == LoggedIn
      <==> |input| >= MinHashLength && access.Available? && Matches(items, input)
    ensures SubmitOutcome(items, access, input, CorrectedField).SchemaRejected?
      <==> |input| < MinHashLength
    ensures SubmitOutcome(items, access, input, CorrectedField).Toasted? ==>
      SubmitOutcome(items, access, input, CorrectedField) == Toasted(InvalidHashToast)
  {
  }

  class LoginForm {
    const storage: LocalStorage

    constructor (storage: LocalStorage)
      ensures this.storage == storage
    {
      this.storage := storage;
    }

    /** `verifyHash`: reads the slot; the catch branch returns false. */
    method VerifyHash(hash: Option<string>) returns (ok: bool)
      ensures ok == HashVerified(storage.items, storage.access, hash)
      ensures ok ==> hash.Some? && Matches(storage.items, hash.value)
    {
      var stored := storage.GetItem(AuthHashKey);
      match stored
      case Success(value) =>
        ok := hash.Some? && value == hash;
      case Failure(_) =>
        ok := false;
    }

    /** The schema gate, then `onSubmit` reading the form field `field`. */
    method SubmitReading(input: string, field: string) returns (outcome: LoginOutcome)
      ensures outcome == SubmitOutcome(storage.items, storage.access, input, field)
    {
      var errors := LoginErrors(input);
      if errors != [] {
        return SchemaRejected(errors);
      }
      var data := FormData(input);
      var isValid := VerifyHash(Field(data, field));
      if isValid {
        outcome := LoggedIn;
      } else {
        outcome := Toasted(InvalidHashToast);
      }
    }

    /** The handler as written, reading `data.user`: it never logs in. */
    method SubmitAsWritten(input: string) returns (outcome: LoginOutcome)
      ensures outcome == SubmitOutcome(storage.items, storage.access, input, AsWrittenField)
      ensures outcome != LoggedIn
    {
      outcome := SubmitReading(input, AsWrittenField);
      AsWrittenNeverLogsIn(storage.items, storage.access, input);
    }

    /** The handler reading `data.hash`, the field the form registers. */
    method Submit(input: string) returns (outcome: LoginOutcome)
      ensures outcome == LoggedIn <==> |input| >= MinHashLength && storage.access.Available? && Matches(storage.items, input)
      ensures outcome.SchemaRejected? <==> |input| < MinHashLength
      ensures outcome == SubmitOutcome(storage.items, storage.access, input, CorrectedField)
    {
      outcome := SubmitReading(input, CorrectedField);
      CorrectedLoginIff(storage.items, storage.access, input);
    }
  }
}
