/**
 * Registration (src/components/auth/SignUpForm.jsx): validate the form,
 * check that the pinning service answers, hash the credentials, upload a
 * record of them, and only then store the hash locally and report success.
 *
 * The network is not modelled: whether the connectivity probe succeeds and
 * what the upload returns are inputs. `now` stands for `Date.now()` and
 * `createdAt` for `new Date().toISOString()`.
 */
module SignUpForm {
  import opened Wrappers
  import opened AuthHash
  import opened AuthStorage
  import opened AuthSchema

  const ServiceUnavailableMessage: string := "Storage service unavailable. Please try again later."
  const DefaultFailureMessage: string := "Failed to create account. Please try again."
  const RecordVersion: string := "1.0.0"

  /** The record uploaded to the pinning service. */
  datatype PinataRecord = PinataRecord(email: string, phone: string, hash: string, createdAt: string, version: string)

  /** What the upload call does: resolve with a locator, or throw with a message. */
  datatype UploadOutcome = Pinned(cid: string, gatewayUrl: string) | UploadFailed(message: string)

  /** The observable effects of one submission, in the order they happen. */
  datatype Step =
    | ConnectivityChecked(connected: bool)
    | HashGenerated(hash: string)
    | UploadRequested(record: PinataRecord)
    | UploadSucceeded(gatewayUrl: string)
    | HashStoredLocally(hash: string)
    | FormReset
    | SuccessReported(hash: string, gatewayUrl: string)
    | RootErrorSet(message: string)

  datatype Outcome =
    | Rejected(errors: seq<FieldError>)
    | Registered(hash: string, gatewayUrl: string)
    | Failed(message: string)

  /** `error.message || 'Failed to create account. Please try again.'` */
  function RootMessage(thrown: string): (m: string)
    ensures m != ""
    ensures thrown != "" ==> m == thrown
  {
    if thrown == "" then DefaultFailureMessage else thrown
  }

  /** One submission: its outcome, its effects in order, and the storage afterwards. */
  datatype Run = Run(outcome: Outcome, steps: seq<Step>, items: map<string, string>)

  /** The specification of a submission, step by step as the handler runs. */
  function Register(isEmail: string -> bool, sha: string -> string, email: string, phone: string,
                    connected: bool, now: nat, createdAt: string, upload: UploadOutcome,
                    items: map<string, string>, access: Access): (r: Run)
    ensures r.outcome.Rejected? <==> SignUpErrors(isEmail, email, phone) != []
    ensures r.outcome.Rejected? ==>
      r.outcome.errors == SignUpErrors(isEmail, email, phone) && r.steps == [] && r.items == items
    ensures r.outcome.Failed? ==> r.items == items
  {
    var errors := SignUpErrors(isEmail, email, phone);
    if errors != [] then Run(Rejected(errors), [], items)
    else if !connected then
      Run(Failed(ServiceUnavailableMessage), [ConnectivityChecked(false), RootErrorSet(ServiceUnavailableMessage)], items)
    else
      var hash := GenerateAndSendHash(sha, email, phone, now);
      var record := PinataRecord(email, phone, hash, createdAt, RecordVersion);
      var sent := [ConnectivityChecked(true), HashGenerated(hash), UploadRequested(record)];
      match upload
      case UploadFailed(m) =>
        Run(Failed(RootMessage(m)), sent + [RootErrorSet(RootMessage(m))], items)
      case Pinned(_, url) =>
        match access
        case Throws(m) =>
          Run(Failed(RootMessage(m)), sent + [UploadSucceeded(url), RootErrorSet(RootMessage(m))], items)
        case Available =>
          Run(Registered(hash, url),
              sent + [UploadSucceeded(url), HashStoredLocally(hash), FormReset, SuccessReported(hash, url)],
              Stored(items, hash))
  }

  /** Every local store is preceded by a successful upload. */
  ghost predicate StoredOnlyAfterUpload(steps: seq<Step>) {
    forall i :: 0 <= i < |steps| && steps[i].HashStoredLocally? ==>
      exists j :: 0 <= j < i && steps[j].UploadSucceeded?
  }

  /** A failed probe aborts before any hashing, uploading or storing, with the fixed message. */
  lemma NoConnectionNoEffects(isEmail: string -> bool, sha: string -> string, email: string, phone: string,
                              now: nat, createdAt: string, upload: UploadOutcome,
                              items: map<string, string>, access: Access)
    requires SignUpErrors(isEmail, email, phone) == []
    ensures var run := Register(isEmail, sha, email, phone, false, now, createdAt, upload, items, access);
      && run.outcome == Failed(ServiceUnavailableMessage)
      && run.steps == [ConnectivityChecked(false), RootErrorSet(ServiceUnavailableMessage)]
      && run.items == items
  {
  }

  /** A failed upload leaves the slot as it was and reports no success. */
  lemma UploadFailureKeepsSlot(isEmail: string -> bool, sha: string -> string, email: string, phone: string,
                               connected: bool, now: nat, createdAt: string, message: string,
                               items: map<string, string>, access: Access)
    ensures var run := Register(isEmail, sha, email, phone, connected, now, createdAt, UploadFailed(message), items, access);
      && run.items == items
      && !run.outcome.Registered?
      && forall i :: 0 <= i < |run.steps| ==> !run.steps[i].SuccessReported? && !run.steps[i].HashStoredLocally?
  {
  }

  /**
   * Success happens exactly when the form is valid, the probe succeeds, the
   * upload succeeds and the storage is usable; then the slot holds the hash
   * of the colon-separated credentials and the upload's URL is reported.
   */
  lemma RegisteredIff(isEmail: string -> bool, sha: string -> string, email: string, phone: string,
                      connected: bool, now: nat, createdAt: string, upload: UploadOutcome,
                      items: map<string, string>, access: Access)
    ensures var run := Register(isEmail, sha, email, phone, connected, now, createdAt, upload, items, access);
      && (run.outcome.Registered? <==>
            SignUpErrors(isEmail, email, phone) == [] && connected && upload.Pinned? && access.Available?)
      && (run.outcome.Registered? ==>
            && run.outcome.hash == sha(ApiPreimage(email, phone, now))
            && run.outcome.gatewayUrl == upload.gatewayUrl
            && Slot(run.items) == Some(run.outcome.hash)
            && run.items == Stored(items, run.outcome.hash))
      && (!run.outcome.Registered? ==> run.items == items)
  {
  }

  /**
   * The store is written only after the upload has returned, and the record
   * uploaded carries the very hash that is stored, with version 1.0.0.
   */
  lemma StoreFollowsUpload(isEmail: string -> bool, sha: string -> string, email: string, phone: string,
                           connected: bool, now: nat, createdAt: string, upload: UploadOutcome,
                           items: map<string, string>, access: Access)
    ensures var run := Register(isEmail, sha, email, phone, connected, now, createdAt, upload, items, access);
      && StoredOnlyAfterUpload(run.steps)
      && (run.outcome.Registered? ==>
            UploadRequested(PinataRecord(email, phone, run.outcome.hash, createdAt, RecordVersion)) in run.steps
            && HashStoredLocally(run.outcome.hash) in run.steps)
  {
    var run := Register(isEmail, sha, email, phone, connected, now, createdAt, upload, items, access);
    if run.outcome.Registered? {
      assert run.steps[3].UploadSucceeded? && run.steps[4].HashStoredLocally?;
      assert run.steps[2] == UploadRequested(PinataRecord(email, phone, run.outcome.hash, createdAt, RecordVersion));
    }
  }

  /**
   * Every failure after validation sets exactly one root error, as the last
   * step, with a non-empty message; success is reported only on success.
   */
  lemma FailureSetsOneRootError(isEmail: string -> bool, sha: string -> string, email: string, phone: string,
                                connected: bool, now: nat, createdAt: string, upload: UploadOutcome,
                                items: map<string, string>, access: Access)
    ensures var run := Register(isEmail, sha, email, phone, connected, now, createdAt, upload, items, access);
      && (run.outcome.Failed? ==>
            && run.steps != [] && run.steps[|run.steps| - 1] == RootErrorSet(run.outcome.message)
            && run.outcome.message != ""
            && forall i :: 0 <= i < |run.steps| - 1 ==> !run.steps[i].RootErrorSet?)
      && (forall i :: 0 <= i < |run.steps| && run.steps[i].SuccessReported? ==> run.outcome.Registered?)
  {
  }

  class SignUpForm {
    const storage: LocalStorage
    var email: string
    var phone: string
    var rootError: Option<string>

    constructor (storage: LocalStorage)
      ensures this.storage == storage && email == "" && phone == "" && rootError == None
    {
      this.storage := storage;
      email := "";
      phone := "";
      rootError := None;
    }

    /** The user typing into the two fields. */
    method Fill(email: string, phone: string)
      modifies this
      ensures this.email == email && this.phone == phone && rootError == old(rootError)
    {
      this.email := email;
      this.phone := phone;
    }

    /** Pressing "Create Account": schema validation, then `onSubmit`. */
    method Submit(isEmail: string -> bool, sha: string -> string, connected: bool, now: nat,
                  createdAt: string, upload: UploadOutcome) returns (outcome: Outcome, steps: seq<Step>)
      modifies this, storage
      ensures var run := Register(isEmail, sha, old(email), old(phone), connected, now, createdAt, upload,
                                  old(storage.items), old(storage.access));
        outcome == run.outcome && steps == run.steps && storage.items == run.items
      ensures storage.access == old(storage.access)
      ensures rootError == if outcome.Failed? then Some(outcome.message) else None
      ensures outcome.Registered? ==> email == "" && phone == ""
      ensures !outcome.Registered? ==> email == old(email) && phone == old(phone)
    {
      // `handleSubmit` drops the previous root error before each run.
      rootError := None;
      var errors := SignUpErrors(isEmail, email, phone);
      if errors != [] {
        return Rejected(errors), [];
      }
      steps := [ConnectivityChecked(connected)];
      if !connected {
        rootError := Some(ServiceUnavailableMessage);
        return Failed(ServiceUnavailableMessage), steps + [RootErrorSet(ServiceUnavailableMessage)];
      }
      var hash := GenerateAndSendHash(sha, email, phone, now);
      steps := steps + [HashGenerated(hash)];
      steps := steps + [UploadRequested(PinataRecord(email, phone, hash, createdAt, RecordVersion))];
      var url: string;
      match upload {
        case UploadFailed(m) =>
          rootError := Some(RootMessage(m));
          return Failed(RootMessage(m)), steps + [RootErrorSet(RootMessage(m))];
        case Pinned(_, gatewayUrl) =>
          url := gatewayUrl;
      }
      steps := steps + [UploadSucceeded(url)];
      var thrown := storage.SetItem(AuthHashKey, hash);
      if thrown.Some? {
        rootError := Some(RootMessage(thrown.value));
        return Failed(RootMessage(thrown.value)), steps + [RootErrorSet(RootMessage(thrown.value))];
      }
      steps := steps + [HashStoredLocally(hash)];
      email := "";
      phone := "";
      steps := steps + [FormReset, SuccessReported(hash, url)];
      outcome := Registered(hash, url);
    }
  }
}
