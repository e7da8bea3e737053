/**
 * The page that switches between registration and login
 * (src/pages/AuthPage.jsx). It opens on the registration form; a successful
 * registration remembers the hash and switches to the login form.
 */
module AuthPage {
  import opened Wrappers
  import opened AuthHash
  import opened AuthStorage
  import opened AuthSchema
  import SignUpForm
  import LoginForm

  class AuthPage {
    var isLoginView: bool
    var recentHash: string

    constructor ()
      ensures !isLoginView && recentHash == ""
    {
      isLoginView := false;
      recentHash := "";
    }

    /** The link under the form flips the view and keeps the remembered hash. */
    method Toggle()
      modifies this
      ensures isLoginView == !old(isLoginView) && recentHash == old(recentHash)
    {
      isLoginView := !isLoginView;
    }

    /** The registration form's `onSuccess(hash)`. */
    method OnSignUpSuccess(hash: string)
      modifies this
      ensures isLoginView && recentHash == hash
    {
      recentHash := hash;
      isLoginView := true;
    }

    /**
     * Submitting the registration form shown on the page: on success the page
     * remembers the new hash and shows the login form; otherwise it stays.
     */
    method SubmitSignUp(form: SignUpForm.SignUpForm, isEmail: string -> bool, sha: string -> string,
                        connected: bool, now: nat, createdAt: string, upload: SignUpForm.UploadOutcome)
        returns (outcome: SignUpForm.Outcome)
      requires !isLoginView
      modifies this, form, form.storage
      ensures var run := SignUpForm.Register(isEmail, sha, old(form.email), old(form.phone), connected, now,
                                             createdAt, upload, old(form.storage.items), old(form.storage.access));
        outcome == run.outcome && form.storage.items == run.items
      ensures form.storage.access == old(form.storage.access)
      ensures outcome.Registered? ==> isLoginView && recentHash == outcome.hash
      ensures !outcome.Registered? ==> !isLoginView && recentHash == old(recentHash)
    {
      var steps;
      outcome, steps := form.Submit(isEmail, sha, connected, now, createdAt, upload);
      if outcome.Registered? {
        OnSignUpSuccess(outcome.hash);
      }
    }
  }

  /**
   * End to end: a registration that succeeds with a hash of at least 64
   * characters (as a SHA-256 hex digest is) lets the login form's corrected
   * handler accept that hash, while the handler as written still refuses it.
   */
  lemma RegisteredHashLogsIn(isEmail: string -> bool, sha: string -> string, email: string, phone: string,
                             connected: bool, now: nat, createdAt: string, upload: SignUpForm.UploadOutcome,
                             items: map<string, string>)
    requires SignUpForm.Register(isEmail, sha, email, phone, connected, now, createdAt, upload, items, Available).outcome.Registered?
    requires |sha(ApiPreimage(email, phone, now))| >= MinHashLength
    ensures var run := SignUpForm.Register(isEmail, sha, email, phone, connected, now, createdAt, upload, items, Available);
      && LoginForm.SubmitOutcome(run.items, Available, run.outcome.hash, LoginForm.CorrectedField) == LoginForm.LoggedIn
      && LoginForm.SubmitOutcome(run.items, Available, run.outcome.hash, LoginForm.AsWrittenField)
           == LoginForm.Toasted(LoginForm.InvalidHashToast)
  {
    var run := SignUpForm.Register(isEmail, sha, email, phone, connected, now, createdAt, upload, items, Available);
    SignUpForm.RegisteredIff(isEmail, sha, email, phone, connected, now, createdAt, upload, items, Available);
    LoginForm.AsWrittenRefusesStoredHash(items, run.outcome.hash);
  }
}
