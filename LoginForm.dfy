/**
  * The login form: validates an email and a password, sends them to the login
  * service, stores the returned token, shows a success dialog and, once the user
  * acknowledges it, moves to the listing page. The submit button is disabled while
  * a submission is in flight.
  */
module LoginForm {
  import opened Optional
  import opened Validation
  import opened Presenter
  import Session

  /** The request body: exactly the two form values. */
  datatype Credentials = Credentials(email: string, password: string)

  const InitialValues := Credentials("", "")

  // ---------------------------------------------------------------- validation

  function Fields(c: Credentials): map<string, Value> {
    map["email" := Text(c.email), "password" := Text(c.password)]
  }

  const LoginSchema: Schema := [
    FieldRules("email", [Email("Invalid email format"), Required("Email is required")]),
    FieldRules("password", [Required("Password is required")])
  ]

  lemma LoginSchemaDistinct()
    ensures DistinctNames(LoginSchema)
  {
  }

  /** The inline field errors for the current values; `isEmail` is the email syntax the schema library checks. */
  function LoginErrors(c: Credentials, isEmail: string -> bool): map<string, string> {
    LoginSchemaDistinct();
    Validate(LoginSchema, Fields(c), isEmail)
  }

  lemma FieldsLookup(c: Credentials)
    ensures ValueOf(Fields(c), "email") == Text(c.email)
    ensures ValueOf(Fields(c), "password") == Text(c.password)
  {
    assert "email"[0] != "password"[0];
  }

  lemma LoginEntry(c: Credentials, k: nat, val: Value, isEmail: string -> bool)
    requires k < |LoginSchema|
    requires ValueOf(Fields(c), LoginSchema[k].name) == val
    ensures Find(LoginErrors(c, isEmail), LoginSchema[k].name) == FirstFailure(LoginSchema[k].rules, val, isEmail)
  {
    LoginSchemaDistinct();
  }

  lemma EmailRules(s: string, isEmail: string -> bool)
    ensures FirstFailure(LoginSchema[0].rules, Text(s), isEmail) ==
      if s == "" then Some("Email is required")
      else if !isEmail(s) then Some("Invalid email format")
      else None
  {
  }

  lemma PasswordRules(s: string, isEmail: string -> bool)
    ensures FirstFailure(LoginSchema[1].rules, Text(s), isEmail) ==
      if s == "" then Some("Password is required") else None
  {
  }

  /**
    * An empty email is required; a non-empty one that is not an email address is
    * reported as malformed; a well-formed one has no entry. The format rule comes
    * first in the table but never speaks for an empty field.
    */
  lemma EmailRule(c: Credentials, isEmail: string -> bool)
    ensures Find(LoginErrors(c, isEmail), "email") ==
      if c.email == "" then Some("Email is required")
      else if !isEmail(c.email) then Some("Invalid email format")
      else None
  {
    FieldsLookup(c);
    LoginEntry(c, 0, Text(c.email), isEmail);
    EmailRules(c.email, isEmail);
  }

  lemma PasswordRule(c: Credentials, isEmail: string -> bool)
    ensures Find(LoginErrors(c, isEmail), "password") ==
      if c.password == "" then Some("Password is required") else None
  {
    FieldsLookup(c);
    LoginEntry(c, 1, Text(c.password), isEmail);
    PasswordRules(c.password, isEmail);
  }

  /** Only the two declared fields can have an entry. */
  lemma LoginKeys(c: Credentials, isEmail: string -> bool)
    ensures forall name | name in LoginErrors(c, isEmail) :: name == "email" || name == "password"
  {
    LoginSchemaDistinct();
    forall name | name in LoginErrors(c, isEmail)
      ensures name == "email" || name == "password"
    {
      assert Declares(LoginSchema, name);
      var k :| 0 <= k < |LoginSchema| && LoginSchema[k].name == name;
      assert k == 0 || k == 1;
    }
  }

  /** The credentials pass validation exactly when the email is a well-formed address and the password is not empty. */
  lemma LoginValidIff(c: Credentials, isEmail: string -> bool)
    ensures LoginErrors(c, isEmail) == map[] <==>
      c.email != "" && isEmail(c.email) && c.password != ""
  {
    EmailRule(c, isEmail);
    PasswordRule(c, isEmail);
    var errors := LoginErrors(c, isEmail);
    if errors != map[] {
      var name :| name in errors;
      assert name == "email" || name == "password" by {
        LoginKeys(c, isEmail);
      }
      assert Find(errors, name).Some?;
    }
  }

  // ------------------------------------------------------------ the form state

  /** The login service's answer: a token, or a refusal (an error status or no answer at all). */
  datatype LoginReply = Token(token: string) | Refused

  const LoginSaved := Notified("Success!", "Logged in successfully!")

  const ListingPage := "/car"

  /** Every move to another page comes after the success dialog was shown. */
  ghost predicate NavigatesAfterNotice(effects: seq<Effect>) {
    forall i | 0 <= i < |effects| && effects[i].Navigated? ::
      exists j | 0 <= j < i :: effects[j] == LoginSaved
  }

  /** Appending keeps the order: a new move is allowed only once the dialog has been shown. */
  lemma NavigatesAfterNoticeAppend(effects: seq<Effect>, e: Effect)
    requires NavigatesAfterNotice(effects)
    requires e.Navigated? ==> LoginSaved in effects
    ensures NavigatesAfterNotice(effects + [e])
  {
    var all := effects + [e];
    forall i | 0 <= i < |all| && all[i].Navigated?
      ensures exists j | 0 <= j < i :: all[j] == LoginSaved
    {
      if i < |effects| {
        var j :| 0 <= j < i && effects[j] == LoginSaved;
        assert all[j] == LoginSaved;
      } else {
        var j :| 0 <= j < |effects| && effects[j] == LoginSaved;
        assert all[j] == LoginSaved;
      }
    }
  }

  /** Every body in the log passed validation. */
  ghost predicate AllValidated(requests: seq<Credentials>, isEmail: string -> bool) {
    forall r | r in requests :: LoginErrors(r, isEmail) == map[]
  }

  /**
    * The login form's invariant over its state: a dialog precedes every move, a
    * waiting move goes to the listing page after a success dialog, a request is in
    * flight exactly while the form is submitting and is the last body sent, and
    * every body ever sent passed validation.
    */
  ghost predicate Consistent(effects: seq<Effect>, pendingNavigation: Option<string>, submitting: bool,
                             inFlight: Option<Credentials>, requests: seq<Credentials>, isEmail: string -> bool)
  {
    NavigatesAfterNotice(effects) &&
    (pendingNavigation.Some? ==> pendingNavigation == Some(ListingPage) && LoginSaved in effects) &&
    (inFlight.Some? <==> submitting) &&
    (inFlight.Some? ==> requests != [] && requests[|requests| - 1] == inFlight.value) &&
    AllValidated(requests, isEmail)
  }

  /** A token answer keeps the invariant: the dialog is logged, the move waits, nothing is in flight. */
  lemma AcceptKeepsConsistent(effects: seq<Effect>, pendingNavigation: Option<string>, submitting: bool,
                              inFlight: Option<Credentials>, requests: seq<Credentials>, isEmail: string -> bool)
    requires Consistent(effects, pendingNavigation, submitting, inFlight, requests, isEmail)
    ensures Consistent(effects + [LoginSaved], Some(ListingPage), false, None, requests, isEmail)
  {
    NavigatesAfterNoticeAppend(effects, LoginSaved);
    assert (effects + [LoginSaved])[|effects|] == LoginSaved;
  }

  class Login {
    var values: Credentials
    var error: string
    var submitting: bool
    var effects: seq<Effect>               // dialogs shown and pages visited, in order
    var pendingNavigation: Option<string>  // the move that waits for the dialog to be acknowledged
    var requests: seq<Credentials>         // bodies sent to the login service, in order
    var inFlight: Option<Credentials>      // the body sent at the last click, while its answer is awaited
    const storage: Session.Storage
    const isEmail: string -> bool          // the email syntax the schema checks

    /**
      * The form's state meets `Consistent`.
      */
    ghost predicate Valid()
      reads this
    {
      Consistent(effects, pendingNavigation, submitting, inFlight, requests, isEmail)
    }

    constructor (storage: Session.Storage, isEmail: string -> bool)
      ensures Valid()
      ensures values == InitialValues && error == "" && !submitting && inFlight == None
      ensures effects == [] && pendingNavigation == None && requests == []
      ensures this.storage == storage && this.isEmail == isEmail
    {
      values := InitialValues;
      error := "";
      submitting := false;
      effects := [];
      pendingNavigation := None;
      requests := [];
      inFlight := None;
      this.storage := storage;
      this.isEmail := isEmail;
    }

    /** The submit button is disabled while a submission is in flight. */
    function SubmitEnabled(): bool
      reads this
    {
      !submitting
    }

    /** The user edits fields, also while a request is in flight; nothing else changes. */
    method SetValues(c: Credentials)
      requires Valid()
      modifies this
      ensures Valid()
      ensures values == c
      ensures error == old(error) && submitting == old(submitting) && effects == old(effects)
      ensures pendingNavigation == old(pendingNavigation) && requests == old(requests)
      ensures inFlight == old(inFlight)
    {
      values := c;
    }

    /**
      * A click on submit. A disabled button does nothing. Otherwise the form marks
      * itself submitting and validates; a field error ends the attempt and clears
      * the mark again, and valid values are sent to the login service at once.
      */
    method StartSubmit() returns (dispatch: bool)
      requires Valid()
      modifies this
      ensures Valid()
      ensures dispatch <==> old(SubmitEnabled()) && LoginErrors(values, isEmail) == map[]
      ensures submitting == (old(submitting) || dispatch)
      ensures dispatch ==> requests == old(requests) + [values] && inFlight == Some(values)
      ensures !dispatch ==> requests == old(requests) && inFlight == old(inFlight)
      ensures values == old(values) && error == old(error) && effects == old(effects)
      ensures pendingNavigation == old(pendingNavigation)
    {
      if submitting {
        return false;
      }
      submitting := true;
      dispatch := LoginErrors(values, isEmail) == map[];
      if dispatch {
        requests := requests + [values];
        inFlight := Some(values);
      } else {
        submitting := false;
      }
    }

    /**
      * The answer to the body in flight arrives. A token is stored under "token",
      * the success dialog is shown, and the move to the listing page waits for its
      * acknowledgement. A refusal only sets the inline error: no token is written
      * and no move is scheduled. Either way the form is no longer submitting.
      */
    method HandleSubmit(service: Credentials -> LoginReply)
      requires Valid()
      requires inFlight.Some?
      modifies this, storage
      ensures Valid()
      ensures !submitting && inFlight == None
      ensures requests == old(requests) && values == old(values)
      ensures var reply := service(old(inFlight).value);
        if reply.Token? then
          storage.items == old(storage.items)[Session.TokenKey := reply.token] &&
          effects == old(effects) + [LoginSaved] && pendingNavigation == Some(ListingPage) &&
          error == old(error)
        else
          storage.items == old(storage.items) && effects == old(effects) &&
          pendingNavigation == old(pendingNavigation) && error == "Invalid credentials"
    {
      var reply := service(inFlight.value);
      if reply.Token? {
        Accept(reply.token);
      } else {
        Refuse();
      }
    }

    /** The service issued `token`: store it, show the dialog, schedule the move, stop submitting. */
    method Accept(token: string)
      requires Valid() && inFlight.Some?
      modifies this, storage
      ensures Valid() && !submitting && inFlight == None
      ensures requests == old(requests) && values == old(values) && error == old(error)
      ensures storage.items == old(storage.items)[Session.TokenKey := token]
      ensures effects == old(effects) + [LoginSaved] && pendingNavigation == Some(ListingPage)
    {
      AcceptKeepsConsistent(effects, pendingNavigation, submitting, inFlight, requests, isEmail);
      effects := effects + [LoginSaved];
      pendingNavigation := Some(ListingPage);
      inFlight := None;
      submitting := false;
      storage.SetItem(Session.TokenKey, token);
    }

    /** The service refused: only the inline error is set, and the form stops submitting. */
    method Refuse()
      requires Valid() && inFlight.Some?
      modifies this
      ensures Valid() && !submitting && inFlight == None
      ensures requests == old(requests) && values == old(values) && effects == old(effects)
      ensures pendingNavigation == old(pendingNavigation) && error == "Invalid credentials"
    {
      error := "Invalid credentials";
      inFlight := None;
      submitting := false;
    }

    /** The user closes the success dialog: the waiting move to the listing page happens now. */
    method AcknowledgeNotice()
      requires Valid()
      modifies this
      ensures Valid()
      ensures old(pendingNavigation).Some? ==>
        effects == old(effects) + [Navigated(old(pendingNavigation).value)] && pendingNavigation == None
      ensures old(pendingNavigation).None? ==>
        effects == old(effects) && pendingNavigation == None
      ensures values == old(values) && error == old(error) && submitting == old(submitting)
      ensures requests == old(requests) && inFlight == old(inFlight)
    {
      match pendingNavigation
      case Some(path) =>
        NavigatesAfterNoticeAppend(effects, Navigated(path));
        effects := effects + [Navigated(path)];
        pendingNavigation := None;
      case None =>
    }
  }

  /** Refused credentials write nothing and go nowhere; the button is enabled again. */
  method RefusedScenario(email: string, password: string, isEmail: string -> bool)
    requires email != "" && isEmail(email) && password != ""
  {
    var storage := new Session.Storage();
    var form := new Login(storage, isEmail);
    form.SetValues(Credentials(email, password));
    LoginValidIff(form.values, isEmail);
    var dispatch := form.StartSubmit();
    assert dispatch && !form.SubmitEnabled();
    form.HandleSubmit(c => Refused);
    assert form.error == "Invalid credentials" && storage.items == map[] && form.effects == [];
    assert form.SubmitEnabled() && form.requests == [Credentials(email, password)];
  }

  /**
    * Accepted credentials store the token, then move on once the dialog is closed;
    * an edit while the request is in flight does not change what was sent.
    */
  method AcceptedScenario(email: string, password: string, isEmail: string -> bool)
    requires email != "" && isEmail(email) && password != ""
  {
    var storage := new Session.Storage();
    var form := new Login(storage, isEmail);
    form.SetValues(Credentials(email, password));
    LoginValidIff(form.values, isEmail);
    var dispatch := form.StartSubmit();
    form.SetValues(InitialValues);
    form.HandleSubmit(c => if c == Credentials(email, password) then Token("t") else Refused);
    assert form.requests == [Credentials(email, password)];
    assert storage.GetItem(Session.TokenKey) == Some("t") && form.effects == [LoginSaved];
    form.AcknowledgeNotice();
    assert form.effects == [LoginSaved, Navigated("/car")];
  }
}
