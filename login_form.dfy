/** The sign-in form: its local state cells, the effect that turns the store's
    error into a message and a mode, and the submit and mode-switch handlers with the
    actions they dispatch. */
module LoginForm {
  import opened Base
  import opened JsText
  import opened AuthSlice

  /** What the form hands to `dispatch`. */
  datatype Dispatched = ClearErrorCall | LoginCall(credentials: Credentials)

  const AccountNotFound := "Account not found. Please create an account."
  const InvalidCredentials := "Invalid email or password. Please try again."
  const GenericError := "An error occurred"
  const UsernameRequired := "Username is required"

  /** The message the error effect shows for the store's error. */
  function FormErrorFor(error: Option<ApiError>): (r: Option<string>)
    ensures r.Some? <==> error.Some?
    ensures r.Some? ==> r.value != ""
  {
    match error
    case None => None
    case Some(e) =>
      if e.status == 400 then Some(AccountNotFound)
      else if e.status == 401 then Some(InvalidCredentials)
      else Some(if e.message == "" then GenericError else e.message)
  }

  /** The signup mode after the error effect: a 400 turns it on, anything else leaves
      it as it was. */
  function ModeAfterError(isSignupMode: bool, error: Option<ApiError>): (r: bool)
    ensures r <==> isSignupMode || (error.Some? && error.value.status == 400)
  {
    isSignupMode || (error.Some? && error.value.status == 400)
  }

  /** The message for each kind of error: fixed texts for 400 and 401, the server's
      message for other statuses unless it is empty. */
  lemma ErrorMessages(e: ApiError)
    ensures e.status == 400 ==> FormErrorFor(Some(e)) == Some(AccountNotFound)
    ensures e.status == 401 ==> FormErrorFor(Some(e)) == Some(InvalidCredentials)
    ensures e.status != 400 && e.status != 401 && e.message != "" ==> FormErrorFor(Some(e)) == Some(e.message)
    ensures e.status != 400 && e.status != 401 && e.message == "" ==> FormErrorFor(Some(e)) == Some(GenericError)
  {
  }

  /** Whether submitting in signup mode is refused for this username: `trim()` leaves
      nothing of it. */
  predicate UsernameMissing(username: string) {
    Trim(username) == ""
  }

  /** A username is refused exactly when it is made of white space only. */
  lemma UsernameMissingIffBlank(username: string)
    ensures UsernameMissing(username) <==> forall i :: 0 <= i < |username| ==> IsJsWhitespace(username[i])
    ensures UsernameMissing("") && !UsernameMissing("a")
  {
    TrimEmpty(username);
    TrimEmpty("a");
    assert !IsJsWhitespace("a"[0]);
  }

  /** The action a submit dispatches, if any. */
  function SubmitAction(isSignupMode: bool, email: string, password: string, username: string): (r: Option<Dispatched>)
    ensures r.None? <==> isSignupMode && UsernameMissing(username)
    ensures r.Some? ==> r.value.LoginCall? && r.value.credentials.email == email && r.value.credentials.password == password
    ensures r.Some? ==> r.value.credentials.username == if isSignupMode then Some(username) else None
  {
    if isSignupMode then
      if UsernameMissing(username) then None else Some(LoginCall(Credentials(email, password, Some(username))))
    else Some(LoginCall(Credentials(email, password, None)))
  }

  /** The component's state cells. The email, password and username inputs are
      written by the input handlers, which only store the typed text. */
  class Form {
    var email: string
    var password: string
    var username: string
    var isSignupMode: bool
    var formError: Option<string>
    var dispatched: seq<Dispatched>

    /** The first render: empty inputs, login mode, no message, and the mount effect
        that dispatches `clearError`. */
    constructor ()
      ensures email == "" && password == "" && username == ""
      ensures !isSignupMode && formError == None
      ensures dispatched == [ClearErrorCall]
    {
      email := "";
      password := "";
      username := "";
      isSignupMode := false;
      formError := None;
      dispatched := [ClearErrorCall];
    }

    /** The typed text of the three inputs. */
    method SetInputs(e: string, p: string, u: string)
      modifies this`email, this`password, this`username
      ensures email == e && password == p && username == u
    {
      email := e;
      password := p;
      username := u;
    }

    /** The effect that runs when the store's error changes. */
    method ErrorEffect(error: Option<ApiError>)
      modifies this`isSignupMode, this`formError
      ensures isSignupMode == ModeAfterError(old(isSignupMode), error)
      ensures formError == FormErrorFor(error)
    {
      if error.Some? {
        if error.value.status == 400 {
          isSignupMode := true;
          formError := Some(AccountNotFound);
        } else if error.value.status == 401 {
          formError := Some(InvalidCredentials);
        } else {
          formError := Some(if error.value.message == "" then GenericError else error.value.message);
        }
      } else {
        formError := None;
      }
    }

    /** `handleSubmit`: in signup mode a blank username sets the message and
        dispatches nothing; otherwise the login is dispatched, with the username in
        signup mode only, and the message is left as it was. */
    method HandleSubmit()
      modifies this`formError, this`dispatched
      ensures isSignupMode && UsernameMissing(username) ==>
        formError == Some(UsernameRequired) && dispatched == old(dispatched)
      ensures !(isSignupMode && UsernameMissing(username)) ==>
        formError == old(formError) && dispatched == old(dispatched) + [SubmitAction(isSignupMode, email, password, username).value]
    {
      if isSignupMode {
        if Trim(username) == "" {
          formError := Some(UsernameRequired);
          return;
        }
        dispatched := dispatched + [LoginCall(Credentials(email, password, Some(username)))];
      } else {
        dispatched := dispatched + [LoginCall(Credentials(email, password, None))];
      }
    }

    /** `handleSwitchMode`: flips the mode, clears the message, dispatches
        `clearError`. */
    method HandleSwitchMode()
      modifies this`isSignupMode, this`formError, this`dispatched
      ensures isSignupMode == !old(isSignupMode) && formError == None
      ensures dispatched == old(dispatched) + [ClearErrorCall]
    {
      isSignupMode := !isSignupMode;
      formError := None;
      dispatched := dispatched + [ClearErrorCall];
    }
  }

  /** A sign-in the server answers with 400: the form submits, the store records the
      error, and the effect switches the form to signup mode with its message. A
      second submit with a blank username then stops at the form. */
  method UnknownAccountFlow(form: Form, store: AuthStore, e: string, p: string, message: Option<string>)
    requires !form.isSignupMode
    modifies form, store
    ensures form.isSignupMode && form.formError == Some(UsernameRequired)
    ensures store.error == Some(ApiError(400, message.GetOr("Login failed"))) && !store.loading
    ensures |form.dispatched| == |old(form.dispatched)| + 1
    ensures form.dispatched[|form.dispatched| - 1] == LoginCall(Credentials(e, p, None))
  {
    form.SetInputs(e, p, "");
    form.HandleSubmit();
    store.Login(Credentials(e, p, None), Threw(Thrown(Some(400), message)));
    form.ErrorEffect(store.error);
    assert form.formError == Some(AccountNotFound);
    form.HandleSubmit();
    assert Trim("") == "";
  }

  /** Leaving signup mode after an error: the form clears its message, the store's
      error is cleared by the dispatched action, and the effect that follows agrees. */
  method SwitchModeClears(form: Form, store: AuthStore)
    modifies form, store
    ensures form.formError == None && store.error == None
    ensures form.isSignupMode == !old(form.isSignupMode)
    ensures store.State() == old(store.State()).(error := None)
  {
    form.HandleSwitchMode();
    store.Dispatch(ClearError);
    form.ErrorEffect(store.error);
  }
}
