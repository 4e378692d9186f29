/** The sign-in page: its field errors, the input handler and how a reply sets success or an error. */
module SignIn {
  import opened Optional
  import Strings
  import Server

  datatype Values = Values(phoneNumber: string, password: string)

  /** The page's `errors` object; `None` where a key is absent or was cleared to `null`. */
  datatype Errors = Errors(phoneNumber: Option<string>, password: Option<string>) {
    predicate IsEmpty() {
      phoneNumber.None? && password.None?
    }
  }

  const NoErrors := Errors(None, None)

  datatype Field = PhoneNumber | Password

  /** The errors of `validate`: a blank phone number, an empty password. */
  function SigninErrors(v: Values): (e: Errors)
    ensures e.phoneNumber.Some? <==> Strings.IsBlank(v.phoneNumber)
    ensures e.password.Some? <==> v.password == ""
    ensures e.IsEmpty() <==> !Strings.IsBlank(v.phoneNumber) && v.password != ""
  {
    Errors(
      if Strings.IsBlank(v.phoneNumber) then Some("Phone number is required") else None,
      if v.password == "" then Some("Password is required") else None)
  }

  /** The local `newErrors` of `validate`, written check by check. */
  method CollectErrors(v: Values) returns (newErrors: Errors)
    ensures newErrors == SigninErrors(v)
  {
    Strings.TrimEmptyIffBlank(v.phoneNumber);
    newErrors := NoErrors;
    if Strings.Trim(v.phoneNumber) == "" {
      newErrors := newErrors.(phoneNumber := Some("Phone number is required"));
    }
    if v.password == "" {
      newErrors := newErrors.(password := Some("Password is required"));
    }
  }

  /** How the request ended: a 2xx reply with its `message`, an error reply with its `error`, or no reply. */
  datatype Reply = Replied(message: Option<string>) | Rejected(error: Option<string>) | NoResponse

  /** What a reply does to the page: success, and the server error shown. */
  function Outcome(reply: Reply): (r: (bool, Option<string>))
    ensures r.0 <==> reply == Replied(Some("Logged in successfully"))
    ensures reply.Rejected? ==> r.1 == Some(if reply.error.Some? && reply.error.value != "" then reply.error.value else "Login failed")
    ensures reply.NoResponse? ==> r.1 == Some("Ooops. Please try again.")
    ensures reply.Replied? ==> r.1 == None
  {
    match reply
    case Replied(message) => (message == Some("Logged in successfully"), None)
    case Rejected(error) => (false, Some(if error.Some? && error.value != "" then error.value else "Login failed"))
    case NoResponse => (false, Some("Ooops. Please try again."))
  }

  /** The reply the page receives for a back-end response. */
  function ReplyOf(resp: Server.Response<(nat, string)>): Reply {
    match resp
    case Ok(_, value) => Replied(Some(value.1))
    case Err(_, error) => Rejected(Some(error))
  }

  /**
   * Against the back end's sign-in, whose only success says "Logged in successfully" and
   * whose errors carry a non-empty text, the page succeeds exactly on success and shows
   * the back end's error otherwise.
   */
  lemma OutcomeOfServerReply(resp: Server.Response<(nat, string)>)
    requires resp.Ok? ==> resp.value.1 == "Logged in successfully"
    requires resp.Err? ==> resp.error != ""
    ensures Outcome(ReplyOf(resp)).0 <==> resp.Ok?
    ensures resp.Err? ==> Outcome(ReplyOf(resp)).1 == Some(resp.error)
  {
  }

  class SignInPage {
    var values: Values
    var errors: Errors
    var serverError: Option<string>
    var success: bool

    constructor ()
      ensures values == Values("", "") && errors == NoErrors && serverError == None && !success
    {
      values, errors, serverError, success := Values("", ""), NoErrors, None, false;
    }

    /** `handleChange`: the named input takes the value and its error, if any, is cleared. */
    method HandleChange(field: Field, value: string)
      modifies this`values, this`errors
      ensures field == PhoneNumber ==>
        values == old(values).(phoneNumber := value) && errors == old(errors).(phoneNumber := None)
      ensures field == Password ==>
        values == old(values).(password := value) && errors == old(errors).(password := None)
    {
      if field == PhoneNumber {
        values := values.(phoneNumber := value);
        if errors.phoneNumber.Some? { errors := errors.(phoneNumber := None); }
      } else {
        values := values.(password := value);
        if errors.password.Some? { errors := errors.(password := None); }
      }
    }

    /** `validate`: the errors replace the shown ones; the form passes iff there are none. */
    method Validate() returns (ok: bool)
      modifies this`errors
      ensures errors == SigninErrors(values)
      ensures ok <==> errors.IsEmpty()
    {
      var newErrors := CollectErrors(values);
      errors := newErrors;
      ok := newErrors.IsEmpty();
    }

    /**
     * `postData`. The server error is cleared; a form that fails `validate` sends nothing.
     * Otherwise the values are sent; success is set only by the exact success message,
     * and an error reply or no reply sets the server error.
     */
    method PostData(reply: Reply) returns (sent: Option<Values>)
      modifies this`errors, this`serverError, this`success
      ensures errors == SigninErrors(values)
      ensures sent.Some? <==> SigninErrors(values).IsEmpty()
      ensures sent.Some? ==> sent.value == values
      ensures sent.None? ==> serverError == None && success == old(success)
      ensures sent.Some? ==>
        success == (old(success) || Outcome(reply).0) && serverError == Outcome(reply).1
    {
      serverError := None;
      var ok := Validate();
      if !ok {
        return None;
      }
      sent := Some(values);
      match reply
      case Replied(message) =>
        if message == Some("Logged in successfully") {
          success := true;
        }
      case Rejected(error) =>
        serverError := Some(if error.Some? && error.value != "" then error.value else "Login failed");
      case NoResponse =>
        serverError := Some("Ooops. Please try again.");
    }
  }
}
