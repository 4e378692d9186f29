/**
 * The registration page: its form values, the field errors `validate` reports,
 * the input handler and the submission with its server-error message.
 */
module SignUp {
  import opened Optional
  import Strings

  datatype Values = Values(fullname: string, phonenumber: string, user: string, password: string, repassword: string)

  function InitialValues(): Values {
    Values("", "", "individual", "", "")
  }

  /** The page's `errors` object; `None` where a key is absent or was cleared to `null`. */
  datatype Errors = Errors(fullname: Option<string>, phonenumber: Option<string>, password: Option<string>, repassword: Option<string>) {
    predicate IsEmpty() {
      fullname.None? && phonenumber.None? && password.None? && repassword.None?
    }
  }

  const NoErrors := Errors(None, None, None, None)

  /** The form inputs, by their `name` attribute. */
  datatype Field = Fullname | Phonenumber | User | Password | Repassword

  const ShortPassword := "Password must be at least 6 characters"

  /**
   * The errors of `validate`. A blank name or phone number and a retyped password that
   * differs are reported; a password shorter than 6 characters is reported as too short,
   * and since that check runs after the emptiness check and overwrites it, "Password is
   * required" is never what remains.
   */
  function SignupErrors(v: Values): (e: Errors)
    ensures e.fullname.Some? <==> Strings.IsBlank(v.fullname)
    ensures e.phonenumber.Some? <==> Strings.IsBlank(v.phonenumber)
    ensures e.password.Some? <==> |v.password| < 6
    ensures e.password.Some? ==> e.password.value == ShortPassword
    ensures e.repassword.Some? <==> v.password != v.repassword
  {
    var required := if v.password == "" then Some("Password is required") else None;
    Errors(
      if Strings.IsBlank(v.fullname) then Some("Username is required") else None,
      if Strings.IsBlank(v.phonenumber) then Some("Phone number is required") else None,
      if |v.password| < 6 then Some(ShortPassword) else required,
      if v.password != v.repassword then Some("Passwords don't match") else None)
  }

  /** The local `newErrors` of `validate`, written check by check. */
  method CollectErrors(v: Values) returns (newErrors: Errors)
    ensures newErrors == SignupErrors(v)
  {
    Strings.TrimEmptyIffBlank(v.fullname);
    Strings.TrimEmptyIffBlank(v.phonenumber);
    newErrors := NoErrors;
    if Strings.Trim(v.fullname) == "" {
      newErrors := newErrors.(fullname := Some("Username is required"));
    }
    if Strings.Trim(v.phonenumber) == "" {
      newErrors := newErrors.(phonenumber := Some("Phone number is required"));
    }
    if v.password == "" {
      newErrors := newErrors.(password := Some("Password is required"));
    }
    if |v.password| < 6 {
      newErrors := newErrors.(password := Some(ShortPassword));
    }
    if v.password != v.repassword {
      newErrors := newErrors.(repassword := Some("Passwords don't match"));
    }
  }

  /** The body of `POST /signup`. */
  datatype SignupRequest = SignupRequest(userName: string, phoneNumber: string, userType: string, password: string)

  function Request(v: Values): SignupRequest {
    SignupRequest(v.fullname, v.phonenumber, v.user, v.password)
  }

  /**
   * A form that passes `validate` with an account type chosen never meets the back end's
   * "All fields are required" rejection.
   */
  lemma ValidFormHasAllFields(v: Values)
    requires SignupErrors(v).IsEmpty() && v.user != ""
    ensures var r := Request(v); r.userName != "" && r.phoneNumber != "" && r.password != "" && r.userType != ""
  {
    assert !Strings.IsBlank(v.fullname) && !Strings.IsBlank(v.phonenumber);
  }

  /** The fresh form fails on name, phone number and password, and its two empty passwords agree. */
  lemma InitialValuesErrors()
    ensures SignupErrors(InitialValues()) == Errors(Some("Username is required"), Some("Phone number is required"), Some(ShortPassword), None)
  {
    assert Strings.IsBlank("");
  }

  /** How the sign-up request ended: a 2xx reply, or an error with its HTTP status and `message`, if any. */
  datatype Reply = Registered | Failed(status: Option<int>, message: Option<string>)

  /** The message shown for a failed request: the server's own `message` when it gave a non-empty one. */
  function ServerError(status: Option<int>, message: Option<string>): (r: string)
    ensures message.Some? && message.value != "" ==> r == message.value
    ensures (message.None? || message.value == "") && status == Some(409) ==> r == "User name already exists, try another one."
    ensures (message.None? || message.value == "") && status != Some(409) ==> r == "Registration failed. Please try again."
  {
    var fallback := if status == Some(409) then "User name already exists, try another one." else "Registration failed. Please try again.";
    if message.Some? && message.value != "" then message.value else fallback
  }

  class SignUpPage {
    var values: Values
    var errors: Errors
    var serverError: Option<string>
    var success: bool

    constructor ()
      ensures values == InitialValues() && errors == NoErrors && serverError == None && !success
    {
      values, errors, serverError, success := InitialValues(), NoErrors, None, false;
    }

    /** `handleChange`: the named input takes the value and its error, if any, is cleared. */
    method HandleChange(field: Field, value: string)
      modifies this`values, this`errors
      ensures values == match field
        case Fullname => old(values).(fullname := value)
        case Phonenumber => old(values).(phonenumber := value)
        case User => old(values).(user := value)
        case Password => old(values).(password := value)
        case Repassword => old(values).(repassword := value)
      ensures errors == match field
        case Fullname => old(errors).(fullname := None)
        case Phonenumber => old(errors).(phonenumber := None)
        case User => old(errors)
        case Password => old(errors).(password := None)
        case Repassword => old(errors).(repassword := None)
    {
      match field
      case Fullname =>
        values := values.(fullname := value);
        if errors.fullname.Some? { errors := errors.(fullname := None); }
      case Phonenumber =>
        values := values.(phonenumber := value);
        if errors.phonenumber.Some? { errors := errors.(phonenumber := None); }
      case User =>
        values := values.(user := value);
      case Password =>
        values := values.(password := value);
        if errors.password.Some? { errors := errors.(password := None); }
      case Repassword =>
        values := values.(repassword := value);
        if errors.repassword.Some? { errors := errors.(repassword := None); }
    }

    /** `validate`: the errors replace the shown ones; the form passes iff there are none. */
    method Validate() returns (ok: bool)
      modifies this`errors
      ensures errors == SignupErrors(values)
      ensures ok <==> errors.IsEmpty()
    {
      var newErrors := CollectErrors(values);
      errors := newErrors;
      ok := newErrors.IsEmpty();
    }

    /**
     * `postData`. The server error is cleared; a form that fails `validate` sends nothing.
     * Otherwise the request is sent, and its reply either marks success or sets the
     * server error.
     */
    method PostData(reply: Reply) returns (sent: Option<SignupRequest>)
      modifies this`errors, this`serverError, this`success
      ensures errors == SignupErrors(values)
      ensures sent.Some? <==> SignupErrors(values).IsEmpty()
      ensures sent.Some? ==> sent.value == Request(values)
      ensures sent.None? ==> serverError == None && success == old(success)
      ensures sent.Some? && reply.Registered? ==> success && serverError == None
      ensures sent.Some? && reply.Failed? ==>
        success == old(success) && serverError == Some(ServerError(reply.status, reply.message))
    {
      serverError := None;
      var ok := Validate();
      if !ok {
        return None;
      }
      sent := Some(Request(values));
      match reply
      case Registered =>
        success := true;
      case Failed(status, message) =>
        serverError := Some(ServerError(status, message));
    }
  }
}
