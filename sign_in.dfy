/** The sign-in form: field validation, the request it sends and the server-error wording. */
module SignIn {
  import opened Wrappers
  import opened Text
  import opened AuthValidation

  const EMAIL_REQUIRED := "Please enter your email."
  const EMAIL_INVALID := "Please enter a valid email address."
  /** One message for an empty and for a short password. */
  const PASSWORD_SHORT := "Your password must be at least 10 characters."
  const MIN_PASSWORD := 10
  const NO_ACCOUNT := "Sorry, this account doesn't exists"

  datatype FieldErrors = FieldErrors(email: string, password: string)

  const NoErrors := FieldErrors("", "")

  predicate HasErrors(e: FieldErrors) {
    e.email != "" || e.password != ""
  }

  /** The message each field ends up with once all checks have run. */
  function Errors(email: string, password: string): (e: FieldErrors)
    ensures e.email == EMAIL_REQUIRED <==> Blank(email)
    ensures e.email == EMAIL_INVALID <==> !Blank(email) && !ValidateEmail(email)
    ensures e.email == "" <==> ValidateEmail(email)
    ensures e.password == PASSWORD_SHORT <==> Utf16Length(password) < MIN_PASSWORD
    ensures e.password == "" <==> Utf16Length(password) >= MIN_PASSWORD
  {
    FieldErrors(
      if Blank(email) then EMAIL_REQUIRED else if !ValidateEmail(email) then EMAIL_INVALID else "",
      if Utf16Length(password) < MIN_PASSWORD then PASSWORD_SHORT else "")
  }

  /** The checks of `handleSignIn`, run in order, a later one overwriting an earlier message. */
  method ComputeErrors(email: string, password: string) returns (e: FieldErrors)
    ensures e == Errors(email, password)
  {
    e := NoErrors;
    if Blank(email) { e := e.(email := EMAIL_REQUIRED); }
    if password == [] { e := e.(password := PASSWORD_SHORT); }
    if !Blank(email) && !ValidateEmail(email) { e := e.(email := EMAIL_INVALID); }
    if password != [] && Utf16Length(password) < MIN_PASSWORD { e := e.(password := PASSWORD_SHORT); }
  }

  datatype Request = Request(email: string, password: string)

  function BuildRequest(email: string, password: string): Request {
    Request(Trim(email), password)
  }

  /** A request goes out only for input that passed every check, and then it carries a
      well-formed trimmed address and the password exactly as typed, at least 10 long. */
  lemma RequestWellFormed(email: string, password: string)
    requires !HasErrors(Errors(email, password))
    ensures var r := BuildRequest(email, password);
      && EmailShape(r.email) && Trim(r.email) == r.email
      && r.password == password && Utf16Length(r.password) >= MIN_PASSWORD
  {
    TrimOfTrimmed(Trim(email));
  }

  /** Sign-in asks for a longer password than sign-up: 8 and 9 characters pass there only. */
  lemma ThresholdsDiffer(email: string, password: string)
    requires ValidateEmail(email) && 8 <= Utf16Length(password) < 10
    ensures HasErrors(Errors(email, password))
  {
  }

  /** The server's wording is replaced when, in lower case, it reports invalid
      credentials or an unknown user; any other message is shown as sent. */
  function MapError(message: string): (shown: string)
    ensures Contains(Lower(message), "invalid login credentials") ==> shown == NO_ACCOUNT
    ensures Contains(Lower(message), "invalid credentials") ==> shown == NO_ACCOUNT
    ensures Contains(Lower(message), "user not found") ==> shown == NO_ACCOUNT
    ensures && !Contains(Lower(message), "invalid login credentials")
            && !Contains(Lower(message), "invalid credentials")
            && !Contains(Lower(message), "user not found")
      ==> shown == message
    ensures shown != NO_ACCOUNT ==> shown == message
    ensures shown != message ==> shown == NO_ACCOUNT
  {
    var lower := Lower(message);
    if Contains(lower, "invalid login credentials") || Contains(lower, "invalid credentials")
       || Contains(lower, "user not found")
    then NO_ACCOUNT
    else message
  }

  /** Case does not matter to the mapping: two messages that agree in lower case are
      either both replaced or both shown as sent. */
  lemma MapErrorIgnoresCase(m1: string, m2: string)
    requires Lower(m1) == Lower(m2)
    ensures || (MapError(m1) == NO_ACCOUNT && MapError(m2) == NO_ACCOUNT)
            || (MapError(m1) == m1 && MapError(m2) == m2)
  {
  }

  /** The phrases are recognised whatever their case. */
  lemma MapErrorExamples()
    ensures MapError("Invalid credentials") == NO_ACCOUNT
    ensures MapError("User Not Found") == NO_ACCOUNT
  {
    assert OccursAt(Lower("Invalid credentials"), "invalid credentials", 0);
    assert OccursAt(Lower("User Not Found"), "user not found", 0);
  }

  /** The state of the sign-in screen that `handleSignIn` drives. */
  class Form {
    var loading: bool
    var error: Option<string>
    var fieldErrors: FieldErrors

    constructor ()
      ensures !loading && error == None && fieldErrors == NoErrors
    {
      loading := false;
      error := None;
      fieldErrors := NoErrors;
    }

    /** The part of `handleSignIn` before the request is awaited. */
    method Submit(email: string, password: string) returns (request: Option<Request>)
      modifies this`loading, this`error, this`fieldErrors
      ensures error == None
      ensures fieldErrors == Errors(email, password)
      ensures request.Some? <==> !HasErrors(fieldErrors)
      ensures request.Some? ==> request.value == BuildRequest(email, password) && loading
      ensures request.None? ==> loading == old(loading)
    {
      error := None;
      fieldErrors := NoErrors;
      var next := ComputeErrors(email, password);
      if HasErrors(next) {
        fieldErrors := next;
        return None;
      }
      loading := true;
      request := Some(BuildRequest(email, password));
    }

    /** The part after the request returns: `failure` is the server's error message, if any. */
    method Complete(failure: Option<string>)
      modifies this`loading, this`error
      ensures !loading
      ensures error == if failure.Some? then Some(MapError(failure.value)) else old(error)
    {
      if failure.Some? {
        error := Some(MapError(failure.value));
      }
      loading := false;
    }
  }
}
