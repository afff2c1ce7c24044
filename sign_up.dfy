/** The sign-up form: field validation, the request it sends and the server-error wording. */
module SignUp {
  import opened Wrappers
  import opened Text
  import opened AuthValidation

  const FIRST_NAME_REQUIRED := "Please enter your first name."
  const LAST_NAME_REQUIRED := "Please enter your last name."
  const EMAIL_REQUIRED := "Please enter your email."
  const EMAIL_INVALID := "Please enter a valid email address."
  /** Shown for an empty password, although a shorter one of 8 or 9 characters is accepted. */
  const PASSWORD_EMPTY := "Your password must be at least 10 characters."
  const PASSWORD_SHORT := "Your password must be at least 8 characters."
  const MIN_PASSWORD := 8
  const EMAIL_TAKEN := "this email is already being used"

  /** One message per field; the empty string means the field is fine. */
  datatype FieldErrors = FieldErrors(firstName: string, lastName: string, email: string, password: string)

  const NoErrors := FieldErrors("", "", "", "")

  predicate HasErrors(e: FieldErrors) {
    e.firstName != "" || e.lastName != "" || e.email != "" || e.password != ""
  }

  /** The message each field ends up with once all checks have run. */
  function Errors(firstName: string, lastName: string, email: string, password: string): (e: FieldErrors)
    ensures e.firstName == FIRST_NAME_REQUIRED <==> Blank(firstName)
    ensures e.firstName == "" <==> !Blank(firstName)
    ensures e.lastName == LAST_NAME_REQUIRED <==> Blank(lastName)
    ensures e.lastName == "" <==> !Blank(lastName)
    ensures e.email == EMAIL_REQUIRED <==> Blank(email)
    ensures e.email == EMAIL_INVALID <==> !Blank(email) && !ValidateEmail(email)
    ensures e.email == "" <==> ValidateEmail(email)
    ensures e.password == PASSWORD_EMPTY <==> password == []
    ensures e.password == PASSWORD_SHORT <==> 0 < Utf16Length(password) < MIN_PASSWORD
    ensures e.password == "" <==> Utf16Length(password) >= MIN_PASSWORD
  {
    FieldErrors(
      if Blank(firstName) then FIRST_NAME_REQUIRED else "",
      if Blank(lastName) then LAST_NAME_REQUIRED else "",
      if Blank(email) then EMAIL_REQUIRED else if !ValidateEmail(email) then EMAIL_INVALID else "",
      if password == [] then PASSWORD_EMPTY else if Utf16Length(password) < MIN_PASSWORD then PASSWORD_SHORT else "")
  }

  /** The checks of `handleSignUp`, run in order, a later one overwriting an earlier message. */
  method ComputeErrors(firstName: string, lastName: string, email: string, password: string) returns (e: FieldErrors)
    ensures e == Errors(firstName, lastName, email, password)
  {
    e := NoErrors;
    if Blank(firstName) { e := e.(firstName := FIRST_NAME_REQUIRED); }
    if Blank(lastName) { e := e.(lastName := LAST_NAME_REQUIRED); }
    if Blank(email) { e := e.(email := EMAIL_REQUIRED); }
    if password == [] { e := e.(password := PASSWORD_EMPTY); }
    if !Blank(email) && !ValidateEmail(email) { e := e.(email := EMAIL_INVALID); }
    if password != [] && Utf16Length(password) < MIN_PASSWORD { e := e.(password := PASSWORD_SHORT); }
  }

  /** What is sent to the auth service, `options.data` flattened. */
  datatype Request = Request(email: string, password: string, firstName: string, lastName: string, fullName: string)

  function BuildRequest(firstName: string, lastName: string, email: string, password: string): Request {
    Request(Trim(email), password, Trim(firstName), Trim(lastName),
            Trim(Trim(firstName) + " " + Trim(lastName)))
  }

  /** A request goes out only for input that passed every check, and then it carries a
      well-formed trimmed address, the password exactly as typed and at least 8
      characters long, non-blank trimmed names, and the full name as the two names
      joined by one space. */
  lemma RequestWellFormed(firstName: string, lastName: string, email: string, password: string)
    requires !HasErrors(Errors(firstName, lastName, email, password))
    ensures var r := BuildRequest(firstName, lastName, email, password);
      && EmailShape(r.email) && Trim(r.email) == r.email
      && r.password == password && Utf16Length(r.password) >= MIN_PASSWORD
      && r.firstName != [] && Trim(r.firstName) == r.firstName
      && r.lastName != [] && Trim(r.lastName) == r.lastName
      && r.fullName == r.firstName + " " + r.lastName
  {
    CleanInput(firstName, lastName, email, password);
    TrimTwice(email);
    TrimTwice(firstName);
    TrimTwice(lastName);
    TrimmedJoined(firstName, " ", lastName);
  }

  /** What a clean validation says about each field. */
  lemma CleanInput(firstName: string, lastName: string, email: string, password: string)
    requires !HasErrors(Errors(firstName, lastName, email, password))
    ensures ValidateEmail(email) && !Blank(firstName) && !Blank(lastName) && Utf16Length(password) >= MIN_PASSWORD
  {
    var e := Errors(firstName, lastName, email, password);
    assert e.firstName == "" && e.lastName == "" && e.email == "" && e.password == "";
  }

  /** The server's wording is replaced when, in lower case, it says the address is
      already registered or already exists; any other message is shown as sent. */
  function MapError(message: string): (shown: string)
    ensures Contains(Lower(message), "already registered") ==> shown == EMAIL_TAKEN
    ensures Contains(Lower(message), "already exists") ==> shown == EMAIL_TAKEN
    ensures !Contains(Lower(message), "already registered") && !Contains(Lower(message), "already exists")
      ==> shown == message
    ensures shown != EMAIL_TAKEN ==> shown == message
    ensures shown != message ==> shown == EMAIL_TAKEN
  {
    var lower := Lower(message);
    if Contains(lower, "already registered") || Contains(lower, "already exists") then EMAIL_TAKEN
    else message
  }

  /** Case does not matter to the mapping: two messages that agree in lower case are
      either both replaced or both shown as sent. */
  lemma MapErrorIgnoresCase(m1: string, m2: string)
    requires Lower(m1) == Lower(m2)
    ensures || (MapError(m1) == EMAIL_TAKEN && MapError(m2) == EMAIL_TAKEN)
            || (MapError(m1) == m1 && MapError(m2) == m2)
  {
  }

  /** The phrases are recognised whatever their case. */
  lemma MapErrorExamples()
    ensures MapError("Already registered") == EMAIL_TAKEN
    ensures MapError("ALREADY EXISTS") == EMAIL_TAKEN
  {
    assert OccursAt(Lower("Already registered"), "already registered", 0);
    assert OccursAt(Lower("ALREADY EXISTS"), "already exists", 0);
  }

  /** The state of the sign-up screen that `handleSignUp` drives. */
  class Form {
    var loading: bool
    var error: Option<string>
    var fieldErrors: FieldErrors
    var confirmed: bool

    constructor ()
      ensures !loading && error == None && fieldErrors == NoErrors && !confirmed
    {
      loading := false;
      error := None;
      fieldErrors := NoErrors;
      confirmed := false;
    }

    /** The part of `handleSignUp` before the request is awaited: errors are reset and the
        fields checked; invalid input stores the field errors and sends nothing, valid input
        sets `loading` and yields the request to send. */
    method Submit(firstName: string, lastName: string, email: string, password: string) returns (request: Option<Request>)
      modifies this`loading, this`error, this`fieldErrors
      ensures error == None
      ensures fieldErrors == Errors(firstName, lastName, email, password)
      ensures request.Some? <==> !HasErrors(fieldErrors)
      ensures request.Some? ==> request.value == BuildRequest(firstName, lastName, email, password) && loading
      ensures request.None? ==> loading == old(loading)
    {
      error := None;
      fieldErrors := NoErrors;
      var next := ComputeErrors(firstName, lastName, email, password);
      if HasErrors(next) {
        fieldErrors := next;
        return None;
      }
      loading := true;
      request := Some(BuildRequest(firstName, lastName, email, password));
    }

    /** The part after the request returns: `failure` is the server's error message, if any. */
    method Complete(failure: Option<string>)
      modifies this`loading, this`error, this`confirmed
      ensures !loading
      ensures failure.Some? ==> error == Some(MapError(failure.value)) && confirmed == old(confirmed)
      ensures failure.None? ==> error == old(error) && confirmed
    {
      if failure.Some? {
        error := Some(MapError(failure.value));
      } else {
        confirmed := true;
      }
      loading := false;
    }
  }
}
