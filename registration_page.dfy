/** The registration form: a fixed-order validator, the request payload, and what a
    settled `POST /register` does. */
module Registration {
  import opened Wrappers

  datatype Form = Form(fName: string, lName: string, email: string, password: string, confirmPassword: string)

  /** The body of `POST /register`: only its optional `access_token` is read. */
  datatype RegisterResponse = RegisterResponse(accessToken: Option<string>)

  const AllFieldsRequired: string := "All fields are required."
  const PasswordsDoNotMatch: string := "Passwords do not match."
  const RegistrationFailed: string := "Registration failed. Please try again."

  predicate AnyFieldEmpty(f: Form)
  {
    f.fName == "" || f.lName == "" || f.email == "" || f.password == "" || f.confirmPassword == ""
  }

  /** The validation error, if any: the required-fields check first, then the match of the
      two passwords. */
  function Validate(f: Form): (error: Option<string>)
    ensures error == Some(AllFieldsRequired) <==> AnyFieldEmpty(f)
    ensures error == Some(PasswordsDoNotMatch) <==> !AnyFieldEmpty(f) && f.password != f.confirmPassword
    ensures error == None <==> !AnyFieldEmpty(f) && f.password == f.confirmPassword
  {
    if f.fName == "" || f.lName == "" || f.email == "" || f.password == "" || f.confirmPassword == "" then
      Some(AllFieldsRequired)
    else if f.password != f.confirmPassword then
      Some(PasswordsDoNotMatch)
    else
      None
  }

  /** The URL-encoded form fields, in order. */
  function Payload(f: Form): (fields: seq<(string, string)>)
    ensures |fields| == 4
    ensures fields[0] == ("fName", f.fName) && fields[1] == ("lName", f.lName)
    ensures fields[2] == ("email", f.email) && fields[3] == ("password", f.password)
  {
    [("fName", f.fName), ("lName", f.lName), ("email", f.email), ("password", f.password)]
  }

  /** The confirmation is never sent: no field is named after it, and the payload is the
      same for every value of it. */
  lemma PayloadOmitsConfirmation(f: Form, other: string)
    ensures forall i :: 0 <= i < |Payload(f)| ==> Payload(f)[i].0 != "confirmPassword"
    ensures Payload(f.(confirmPassword := other)) == Payload(f)
  {
  }

  /** `err.response?.data?.message || "Registration failed. Please try again."`. */
  function FailureMessage(message: Option<string>): (r: string)
    ensures Truthy(message) ==> r == message.value
    ensures !Truthy(message) ==> r == RegistrationFailed
    ensures r != ""
  {
    if Truthy(message) then message.value else RegistrationFailed
  }

  class RegistrationPage {
    var fName: string
    var lName: string
    var email: string
    var password: string
    var confirmPassword: string
    var error: string
    var acceptedTerms: bool
    /** The `authToken` entry of local storage, as far as this page writes it. */
    var storedToken: Option<string>

    function Current(): Form
      reads this
    {
      Form(fName, lName, email, password, confirmPassword)
    }

    constructor (storedToken: Option<string>)
      ensures Current() == Form("", "", "", "", "") && error == "" && !acceptedTerms
      ensures this.storedToken == storedToken
    {
      fName, lName, email, password, confirmPassword := "", "", "", "", "";
      error := "";
      acceptedTerms := false;
      this.storedToken := storedToken;
    }

    /** The five inputs' `onChange` handlers. */
    method Fill(f: Form)
      modifies this`fName, this`lName, this`email, this`password, this`confirmPassword
      ensures Current() == f
    {
      fName, lName, email, password, confirmPassword := f.fName, f.lName, f.email, f.password, f.confirmPassword;
    }

    /** The terms checkbox's `onChange`. */
    method ToggleTerms()
      modifies this`acceptedTerms
      ensures acceptedTerms == !old(acceptedTerms)
    {
      acceptedTerms := !acceptedTerms;
    }

    /** The submit button is disabled until the terms are accepted, which also blocks
        submitting with Enter. */
    predicate ProceedEnabled()
      reads this
    {
      acceptedTerms
    }

    /** `handleSubmit`, reachable only once the terms are accepted, given the outcome of
        `POST /register`: the error is cleared, then a validation error is shown and nothing
        is sent; otherwise the payload is sent, a truthy `access_token` is stored and the page
        navigates home, and a failure shows the server's message or the default one. */
    method HandleSubmit(response: Response<RegisterResponse>) returns (sent: Option<seq<(string, string)>>, navigatedHome: bool)
      requires ProceedEnabled()
      modifies this`error, this`storedToken
      ensures var invalid := Validate(Current());
        && sent == (if invalid.None? then Some(Payload(Current())) else None)
        && (invalid.Some? ==> error == invalid.value && storedToken == old(storedToken) && !navigatedHome)
      ensures sent.Some? && response.Ok? ==>
        error == "" &&
        navigatedHome == Truthy(response.data.accessToken) &&
        storedToken == (if navigatedHome then response.data.accessToken else old(storedToken))
      ensures sent.Some? && response.Failed? ==>
        error == FailureMessage(response.message) && storedToken == old(storedToken) && !navigatedHome
    {
      error := "";
      if fName == "" || lName == "" || email == "" || password == "" || confirmPassword == "" {
        error := AllFieldsRequired;
        return None, false;
      }
      if password != confirmPassword {
        error := PasswordsDoNotMatch;
        return None, false;
      }
      sent := Some(Payload(Current()));
      navigatedHome := false;
      match response {
        case Ok(body) =>
          if Truthy(body.accessToken) {
            storedToken := body.accessToken;
            navigatedHome := true;
          }
        case Failed(message) =>
          error := FailureMessage(message);
      }
    }
  }

  /** With an empty field and mismatched passwords, the required-fields error wins and
      nothing is sent. */
  method RequiredBeforeMismatch(f: Form, response: Response<RegisterResponse>) returns (sent: Option<seq<(string, string)>>, error: string)
    requires AnyFieldEmpty(f) && f.password != f.confirmPassword
    ensures sent == None && error == AllFieldsRequired
  {
    var page := new RegistrationPage(None);
    page.Fill(f);
    page.ToggleTerms();
    var navigated;
    sent, navigated := page.HandleSubmit(response);
    error := page.error;
  }
}
