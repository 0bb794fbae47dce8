/** The registration form: field edits, the client-side checks that run
    before any call, the call to the session store's `register`, and the
    error shown above the form. */
module RegisterPage {
  import opened Common
  import opened Api
  import AuthContext

  datatype Field = Name | Email | Password | ConfirmPassword

  datatype FormData = FormData(name: string, email: string, password: string, confirmPassword: string)

  const EmptyForm := FormData("", "", "", "")

  function FieldValue(f: FormData, k: Field): string {
    match k
    case Name => f.name
    case Email => f.email
    case Password => f.password
    case ConfirmPassword => f.confirmPassword
  }

  /** `{ ...formData, [name]: value }` */
  function With(f: FormData, k: Field, v: string): (r: FormData)
    ensures FieldValue(r, k) == v
    ensures forall j :: j != k ==> FieldValue(r, j) == FieldValue(f, j)
  {
    match k
    case Name => f.(name := v)
    case Email => f.(email := v)
    case Password => f.(password := v)
    case ConfirmPassword => f.(confirmPassword := v)
  }

  const MismatchMessage := "Passwords do not match"
  const TooShortMessage := "Password must be at least 6 characters long"
  const MinPasswordLength := 6

  /** The checks of `handleSubmit`, in order; `None` lets the form through. */
  function Validate(f: FormData): (r: Option<string>)
    ensures r.None? <==> f.password == f.confirmPassword && |f.password| >= MinPasswordLength
    ensures f.password != f.confirmPassword ==> r == Some(MismatchMessage)
    ensures f.password == f.confirmPassword && |f.password| < MinPasswordLength ==> r == Some(TooShortMessage)
  {
    if f.password != f.confirmPassword then Some(MismatchMessage)
    else if |f.password| < MinPasswordLength then Some(TooShortMessage)
    else None
  }

  /** What is sent to the server: the confirmation stays in the form. */
  function Payload(f: FormData): (p: Registration)
    ensures p.name == f.name && p.email == f.email && p.password == f.password
  {
    Registration(f.name, f.email, f.password)
  }

  /** `validationError || error`: a pending validation message hides the
      store's error. */
  function DisplayError(validationError: string, storeError: Option<string>): (r: Option<string>)
    ensures validationError != "" ==> r == Some(validationError)
    ensures validationError == "" ==> r == storeError
  {
    if validationError != "" then Some(validationError) else storeError
  }

  class RegisterView {
    const auth: AuthContext.AuthProvider
    var form: FormData
    var validationError: string
    /** Targets passed to `navigate`, oldest first. */
    var navigations: seq<string>

    /** A validation message on screen always describes the current form. */
    ghost predicate Valid()
      reads this, auth
    {
      auth.Valid() && (validationError == "" || Validate(form) == Some(validationError))
    }

    constructor (auth: AuthContext.AuthProvider)
      requires auth.Valid()
      ensures this.auth == auth && Valid()
      ensures form == EmptyForm && validationError == "" && navigations == []
    {
      this.auth := auth;
      form := EmptyForm;
      validationError := "";
      navigations := [];
    }

    /** An edit replaces exactly one field and clears the validation message. */
    method HandleChange(field: Field, value: string)
      requires Valid()
      modifies this
      ensures Valid()
      ensures FieldValue(form, field) == value
      ensures forall j :: j != field ==> FieldValue(form, j) == FieldValue(old(form), j)
      ensures validationError == "" && navigations == old(navigations)
    {
      form := With(form, field, value);
      validationError := "";
    }

    method HandleSubmit(response: Response<Session>)
      requires Valid()
      modifies this, auth, auth.api, auth.api.storage
      ensures Valid()
      ensures form == old(form)
      ensures Validate(form).Some? ==>
                validationError == Validate(form).value
                && navigations == old(navigations)
                && unchanged(auth) && unchanged(auth.api) && unchanged(auth.api.storage)
      ensures Validate(form).None? ==>
                validationError == ""
                && auth.api.sent == old(auth.api.sent) +
                     [Outgoing(AuthRegister(Payload(form)), old(auth.api.storage.entries))]
                && navigations == old(navigations) + (if response.Ok? then ["/"] else [])
                && auth.api.location == LocationAfter(old(auth.api.location), response)
                && (response.Ok? ==>
                      auth.dispatched == old(auth.dispatched) +
                        [AuthContext.RegisterStart, AuthContext.RegisterSuccess(response.data.user, response.data.token)]
                      && auth.api.storage.entries ==
                           WithSession(old(auth.api.storage.entries), response.data.token, response.data.user)
                      && auth.state.isAuthenticated
                      && auth.state.user == Some(response.data.user) && auth.state.token == Some(response.data.token)
                      && AuthContext.Synced(auth.state, auth.api.storage.entries))
                && (response.Err? ==>
                      auth.dispatched == old(auth.dispatched) +
                        [AuthContext.RegisterStart, AuthContext.RegisterFailure(FailureMessage(response, "Registration failed"))]
                      && auth.state.error == Some(FailureMessage(response, "Registration failed"))
                      && AuthContext.SameIdentity(auth.state, old(auth.state))
                      && auth.api.storage.entries == AfterCall(old(auth.api.storage.entries), response))
    {
      if form.password != form.confirmPassword {
        validationError := MismatchMessage;
        return;
      }
      if |form.password| < MinPasswordLength {
        validationError := TooShortMessage;
        return;
      }
      var result := auth.Register(Registration(form.name, form.email, form.password), response);
      if result.Succeeded? {
        navigations := navigations + ["/"];
      }
    }
  }
}
