/** The registration form: four text fields, three checks run in order before
    an account is created, and the document stored for the new user. */
module Register {
  import opened JsString

  datatype RegisterField = Name | Email | Password | ConfirmPassword

  datatype RegisterData = RegisterData(name: string, email: string, password: string, confirmPassword: string)
  {
    function Get(f: RegisterField): string {
      match f
      case Name => name
      case Email => email
      case Password => password
      case ConfirmPassword => confirmPassword
    }

    /** `{ ...formData, [name]: value }` */
    function With(f: RegisterField, v: string): (r: RegisterData)
      ensures r.Get(f) == v
      ensures forall g :: g != f ==> r.Get(g) == Get(g)
    {
      match f
      case Name => this.(name := v)
      case Email => this.(email := v)
      case Password => this.(password := v)
      case ConfirmPassword => this.(confirmPassword := v)
    }
  }

  const EmptyRegisterData: RegisterData := RegisterData("", "", "", "")

  const PasswordsDiffer: string := "As senhas não coincidem!"
  const PasswordTooShort: string := "A senha deve ter pelo menos 6 caracteres."
  const NameMissing: string := "Por favor, informe seu nome."

  /** The minimum password length the form accepts. */
  const MinPasswordLength: int := 6

  /** The account-creation call: e-mail, password, and the name given as the
      display name. */
  datatype SignUp = SignUp(email: string, password: string, displayName: string)

  /** What `handleSubmit` does before any network call: an alert and stop, or
      account creation. */
  datatype SubmitOutcome = Alert(message: string) | Create(request: SignUp)

  /** The checks in source order: the confirmation first, then the length, then
      the name. */
  function PreSubmit(d: RegisterData): (r: SubmitOutcome)
    ensures d.password != d.confirmPassword ==> r == Alert(PasswordsDiffer)
    ensures d.password == d.confirmPassword && |d.password| < MinPasswordLength ==> r == Alert(PasswordTooShort)
    ensures d.password == d.confirmPassword && |d.password| >= MinPasswordLength && Blank(d.name) ==>
      r == Alert(NameMissing)
    ensures r.Create? <==> d.password == d.confirmPassword && |d.password| >= MinPasswordLength && !Blank(d.name)
    ensures r.Create? ==> r.request == SignUp(d.email, d.password, d.name)
  {
    if d.password != d.confirmPassword then Alert(PasswordsDiffer)
    else if |d.password| < MinPasswordLength then Alert(PasswordTooShort)
    else if Trim(d.name) == "" then Alert(NameMissing)
    else Create(SignUp(d.email, d.password, d.name))
  }

  /** A mismatch is reported even when the password is also too short and the
      name is blank. */
  lemma MismatchReportedFirst()
    ensures PreSubmit(RegisterData(" ", "a@b.c", "abc", "abd")) == Alert(PasswordsDiffer)
  {
  }

  /** Exactly six characters are enough; five are not. */
  lemma SixCharactersSuffice()
    ensures PreSubmit(RegisterData("Ana", "a@b.c", "123456", "123456")).Create?
    ensures PreSubmit(RegisterData("Ana", "a@b.c", "12345", "12345")) == Alert(PasswordTooShort)
  {
    assert "Ana"[0] == 'A';
  }

  /** The document stored for the new user (the timestamps aside). */
  datatype UserRecord = UserRecord(email: string, displayName: string, hasCompletedOnboarding: bool, authProvider: string)

  function CreatedDocument(request: SignUp): (r: UserRecord)
    ensures r.email == request.email && r.displayName == request.displayName
    ensures !r.hasCompletedOnboarding && r.authProvider == "email"
  {
    UserRecord(request.email, request.displayName, false, "email")
  }

  class RegisterForm {
    var formData: RegisterData

    constructor ()
      ensures formData == EmptyRegisterData
    {
      formData := EmptyRegisterData;
    }

    /** `handleChange`: the input named `f` takes `v`. */
    method HandleChange(f: RegisterField, v: string)
      modifies this
      ensures formData == old(formData).With(f, v)
    {
      formData := formData.With(f, v);
    }

    /** `handleSubmit` up to account creation: each failed check alerts and
        returns early. */
    method HandleSubmit() returns (outcome: SubmitOutcome)
      ensures outcome == PreSubmit(formData)
    {
      if formData.password != formData.confirmPassword {
        return Alert(PasswordsDiffer);
      }
      if |formData.password| < MinPasswordLength {
        return Alert(PasswordTooShort);
      }
      if Trim(formData.name) == "" {
        return Alert(NameMissing);
      }
      outcome := Create(SignUp(formData.email, formData.password, formData.name));
    }
  }
}
