/** The registration form shared by both sign-up pages: its fields, the input
    handler's field update, and the ordered validation whose first failing
    check decides the outcome. */
module RegisterForm {
  import opened Seqs

  datatype UserType = Customer | Company | Admin

  /** The `userType` string of each account kind. */
  function UserTypeName(t: UserType): string
  {
    match t
    case Customer => "customer"
    case Company => "company"
    case Admin => "admin"
  }

  /** The role an account is created with: a company that also buys is
      "hybrid". */
  function Role(t: UserType, isHybrid: bool): (r: string)
    ensures r == "hybrid" <==> t == Company && isHybrid
    ensures r != "hybrid" ==> r == UserTypeName(t)
  {
    if t == Company && isHybrid then "hybrid" else UserTypeName(t)
  }

  datatype FormData = FormData(
    email: string, password: string, confirmPassword: string, name: string,
    phone: string, companyName: string, registrationNumber: string, vatNumber: string,
    isHybrid: bool, confirmationCode: string, agreeToTerms: bool)

  const EmptyForm := FormData("", "", "", "", "", "", "", "", false, "", false)

  datatype TextField =
    | EmailField | PasswordField | ConfirmPasswordField | NameField | PhoneField
    | CompanyNameField | RegistrationNumberField | VatNumberField | ConfirmationCodeField

  datatype FlagField = IsHybridField | AgreeToTermsField

  /** A change event: a text box's `value`, or a checkbox's `checked`. */
  datatype InputEvent = TextInput(field: TextField, value: string) | CheckboxInput(flag: FlagField, checked: bool)

  function GetText(f: FormData, field: TextField): string
  {
    match field
    case EmailField => f.email
    case PasswordField => f.password
    case ConfirmPasswordField => f.confirmPassword
    case NameField => f.name
    case PhoneField => f.phone
    case CompanyNameField => f.companyName
    case RegistrationNumberField => f.registrationNumber
    case VatNumberField => f.vatNumber
    case ConfirmationCodeField => f.confirmationCode
  }

  function GetFlag(f: FormData, flag: FlagField): bool
  {
    match flag
    case IsHybridField => f.isHybrid
    case AgreeToTermsField => f.agreeToTerms
  }

  /** `{ ...prev, [name]: type === 'checkbox' ? checked : value }`: the named
      field takes the new value, every other field keeps its own. */
  function ApplyInput(f: FormData, e: InputEvent): (r: FormData)
    ensures e.TextInput? ==> GetText(r, e.field) == e.value
    ensures e.TextInput? ==> forall g :: g != e.field ==> GetText(r, g) == GetText(f, g)
    ensures e.TextInput? ==> forall g :: GetFlag(r, g) == GetFlag(f, g)
    ensures e.CheckboxInput? ==> GetFlag(r, e.flag) == e.checked
    ensures e.CheckboxInput? ==> forall g :: g != e.flag ==> GetFlag(r, g) == GetFlag(f, g)
    ensures e.CheckboxInput? ==> forall g :: GetText(r, g) == GetText(f, g)
  {
    match e
    case TextInput(field, v) =>
      (match field
       case EmailField => f.(email := v)
       case PasswordField => f.(password := v)
       case ConfirmPasswordField => f.(confirmPassword := v)
       case NameField => f.(name := v)
       case PhoneField => f.(phone := v)
       case CompanyNameField => f.(companyName := v)
       case RegistrationNumberField => f.(registrationNumber := v)
       case VatNumberField => f.(vatNumber := v)
       case ConfirmationCodeField => f.(confirmationCode := v))
    case CheckboxInput(flag, c) =>
      (match flag
       case IsHybridField => f.(isHybrid := c)
       case AgreeToTermsField => f.(agreeToTerms := c))
  }

  /** The checks of `validateForm`, in the order they run. */
  datatype FormError =
    | MissingRequired | PasswordMismatch | PasswordTooShort
    | MissingCompanyName | AdminCodeRejected | TermsNotAccepted

  function Rank(e: FormError): nat
  {
    match e
    case MissingRequired => 0
    case PasswordMismatch => 1
    case PasswordTooShort => 2
    case MissingCompanyName => 3
    case AdminCodeRejected => 4
    case TermsNotAccepted => 5
  }

  /** Whether check `e` fails on its own. `adminCodeOk` is what the page
      knows of the confirmation code (verified by the server, or found in an
      allow-list). */
  predicate Fails(f: FormData, t: UserType, adminCodeOk: bool, e: FormError)
  {
    match e
    case MissingRequired => f.email == "" || f.password == "" || f.name == ""
    case PasswordMismatch => f.password != f.confirmPassword
    case PasswordTooShort => |f.password| < 6
    case MissingCompanyName => t == Company && f.companyName == ""
    case AdminCodeRejected => t == Admin && !adminCodeOk
    case TermsNotAccepted => !f.agreeToTerms
  }

  /** The early-return chain of `validateForm`: the first check that fails,
      if any. */
  function FirstFailure(f: FormData, t: UserType, adminCodeOk: bool): (r: Option<FormError>)
    ensures r.None? <==> forall e :: !Fails(f, t, adminCodeOk, e)
    ensures r.Some? ==> Fails(f, t, adminCodeOk, r.value)
    ensures r.Some? ==> forall e :: Rank(e) < Rank(r.value) ==> !Fails(f, t, adminCodeOk, e)
  {
    if f.email == "" || f.password == "" || f.name == "" then
      assert Fails(f, t, adminCodeOk, MissingRequired);
      Some(MissingRequired)
    else if f.password != f.confirmPassword then
      assert Fails(f, t, adminCodeOk, PasswordMismatch);
      Some(PasswordMismatch)
    else if |f.password| < 6 then
      assert Fails(f, t, adminCodeOk, PasswordTooShort);
      Some(PasswordTooShort)
    else if t == Company && f.companyName == "" then
      assert Fails(f, t, adminCodeOk, MissingCompanyName);
      Some(MissingCompanyName)
    else if t == Admin && !adminCodeOk then
      assert Fails(f, t, adminCodeOk, AdminCodeRejected);
      Some(AdminCodeRejected)
    else if !f.agreeToTerms then
      assert Fails(f, t, adminCodeOk, TermsNotAccepted);
      Some(TermsNotAccepted)
    else None
  }

  /** `validateForm()`: true exactly when no check fails. */
  function ValidateForm(f: FormData, t: UserType, adminCodeOk: bool): (r: bool)
    ensures r <==> forall e :: !Fails(f, t, adminCodeOk, e)
    ensures r ==> f.email != "" && f.password != "" && f.name != "" && |f.password| >= 6
    ensures r ==> f.password == f.confirmPassword && f.agreeToTerms
    ensures r && t == Company ==> f.companyName != ""
    ensures r && t == Admin ==> adminCodeOk
  {
    assert !Fails(f, t, adminCodeOk, MissingRequired) ==> f.email != "" && f.password != "" && f.name != "";
    FirstFailure(f, t, adminCodeOk).None?
  }

  /** A customer or company form is judged alike whatever the page knows
      about an admin code. */
  lemma AdminCodeOnlyForAdmins(f: FormData, t: UserType, a: bool, b: bool)
    requires t != Admin
    ensures ValidateForm(f, t, a) == ValidateForm(f, t, b)
    ensures FirstFailure(f, t, a) == FirstFailure(f, t, b)
  {
  }

  /** A password of five characters is refused even when both copies agree
      and everything else is in order. */
  lemma ShortPasswordRefused(f: FormData, t: UserType, a: bool)
    requires f.email != "" && f.name != "" && f.password == f.confirmPassword && |f.password| == 5
    ensures FirstFailure(f, t, a) == Some(PasswordTooShort)
  {
  }
}
