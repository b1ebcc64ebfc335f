/** The sign-up page that registers straight with the authentication
    service: admin codes are checked against a fixed list in the page, and
    the account details travel as sign-up metadata. */
module RegisterFallback {
  import opened Seqs
  import opened RegisterForm
  import opened RegisterPage

  /** The codes the page accepts for an admin account. */
  const AdminAllowList: seq<string> := ["ADMIN2024", "MATMARKET_ADMIN", "SUPER_ADMIN_123"]

  /** `validCodes.includes(code)`: an exact, case-sensitive match. */
  function ValidateAdminCode(code: string): (r: bool)
    ensures r <==> code == "ADMIN2024" || code == "MATMARKET_ADMIN" || code == "SUPER_ADMIN_123"
  {
    code in AdminAllowList
  }

  /** `validateForm` of this page: the shared checks, with the allow-list
      standing in for server verification. */
  function FallbackValidate(f: FormData, t: UserType): (r: bool)
    ensures r && t == Admin ==> f.confirmationCode in AdminAllowList
    ensures t != Admin ==> (r <==> ValidateForm(f, t, false))
    ensures r <==> forall e :: !Fails(f, t, ValidateAdminCode(f.confirmationCode), e)
  {
    ValidateForm(f, t, ValidateAdminCode(f.confirmationCode))
  }

  /** The `options.data` object passed to `signUp`. Unlike the server path,
      the company's optional numbers are sent as typed, empty or not. */
  datatype Metadata = Metadata(
    name: string, role: string, phone: Option<string>, companyName: Option<string>,
    registrationNumber: Option<string>, vatNumber: Option<string>, isHybrid: bool, isVerified: bool)

  datatype SignUp = SignUp(email: string, password: string, data: Metadata)

  function SignUpMetadata(f: FormData, t: UserType): (r: Metadata)
    ensures r.name == f.name && r.role == Role(t, f.isHybrid) && r.phone == OrNull(f.phone)
    ensures r.isVerified <==> t == Admin
    ensures t == Company ==> r.companyName == Some(f.companyName) && r.registrationNumber == Some(f.registrationNumber)
                             && r.vatNumber == Some(f.vatNumber) && r.isHybrid == f.isHybrid
    ensures t != Company ==> r.companyName.None? && r.registrationNumber.None? && r.vatNumber.None? && !r.isHybrid
  {
    var company := t == Company;
    Metadata(f.name, Role(t, f.isHybrid), OrNull(f.phone),
             if company then Some(f.companyName) else None,
             if company then Some(f.registrationNumber) else None,
             if company then Some(f.vatNumber) else None,
             if company then f.isHybrid else false,
             t == Admin)
  }

  /** A ticked hybrid box on a customer or admin form leaves no trace. */
  lemma HybridOnlyForCompanies(f: FormData, t: UserType)
    requires t != Company
    ensures SignUpMetadata(f, t) == SignUpMetadata(f.(isHybrid := !f.isHybrid), t)
  {
  }

  class FallbackPage {
    var form: FormData
    var userType: UserType

    constructor ()
      ensures form == EmptyForm && userType == Customer
    {
      form := EmptyForm;
      userType := Customer;
    }

    /** `handleInputChange` and the checkboxes: only the named field changes. */
    method HandleInputChange(e: InputEvent)
      modifies this
      ensures form == ApplyInput(old(form), e) && userType == old(userType)
    {
      form := ApplyInput(form, e);
    }

    method SetUserType(t: UserType)
      modifies this
      ensures userType == t && form == old(form)
    {
      userType := t;
    }

    /** `handleSubmit`: the sign-up call made when the checks pass. */
    method HandleSubmit() returns (r: Option<SignUp>)
      ensures r.None? <==> !FallbackValidate(form, userType)
      ensures r.Some? ==> r.value == SignUp(form.email, form.password, SignUpMetadata(form, userType))
      ensures r.Some? && r.value.data.isVerified ==> form.confirmationCode in AdminAllowList
    {
      if !FallbackValidate(form, userType) {
        return None;
      }
      r := Some(SignUp(form.email, form.password, SignUpMetadata(form, userType)));
    }
  }
}
