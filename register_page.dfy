/** The sign-up page that goes through the registration server: the form,
    the admin code check against the server, and the request it submits. */
module RegisterPage {
  import opened Seqs
  import opened Strings
  import opened RegisterForm

  /** `value || null`: an empty text box is sent as null. */
  function OrNull(s: string): (r: Option<string>)
    ensures r.None? <==> s == ""
    ensures r.Some? ==> r.value == s
  {
    if s == "" then None else Some(s)
  }

  datatype CompanyFields = CompanyFields(
    companyName: string, registrationNumber: Option<string>, vatNumber: Option<string>, isHybrid: bool)

  /** The JSON body of a registration request; `company` holds the keys only
      a company request carries, `confirmationCode` the key only an admin
      request carries. */
  datatype Payload = Payload(
    email: string, password: string, name: string, phone: Option<string>,
    company: Option<CompanyFields>, confirmationCode: Option<string>)

  datatype Request = Request(endpoint: string, payload: Payload)

  /** The endpoint and body `handleSubmit` posts for an account kind. */
  function BuildRequest(f: FormData, t: UserType): (r: Request)
    ensures r.endpoint == "register/" + UserTypeName(t)
    ensures r.payload.email == f.email && r.payload.password == f.password && r.payload.name == f.name
    ensures r.payload.phone == OrNull(f.phone)
    ensures r.payload.company.Some? <==> t == Company
    ensures r.payload.company.Some? ==>
      r.payload.company.value == CompanyFields(f.companyName, OrNull(f.registrationNumber), OrNull(f.vatNumber), f.isHybrid)
    ensures r.payload.confirmationCode.Some? <==> t == Admin
    ensures r.payload.confirmationCode.Some? ==> r.payload.confirmationCode.value == f.confirmationCode
  {
    var base := Payload(f.email, f.password, f.name, OrNull(f.phone), None, None);
    match t
    case Customer => Request("register/customer", base)
    case Company =>
      Request("register/company",
              base.(company := Some(CompanyFields(f.companyName, OrNull(f.registrationNumber), OrNull(f.vatNumber), f.isHybrid))))
    case Admin => Request("register/admin", base.(confirmationCode := Some(f.confirmationCode)))
  }

  /** What came back from `verify-admin-code`: a `valid` flag, or a failed call. */
  datatype VerifyReply = Reply(valid: bool) | CallFailed

  class SignUpPage {
    var form: FormData
    var userType: UserType
    var codeValidated: bool

    /** A code marked verified is never blank. */
    ghost predicate Valid()
      reads this
    {
      codeValidated ==> !IsBlank(form.confirmationCode)
    }

    constructor ()
      ensures form == EmptyForm && userType == Customer && !codeValidated
      ensures Valid()
    {
      form := EmptyForm;
      userType := Customer;
      codeValidated := false;
    }

    /** `handleInputChange` and the two checkboxes: the field is updated, and
        editing the confirmation code withdraws its verification. */
    method HandleInputChange(e: InputEvent)
      requires Valid()
      modifies this
      ensures form == ApplyInput(old(form), e) && userType == old(userType)
      ensures codeValidated == (old(codeValidated) && !(e.TextInput? && e.field == ConfirmationCodeField))
      ensures Valid()
    {
      form := ApplyInput(form, e);
      if e.TextInput? && e.field == ConfirmationCodeField {
        codeValidated := false;
      }
    }

    /** The account type radio group; a verified code stays verified. */
    method SetUserType(t: UserType)
      requires Valid()
      modifies this
      ensures userType == t && form == old(form) && codeValidated == old(codeValidated)
      ensures Valid()
    {
      userType := t;
    }

    /** The Verify button: a blank code sends nothing; otherwise the code is
        sent and a `valid` reply marks it verified, while a refusal or a
        failed call leaves the mark as it was. The reply is taken to arrive
        before any further edit of the code box. */
    method VerifyAdminCode(reply: VerifyReply) returns (sent: Option<string>)
      requires Valid()
      modifies this
      ensures sent.None? <==> IsBlank(form.confirmationCode)
      ensures sent.Some? ==> sent.value == form.confirmationCode
      ensures codeValidated == (old(codeValidated) || (sent.Some? && reply == Reply(true)))
      ensures form == old(form) && userType == old(userType)
      ensures Valid()
    {
      if IsBlank(form.confirmationCode) {
        return None;
      }
      sent := Some(form.confirmationCode);
      if reply.Reply? && reply.valid {
        codeValidated := true;
      }
    }

    /** `handleSubmit`: nothing is sent unless `validateForm` passes; an
        admin request then needs the verified mark and carries a non-blank
        code. */
    method HandleSubmit() returns (r: Option<Request>)
      ensures r.None? <==> !ValidateForm(form, userType, codeValidated)
      ensures r.Some? ==> r.value == BuildRequest(form, userType)
      ensures r.Some? && userType == Admin ==> codeValidated
      ensures Valid() && r.Some? && userType == Admin ==> !IsBlank(r.value.payload.confirmationCode.value)
    {
      if !ValidateForm(form, userType, codeValidated) {
        return None;
      }
      r := Some(BuildRequest(form, userType));
    }
  }

  /** The page's own checks make every request it sends carry the fields
      the server insists on for that endpoint. */
  lemma SubmittedRequestComplete(f: FormData, t: UserType, codeValidated: bool)
    requires ValidateForm(f, t, codeValidated)
    requires codeValidated ==> !IsBlank(f.confirmationCode)
    ensures var p := BuildRequest(f, t).payload;
      p.email != "" && p.password != "" && p.name != ""
      && (t == Company ==> p.company.value.companyName != "")
      && (t == Admin ==> p.confirmationCode.value != "")
  {
    if t == Admin {
      assert !IsBlank(f.confirmationCode);
    }
  }
}
