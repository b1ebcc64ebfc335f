/** The registration server's endpoints: the customer, company and admin
    sign-up routes and the admin code check. The authentication service and
    the `users` table answer through parameters. */
module Server {
  import opened Seqs
  import opened Strings
  import opened RegisterForm
  import opened RegisterPage
  import opened AdminCodes

  datatype Endpoint = CustomerEndpoint | CompanyEndpoint | AdminEndpoint

  /** The route of each sign-up endpoint, after the function's own prefix. */
  function Path(ep: Endpoint): string
  {
    match ep
    case CustomerEndpoint => "register/customer"
    case CompanyEndpoint => "register/company"
    case AdminEndpoint => "register/admin"
  }

  /** The fields the handlers read from the JSON body; a missing or null
      text key reads as "", a missing flag as false. */
  datatype Body = Body(
    email: string, password: string, name: string, phone: string, companyName: string,
    registrationNumber: string, vatNumber: string, isHybrid: bool, confirmationCode: string)

  /** What `auth.admin.createUser` answers. */
  datatype AuthResult = AuthCreated(userId: string) | AuthError(message: string)

  /** Whether the `users` insert went through; an error reply and a thrown
      exception are handled alike. */
  datatype ProfileResult = ProfileSaved | ProfileFailed

  /** A registration reply carries the auth account's id. When the profile
      insert succeeds, the server sends the `users` row instead, whose own
      id the database generates; the page reads neither. */
  datatype Reply =
    | ErrorReply(status: int, error: string)
    | Registered(message: string, authId: string, role: string)
    | CodeCheck(valid: bool)

  datatype AuthUser = AuthUser(id: string, email: string, password: string, name: string, role: string)

  /** A `users` row as the handler inserts it; `isVerified` is whether
      `is_verified: true` is written. */
  datatype Profile = Profile(
    authId: string, email: string, name: string, phone: Option<string>, role: string,
    companyName: Option<string>, registrationNumber: Option<string>, vatNumber: Option<string>,
    isVerified: bool)

  /** The handler's checks for missing fields: email, password and name
      everywhere, plus the company name or the confirmation code. */
  predicate RequiredPresent(ep: Endpoint, b: Body)
  {
    b.email != "" && b.password != "" && b.name != ""
    && (ep == CompanyEndpoint ==> b.companyName != "")
    && (ep == AdminEndpoint ==> b.confirmationCode != "")
  }

  function RequiredMessage(ep: Endpoint): string
  {
    match ep
    case CustomerEndpoint => "Email, password, and name are required"
    case CompanyEndpoint => "Email, password, name, and company name are required"
    case AdminEndpoint => "Email, password, name, and confirmation code are required"
  }

  const InvalidCodeMessage := "Invalid or expired confirmation code"

  /** The role the account is created with. */
  function RoleOf(ep: Endpoint, b: Body): (r: string)
    ensures r == "hybrid" <==> ep == CompanyEndpoint && b.isHybrid
    ensures r == "admin" <==> ep == AdminEndpoint
    ensures r == "customer" <==> ep == CustomerEndpoint
    ensures r == "company" <==> ep == CompanyEndpoint && !b.isHybrid
  {
    match ep
    case CustomerEndpoint => "customer"
    case CompanyEndpoint => if b.isHybrid then "hybrid" else "company"
    case AdminEndpoint => "admin"
  }

  /** The success message: the account kind, and a note when the profile
      row could not be written. */
  function SuccessMessage(role: string, pending: bool): (r: string)
  {
    var kind :=
      if role == "customer" then "Customer"
      else if role == "hybrid" then "Hybrid company"
      else if role == "company" then "Company"
      else "Admin";
    kind + " registered successfully" + (if pending then " (profile setup pending)" else "")
  }

  /** The `users` row each handler inserts. */
  function ProfileFor(ep: Endpoint, b: Body, userId: string): (r: Profile)
    ensures r.authId == userId && r.email == b.email && r.name == b.name && r.role == RoleOf(ep, b)
    ensures r.phone == OrNull(b.phone)
    ensures r.companyName.Some? <==> ep == CompanyEndpoint
    ensures ep == CompanyEndpoint ==>
      (r.companyName == Some(b.companyName)
       && r.registrationNumber == OrNull(b.registrationNumber) && r.vatNumber == OrNull(b.vatNumber))
    ensures ep != CompanyEndpoint ==> r.registrationNumber.None? && r.vatNumber.None?
    ensures r.isVerified <==> ep == AdminEndpoint
  {
    var company := ep == CompanyEndpoint;
    Profile(userId, b.email, b.name, OrNull(b.phone), RoleOf(ep, b),
            if company then Some(b.companyName) else None,
            if company then OrNull(b.registrationNumber) else None,
            if company then OrNull(b.vatNumber) else None,
            ep == AdminEndpoint)
  }

  /** What one sign-up request leaves behind: the reply, and the account and
      profile row it created, if any. */
  datatype Effect = Effect(reply: Reply, user: Option<AuthUser>, profile: Option<Profile>)

  /** A sign-up handler, given whether the admin code was accepted (read
      only on the admin route), the authentication service's answer and the
      `users` insert's outcome. */
  function Handle(ep: Endpoint, b: Body, codeOk: bool, auth: AuthResult, saved: ProfileResult): (r: Effect)
    ensures !RequiredPresent(ep, b) ==> r.reply == ErrorReply(400, RequiredMessage(ep))
    ensures RequiredPresent(ep, b) && ep == AdminEndpoint && !codeOk ==> r.reply == ErrorReply(403, InvalidCodeMessage)
    ensures RequiredPresent(ep, b) && (ep == AdminEndpoint ==> codeOk) && auth.AuthError? ==>
              r.reply == ErrorReply(400, auth.message)
    ensures r.user.Some? <==> RequiredPresent(ep, b) && (ep == AdminEndpoint ==> codeOk) && auth.AuthCreated?
    ensures r.user.Some? <==> r.reply.Registered?
    ensures r.user.Some? ==> r.user.value == AuthUser(auth.userId, b.email, b.password, b.name, RoleOf(ep, b))
    ensures r.reply.Registered? ==>
              r.reply == Registered(SuccessMessage(RoleOf(ep, b), saved == ProfileFailed), auth.userId, RoleOf(ep, b))
    ensures r.profile.Some? <==> r.user.Some? && saved == ProfileSaved
    ensures r.profile.Some? ==> r.profile.value == ProfileFor(ep, b, auth.userId)
  {
    if !RequiredPresent(ep, b) then Effect(ErrorReply(400, RequiredMessage(ep)), None, None)
    else if ep == AdminEndpoint && !codeOk then Effect(ErrorReply(403, InvalidCodeMessage), None, None)
    else
      match auth
      case AuthError(message) => Effect(ErrorReply(400, message), None, None)
      case AuthCreated(id) =>
        var role := RoleOf(ep, b);
        var user := AuthUser(id, b.email, b.password, b.name, role);
        var reply := Registered(SuccessMessage(role, saved == ProfileFailed), id, role);
        if saved == ProfileSaved then Effect(reply, Some(user), Some(ProfileFor(ep, b, id)))
        else Effect(reply, Some(user), None)
  }

  /** An admin account, and an account marked verified, come only from the
      admin route with an accepted code. */
  lemma AdminOnlyWithCode(ep: Endpoint, b: Body, codeOk: bool, auth: AuthResult, saved: ProfileResult)
    ensures var r := Handle(ep, b, codeOk, auth, saved);
      (r.user.Some? && r.user.value.role == "admin") <==>
        (ep == AdminEndpoint && codeOk && RequiredPresent(ep, b) && auth.AuthCreated?)
    ensures var r := Handle(ep, b, codeOk, auth, saved);
      r.profile.Some? && r.profile.value.isVerified ==> ep == AdminEndpoint && codeOk
  {
  }

  /** `verify-admin-code`: a missing code is a bad request; otherwise the
      table and the default list are consulted and nothing is marked used. */
  function VerifyEndpoint(rows: CodeRows, code: string, db: DbStatus): (r: Reply)
    ensures code == "" ==> r == ErrorReply(400, "Confirmation code is required")
    ensures code != "" ==> r == CodeCheck(ServerValidate(rows, code, db).ok)
  {
    if code == "" then ErrorReply(400, "Confirmation code is required")
    else CodeCheck(CodeIsValid(rows, code, db))
  }

  /** A code the check endpoint calls valid lets the admin route through,
      as long as nobody used it in between. */
  lemma VerifiedCodeAccepted(rows: CodeRows, code: string, db: DbStatus)
    requires VerifyEndpoint(rows, code, db) == CodeCheck(true)
    ensures ServerValidate(rows, code, db).ok
  {
  }

  /** The body the server reads from a request the sign-up page sends. */
  function BodyOf(p: Payload): (r: Body)
    ensures r.email == p.email && r.password == p.password && r.name == p.name
    ensures r.phone == (if p.phone.Some? then p.phone.value else "")
    ensures p.company.Some? ==> r.companyName == p.company.value.companyName && r.isHybrid == p.company.value.isHybrid
    ensures p.confirmationCode.Some? ==> r.confirmationCode == p.confirmationCode.value
  {
    var phone := if p.phone.Some? then p.phone.value else "";
    var company := if p.company.Some? then p.company.value else CompanyFields("", None, None, false);
    Body(p.email, p.password, p.name, phone, company.companyName,
         if company.registrationNumber.Some? then company.registrationNumber.value else "",
         if company.vatNumber.Some? then company.vatNumber.value else "",
         company.isHybrid,
         if p.confirmationCode.Some? then p.confirmationCode.value else "")
  }

  function EndpointFor(t: UserType): (ep: Endpoint)
    ensures Path(ep) == "register/" + UserTypeName(t)
  {
    match t
    case Customer => CustomerEndpoint
    case Company => CompanyEndpoint
    case Admin => AdminEndpoint
  }

  /** Whatever the sign-up page submits gets past the server's
      missing-field check of the route it posts to, and a company form's
      hybrid box decides the role. */
  lemma PageRequestsPassRequiredCheck(f: FormData, t: UserType, codeValidated: bool)
    requires ValidateForm(f, t, codeValidated)
    requires codeValidated ==> !IsBlank(f.confirmationCode)
    ensures var req := BuildRequest(f, t);
      req.endpoint == Path(EndpointFor(t)) && RequiredPresent(EndpointFor(t), BodyOf(req.payload))
    ensures t == Company ==> RoleOf(EndpointFor(t), BodyOf(BuildRequest(f, t).payload)) == Role(t, f.isHybrid)
  {
    SubmittedRequestComplete(f, t, codeValidated);
  }

  /** The server's state: the code table, the accounts the authentication
      service holds and the `users` rows. */
  class Backend {
    const codes: CodeTable
    var users: seq<AuthUser>
    var profiles: seq<Profile>

    constructor (codes: CodeTable)
      ensures this.codes == codes && users == [] && profiles == []
    {
      this.codes := codes;
      users := [];
      profiles := [];
    }

    /** Records what one handler call created. */
    method Record(e: Effect)
      modifies this
      ensures users == old(users) + (if e.user.Some? then [e.user.value] else [])
      ensures profiles == old(profiles) + (if e.profile.Some? then [e.profile.value] else [])
    {
      if e.user.Some? {
        users := users + [e.user.value];
      }
      if e.profile.Some? {
        profiles := profiles + [e.profile.value];
      }
    }

    /** `POST register/customer` and `POST register/company`. */
    method RegisterUser(ep: Endpoint, b: Body, auth: AuthResult, saved: ProfileResult) returns (reply: Reply)
      requires ep != AdminEndpoint
      modifies this
      ensures var e := Handle(ep, b, true, auth, saved);
        reply == e.reply
        && users == old(users) + (if e.user.Some? then [e.user.value] else [])
        && profiles == old(profiles) + (if e.profile.Some? then [e.profile.value] else [])
    {
      var e := Handle(ep, b, true, auth, saved);
      Record(e);
      reply := e.reply;
    }

    /** `POST register/admin`: the fields are checked, then the code is
        checked and marked used, and only then is the account created; a
        code is used up even when the account creation fails after it. */
    method RegisterAdmin(b: Body, db: DbStatus, auth: AuthResult, saved: ProfileResult) returns (reply: Reply)
      modifies this, codes
      ensures !RequiredPresent(AdminEndpoint, b) ==> codes.rows == old(codes.rows)
      ensures RequiredPresent(AdminEndpoint, b) ==>
        codes.rows == ServerValidate(old(codes.rows), b.confirmationCode, db).rows
      ensures var ok := RequiredPresent(AdminEndpoint, b) && ServerValidate(old(codes.rows), b.confirmationCode, db).ok;
        var e := Handle(AdminEndpoint, b, ok, auth, saved);
        reply == e.reply
        && users == old(users) + (if e.user.Some? then [e.user.value] else [])
        && profiles == old(profiles) + (if e.profile.Some? then [e.profile.value] else [])
    {
      var ok := false;
      if RequiredPresent(AdminEndpoint, b) {
        ok := codes.ValidateWithFallback(b.confirmationCode, db);
      }
      var e := Handle(AdminEndpoint, b, ok, auth, saved);
      Record(e);
      reply := e.reply;
    }
  }
}
