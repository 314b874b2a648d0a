/**
 * The zod request schemas of src/auth/auth.dto.ts as validators.
 *
 * A validator returns the list of issues zod would report: every field is
 * checked, a missing field reports only that it is missing, and a present
 * string runs all of its checks. A body is accepted when the list is empty.
 * zod's email pattern is the abstract predicate `isEmail`; a length is the
 * number of characters.
 */
module AuthDto {
  import opened Wrappers

  datatype Field = Username | Fullname | Email | Phone | Password | Role

  datatype Problem = Missing | NotAnEmail | TooShort(min: nat) | TooLong(max: nat) | NotAnOption

  datatype Issue = Issue(field: Field, problem: Problem)

  /** zod's email pattern, left abstract. */
  type EmailPattern = string -> bool

  /** A request body; `None` is a field that is absent or not a string. */
  datatype LoginInput = LoginInput(email: Option<string>, password: Option<string>)

  datatype RegisterInput = RegisterInput(
    username: Option<string>, fullname: Option<string>, email: Option<string>,
    phone: Option<string>, password: Option<string>, role: Option<string>)

  /** The values of `z.enum(["Customer", "Seller"])`. */
  const RegisterRoles: set<string> := {"Customer", "Seller"}

  /** No issue in `issues` concerns field `f`. */
  predicate FieldOk(issues: seq<Issue>, f: Field) {
    forall i :: i in issues ==> i.field != f
  }

  // ------------------------------------------------------------- checks

  /** Every issue in `issues` concerns field `f`. */
  predicate OnlyAbout(issues: seq<Issue>, f: Field) {
    forall i :: i in issues ==> i.field == f
  }

  /** In a concatenation, field `f` is clean when each part's issues are clean or about another field. */
  lemma FieldOkAppend(a: seq<Issue>, b: seq<Issue>, f: Field)
    ensures FieldOk(a + b, f) <==> FieldOk(a, f) && FieldOk(b, f)
  {
  }

  /** A part that only concerns field `g` is clean for `f` when it is empty, or when `g` is another field. */
  lemma FieldOkPart(a: seq<Issue>, g: Field, f: Field)
    requires OnlyAbout(a, g)
    ensures FieldOk(a, f) <==> (g != f || a == [])
  {
    if g == f && a != [] {
      assert a[0] in a;
    }
  }

  function MinLength(f: Field, s: string, n: nat): seq<Issue> {
    if |s| >= n then [] else [Issue(f, TooShort(n))]
  }

  function MaxLength(f: Field, s: string, n: nat): seq<Issue> {
    if |s| <= n then [] else [Issue(f, TooLong(n))]
  }

  /** `z.string().email().min(5)`. */
  function EmailIssues(isEmail: EmailPattern, v: Option<string>): (r: seq<Issue>)
    ensures OnlyAbout(r, Email)
    ensures r == [] <==> EmailOk(isEmail, v)
  {
    match v
    case None => [Issue(Email, Missing)]
    case Some(e) => (if isEmail(e) then [] else [Issue(Email, NotAnEmail)]) + MinLength(Email, e, 5)
  }

  /** `z.string().min(n)` on field `f`. */
  function AtLeastIssues(f: Field, v: Option<string>, n: nat): (r: seq<Issue>)
    ensures OnlyAbout(r, f)
    ensures r == [] <==> v.Some? && |v.value| >= n
  {
    match v
    case None => [Issue(f, Missing)]
    case Some(s) => MinLength(f, s, n)
  }

  /** `z.string().min(8).max(20)`. */
  function RegisterPasswordIssues(v: Option<string>): (r: seq<Issue>)
    ensures OnlyAbout(r, Password)
    ensures r == [] <==> RegisterPasswordOk(v)
  {
    match v
    case None => [Issue(Password, Missing)]
    case Some(p) => MinLength(Password, p, 8) + MaxLength(Password, p, 20)
  }

  /** `z.enum(["Customer", "Seller"])`. */
  function RoleIssues(v: Option<string>): (r: seq<Issue>)
    ensures OnlyAbout(r, Role)
    ensures r == [] <==> RoleOk(v)
    ensures r == [] <==> v == Some("Customer") || v == Some("Seller")
  {
    match v
    case None => [Issue(Role, Missing)]
    case Some(r) => if r in RegisterRoles then [] else [Issue(Role, NotAnOption)]
  }

  // ------------------------------------------------- accepted values, field by field

  predicate EmailOk(isEmail: EmailPattern, v: Option<string>) {
    v.Some? && isEmail(v.value) && |v.value| >= 5
  }

  predicate LoginPasswordOk(v: Option<string>) {
    v.Some? && |v.value| >= 8
  }

  predicate RegisterPasswordOk(v: Option<string>) {
    v.Some? && 8 <= |v.value| <= 20
  }

  predicate NameOk(v: Option<string>) {
    v.Some? && |v.value| >= 2
  }

  predicate PhoneOk(v: Option<string>) {
    v.Some? && |v.value| >= 10
  }

  predicate RoleOk(v: Option<string>) {
    v.Some? && v.value in RegisterRoles
  }

  predicate LoginAccepts(isEmail: EmailPattern, r: LoginInput) {
    EmailOk(isEmail, r.email) && LoginPasswordOk(r.password)
  }

  predicate RegisterAccepts(isEmail: EmailPattern, r: RegisterInput) {
    && NameOk(r.username) && NameOk(r.fullname) && EmailOk(isEmail, r.email)
    && PhoneOk(r.phone) && RegisterPasswordOk(r.password) && RoleOk(r.role)
  }

  // ---------------------------------------------------------- schemas

  /**
   * `loginSchema`. The email must match the pattern and have at least 5
   * characters; the password needs at least 8 and has no upper bound.
   */
  function LoginIssues(isEmail: EmailPattern, r: LoginInput): (issues: seq<Issue>)
    ensures FieldOk(issues, Email) <==> EmailOk(isEmail, r.email)
    ensures FieldOk(issues, Password) <==> LoginPasswordOk(r.password)
    ensures issues == [] <==> LoginAccepts(isEmail, r)
    ensures forall i :: i in issues ==> i.field == Email || i.field == Password
  {
    EmailIssues(isEmail, r.email) + AtLeastIssues(Password, r.password, 8)
  }

  /**
   * `registerSchema`. Username and full name need at least 2 characters, the
   * email as for login, the phone at least 10, the password between 8 and 20,
   * and the role must be exactly "Customer" or "Seller".
   */
  function RegisterIssues(isEmail: EmailPattern, r: RegisterInput): (issues: seq<Issue>)
    ensures FieldOk(issues, Username) <==> NameOk(r.username)
    ensures FieldOk(issues, Fullname) <==> NameOk(r.fullname)
    ensures FieldOk(issues, Email) <==> EmailOk(isEmail, r.email)
    ensures FieldOk(issues, Phone) <==> PhoneOk(r.phone)
    ensures FieldOk(issues, Password) <==> RegisterPasswordOk(r.password)
    ensures FieldOk(issues, Role) <==> RoleOk(r.role)
    ensures issues == [] <==> RegisterAccepts(isEmail, r)
  {
    var username := AtLeastIssues(Username, r.username, 2);
    var fullname := AtLeastIssues(Fullname, r.fullname, 2);
    var email := EmailIssues(isEmail, r.email);
    var phone := AtLeastIssues(Phone, r.phone, 10);
    var password := RegisterPasswordIssues(r.password);
    var role := RoleIssues(r.role);
    SixFields(username, fullname, email, phone, password, role);
    username + (fullname + (email + (phone + (password + role))))
  }

  /** Field by field, six parts that each concern one distinct field. */
  lemma SixFields(u: seq<Issue>, f: seq<Issue>, e: seq<Issue>, ph: seq<Issue>, pw: seq<Issue>, ro: seq<Issue>)
    requires OnlyAbout(u, Username) && OnlyAbout(f, Fullname) && OnlyAbout(e, Email)
    requires OnlyAbout(ph, Phone) && OnlyAbout(pw, Password) && OnlyAbout(ro, Role)
    ensures var all := u + (f + (e + (ph + (pw + ro))));
      && (FieldOk(all, Username) <==> u == [])
      && (FieldOk(all, Fullname) <==> f == [])
      && (FieldOk(all, Email) <==> e == [])
      && (FieldOk(all, Phone) <==> ph == [])
      && (FieldOk(all, Password) <==> pw == [])
      && (FieldOk(all, Role) <==> ro == [])
  {
    forall g: Field
      ensures FieldOk(u + (f + (e + (ph + (pw + ro)))), g) <==>
        && (Username != g || u == []) && (Fullname != g || f == []) && (Email != g || e == [])
        && (Phone != g || ph == []) && (Password != g || pw == []) && (Role != g || ro == [])
    {
      FieldOkAppend(pw, ro, g);
      FieldOkAppend(ph, pw + ro, g);
      FieldOkAppend(e, ph + (pw + ro), g);
      FieldOkAppend(f, e + (ph + (pw + ro)), g);
      FieldOkAppend(u, f + (e + (ph + (pw + ro))), g);
      FieldOkPart(u, Username, g);
      FieldOkPart(f, Fullname, g);
      FieldOkPart(e, Email, g);
      FieldOkPart(ph, Phone, g);
      FieldOkPart(pw, Password, g);
      FieldOkPart(ro, Role, g);
    }
  }

  /** The credentials of a register body, as a login body. */
  function Credentials(r: RegisterInput): LoginInput {
    LoginInput(r.email, r.password)
  }

  /** Whatever email and password register accepts, login accepts too. */
  lemma RegisterCredentialsPassLogin(isEmail: EmailPattern, r: RegisterInput)
    requires RegisterIssues(isEmail, r) == []
    ensures LoginIssues(isEmail, Credentials(r)) == []
  {
  }

  /**
   * The converse fails on length alone: a password of more than 20 characters
   * passes login validation and fails register validation.
   */
  lemma LongPasswordOnlyPassesLogin(isEmail: EmailPattern, r: RegisterInput)
    requires EmailOk(isEmail, r.email)
    requires r.password.Some? && |r.password.value| > 20
    ensures LoginIssues(isEmail, Credentials(r)) == []
    ensures Issue(Password, TooLong(20)) in RegisterIssues(isEmail, r)
  {
  }
}
