/** The register and login forms: their schemas, the role-keyed redirect
    after success and the error and loading state of their submit handlers.
    The e-mail check is the schema library's and is taken as a parameter. */
module AuthForms {
  import opened Wrappers
  import opened Types

  const MasterDashboard := "/master/dashboard"
  const StudentDashboard := "/student/dashboard"
  const AdminHome := "/admin"

  /** The part of the signed-in user the handlers look at; the role is the
      text stored on the user's document, whatever it is. */
  datatype Account = Account(id: string, role: string)

  // ---------------------------------------------------------------------
  // Register
  // ---------------------------------------------------------------------

  datatype RegisterInput = RegisterInput(
    name: string,
    email: string,
    password: string,
    confirmPassword: string,
    role: string)

  const PasswordMismatch := "Passwords don't match"

  predicate RegisterRoleAccepted(role: string)
  {
    role == "master" || role == "student"
  }

  /** The per-property issues, in declaration order. */
  function RegisterFieldIssues(isEmail: string -> bool, f: RegisterInput): (issues: seq<Issue>)
    ensures issues == [] <==>
      |f.name| >= 2 && isEmail(f.email) && |f.password| >= 6 && RegisterRoleAccepted(f.role)
  {
    (if |f.name| < 2 then [Issue("name", "Name must be at least 2 characters")] else [])
    + (if !isEmail(f.email) then [Issue("email", "Invalid email address")] else [])
    + (if |f.password| < 6 then [Issue("password", "Password must be at least 6 characters")] else [])
    + (if !RegisterRoleAccepted(f.role) then [Issue("role", "Invalid enum value. Expected 'master' | 'student'")] else [])
  }

  /** The schema's issues: the property issues, then the password-match
      refinement, which runs on an object whose role parsed. */
  function RegisterIssues(isEmail: string -> bool, f: RegisterInput): (issues: seq<Issue>)
    ensures issues == [] <==>
      |f.name| >= 2 && isEmail(f.email) && |f.password| >= 6 && RegisterRoleAccepted(f.role)
      && f.password == f.confirmPassword
    ensures Issue("confirmPassword", PasswordMismatch) in issues <==>
      f.password != f.confirmPassword && RegisterRoleAccepted(f.role)
    ensures forall e :: e in issues ==> e.path != "confirmPassword" || e.message == PasswordMismatch
  {
    var fieldIssues := RegisterFieldIssues(isEmail, f);
    fieldIssues
    + (if RegisterRoleAccepted(f.role) && f.password != f.confirmPassword
       then [Issue("confirmPassword", PasswordMismatch)] else [])
  }

  /** Where a newly registered user is sent; admins and unknown roles stay put. */
  function RegisterRoute(role: string): (route: Option<string>)
    ensures route.Some? <==> RegisterRoleAccepted(role)
  {
    if role == "master" then Some(MasterDashboard)
    else if role == "student" then Some(StudentDashboard)
    else None
  }

  const RegistrationFailed := "Registration failed. Please try again."

  class RegisterFormView {
    var isLoading: bool
    var error: string
    /** The user the auth store holds. */
    var sessionUser: Option<Account>
    /** Where the router was last sent. */
    var location: Option<string>

    constructor ()
      ensures !isLoading && error == "" && sessionUser == None && location == None
    {
      isLoading := false;
      error := "";
      sessionUser := None;
      location := None;
    }

    /** `onSubmit` with values the schema accepted. `registered` says whether
        the account and its user document were created; `current` is what
        the follow-up current-user lookup found (that lookup never fails). */
    method OnSubmit(isEmail: string -> bool, f: RegisterInput, registered: bool, current: Option<Account>)
      requires RegisterIssues(isEmail, f) == []
      modifies this
      ensures !isLoading
      ensures error == if registered then "" else RegistrationFailed
      ensures sessionUser == if registered then current else old(sessionUser)
      ensures location ==
        if registered && current.Some? && RegisterRoute(current.value.role).Some?
        then RegisterRoute(current.value.role) else old(location)
    {
      isLoading := true;
      error := "";
      if !registered {
        error := RegistrationFailed;
      } else {
        sessionUser := current;
        if current.Some? {
          var route := RegisterRoute(current.value.role);
          if route.Some? {
            location := route;
          }
        }
      }
      isLoading := false;
    }
  }

  // ---------------------------------------------------------------------
  // Login
  // ---------------------------------------------------------------------

  datatype LoginInput = LoginInput(email: string, password: string)

  function LoginIssues(isEmail: string -> bool, f: LoginInput): (issues: seq<Issue>)
    ensures issues == [] <==> isEmail(f.email) && |f.password| >= 6
    ensures Issue("email", "Invalid email address") in issues <==> !isEmail(f.email)
    ensures Issue("password", "Password must be at least 6 characters") in issues <==> |f.password| < 6
  {
    (if !isEmail(f.email) then [Issue("email", "Invalid email address")] else [])
    + (if |f.password| < 6 then [Issue("password", "Password must be at least 6 characters")] else [])
  }

  /** Where a signed-in user is sent; an unknown role stays put. */
  function LoginRoute(role: string): (route: Option<string>)
    ensures route.Some? <==> role in {"admin", "master", "student"}
  {
    if role == "admin" then Some(AdminHome)
    else if role == "master" then Some(MasterDashboard)
    else if role == "student" then Some(StudentDashboard)
    else None
  }

  /** Both forms send a master and a student to the same dashboard, and
      different roles to different places. */
  lemma RoutesAgree(role: string, other: string)
    ensures RegisterRoute(role).Some? ==> RegisterRoute(role) == LoginRoute(role)
    ensures LoginRoute(role).Some? && LoginRoute(role) == LoginRoute(other) ==> role == other
  {
  }

  /** The route of each decoded role's name. */
  lemma LoginRouteOfRole(r: Role)
    ensures LoginRoute(RoleName(r)).Some?
    ensures r == Master <==> LoginRoute(RoleName(r)) == Some(MasterDashboard)
  {
  }

  const LoginFailed := "Invalid email or password"

  class LoginFormView {
    var isLoading: bool
    var error: string
    var sessionUser: Option<Account>
    var location: Option<string>

    constructor ()
      ensures !isLoading && error == "" && sessionUser == None && location == None
    {
      isLoading := false;
      error := "";
      sessionUser := None;
      location := None;
    }

    /** `onSubmit` with values the schema accepted. `signedIn` says whether
        the session was created; `current` is the user the login found. A
        login without a user fails when its role is read, after the store
        has been given the missing user. */
    method OnSubmit(isEmail: string -> bool, f: LoginInput, signedIn: bool, current: Option<Account>)
      requires LoginIssues(isEmail, f) == []
      modifies this
      ensures !isLoading
      ensures error == if signedIn && current.Some? then "" else LoginFailed
      ensures sessionUser == if signedIn then current else old(sessionUser)
      ensures location ==
        if signedIn && current.Some? && LoginRoute(current.value.role).Some?
        then LoginRoute(current.value.role) else old(location)
    {
      isLoading := true;
      error := "";
      if !signedIn {
        error := LoginFailed;
      } else {
        sessionUser := current;
        if current.None? {
          error := LoginFailed;
        } else {
          var route := LoginRoute(current.value.role);
          if route.Some? {
            location := route;
          }
        }
      }
      isLoading := false;
    }
  }
}
