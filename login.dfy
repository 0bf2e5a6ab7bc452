/**
 * The login and sign-up page: which tab opens, and the two submit handlers. The
 * sign-up handler refuses mismatched passwords before calling the authentication
 * service, marks the new user as an owner when the box was ticked, and sends an
 * owner to the "add a listing" page. The service's answer is a parameter.
 */
module Login {
  import opened Wrappers
  import opened Auth

  datatype Tab = LoginTab | SignupTab

  /** The tab the page opens on: sign-up on "/signup", login everywhere else. */
  function InitialTab(pathname: string): (t: Tab)
    ensures t == SignupTab <==> pathname == "/signup"
  {
    if pathname == "/signup" then SignupTab else LoginTab
  }

  /** Where a successful sign-up leads. */
  function SignupTarget(isPgOwner: bool): (path: string)
    ensures path == "/add-pg" || path == "/"
  {
    if isPgOwner then "/add-pg" else "/"
  }

  /** The state of the page; `auth` is the context it writes the owner flag to. */
  class LoginPage {
    var activeTab: Tab
    var password: string
    var confirmPassword: string
    var isPgOwner: bool
    const auth: AuthProvider

    constructor(pathname: string, auth: AuthProvider)
      ensures activeTab == InitialTab(pathname) && this.auth == auth
      ensures password == "" && confirmPassword == "" && !isPgOwner
    {
      activeTab := InitialTab(pathname);
      password := "";
      confirmPassword := "";
      isPgOwner := false;
      this.auth := auth;
    }

    /** The sign-up form's inputs. */
    method SetSignupData(pw: string, confirm: string, owner: bool)
      modifies this
      ensures password == pw && confirmPassword == confirm && isPgOwner == owner
      ensures activeTab == old(activeTab)
    {
      password := pw;
      confirmPassword := confirm;
      isPgOwner := owner;
    }

    /** The login handler: home after a successful sign-in, nowhere after a failure. */
    method HandleLoginSubmit(loginSucceeds: bool) returns (navigateTo: Option<string>)
      ensures loginSucceeds <==> navigateTo == Some("/")
      ensures !loginSucceeds ==> navigateTo == None
    {
      if loginSucceeds {
        navigateTo := Some("/");
      } else {
        navigateTo := None;
      }
    }

    /**
     * The sign-up handler. Mismatched passwords stop it before the service is called;
     * a failed registration changes nothing and goes nowhere; a successful one sets
     * the owner flag to the box's value and leaves for "/add-pg" (owner) or "/".
     */
    method HandleSignupSubmit(registerSucceeds: bool) returns (registerCalled: bool, navigateTo: Option<string>)
      modifies auth
      ensures registerCalled <==> password == confirmPassword
      ensures navigateTo.Some? <==> registerCalled && registerSucceeds
      ensures !(registerCalled && registerSucceeds) ==> auth.State() == old(auth.State())
      ensures registerCalled && registerSucceeds ==>
                && auth.State() == SetOwner(old(auth.State()), isPgOwner)
                && navigateTo == Some(SignupTarget(isPgOwner))
    {
      if password != confirmPassword {
        return false, None;
      }
      registerCalled := true;
      if registerSucceeds {
        auth.SetIsOwner(isPgOwner);
        navigateTo := Some(if isPgOwner then "/add-pg" else "/");
      } else {
        navigateTo := None;
      }
    }
  }

  /** Only an owner sign-up leads to the "add a listing" page, and only an owner sign-up sets the flag. */
  lemma OwnerSignupLeadsToAddPage(s: AuthState, isPgOwner: bool)
    ensures SignupTarget(isPgOwner) == "/add-pg" <==> isPgOwner
    ensures SetOwner(s, isPgOwner).isOwner <==> isPgOwner
  {
  }
}
