/**
 * The authentication context: who is signed in, whether the first answer of the
 * authentication service is still awaited, and whether the user may manage
 * listings. The service and the role store are outside the model; what they
 * report arrives as parameters.
 */
module Auth {
  import opened Wrappers

  /** A signed-in user, known by the id of the authentication service. */
  datatype User = User(uid: string)

  /** What the role lookup for a signed-in user came back with. */
  datatype RoleLookup = RoleIs(role: string) | LookupFailed

  /** The three cells of the context. */
  datatype AuthState = AuthState(currentUser: Option<User>, isLoading: bool, isOwner: bool)

  /** Before the service answers: nobody signed in, still loading, not an owner. */
  const InitialAuth := AuthState(None, true, false)

  /** The roles that may manage listings. */
  predicate IsOwnerRole(role: string) {
    role == "owner" || role == "admin"
  }

  /**
   * The listener's transition for one report of the service: the user is stored;
   * for a signed-in user the owner flag follows the role, unless the lookup failed;
   * for nobody it is cleared; and loading is over.
   */
  function OnAuthChange(s: AuthState, user: Option<User>, lookup: RoleLookup): (r: AuthState)
    ensures r.currentUser == user && !r.isLoading
    ensures user.None? ==> !r.isOwner
    ensures user.Some? && lookup.RoleIs? ==> (r.isOwner <==> IsOwnerRole(lookup.role))
    ensures user.Some? && lookup.LookupFailed? ==> r.isOwner == s.isOwner
  {
    var isOwner :=
      if user.Some? then
        (match lookup
         case RoleIs(role) => role == "owner" || role == "admin"
         case LookupFailed => s.isOwner)
      else false;
    AuthState(user, false, isOwner)
  }

  /** The owner-flag setter the context hands to its pages. */
  function SetOwner(s: AuthState, value: bool): (r: AuthState)
    ensures r.isOwner == value
    ensures r.currentUser == s.currentUser && r.isLoading == s.isLoading
  {
    s.(isOwner := value)
  }

  /** The provider shows its children only once loading is over. */
  predicate RendersChildren(s: AuthState) {
    !s.isLoading
  }

  /** Nothing is shown before the first report; something is shown after any report. */
  lemma RenderGate(s: AuthState, user: Option<User>, lookup: RoleLookup)
    ensures !RendersChildren(InitialAuth)
    ensures RendersChildren(OnAuthChange(s, user, lookup))
  {
  }

  /**
   * A report replaces what an earlier report said, except that a failed lookup keeps
   * the owner flag: the later of two reports for a signed-in user with a found role,
   * or for nobody, decides the state alone.
   */
  lemma LaterReportWins(s: AuthState, u1: Option<User>, l1: RoleLookup, u2: Option<User>, l2: RoleLookup)
    requires u2.None? || l2.RoleIs?
    ensures OnAuthChange(OnAuthChange(s, u1, l1), u2, l2) == OnAuthChange(s, u2, l2)
  {
  }

  /**
   * The flag set by the sign-up page does not survive a later report whose role
   * lookup finds an ordinary user: the report clears it again.
   */
  lemma ReportOverridesSetOwner(s: AuthState, u: User, role: string)
    requires !IsOwnerRole(role)
    ensures !OnAuthChange(SetOwner(s, true), Some(u), RoleIs(role)).isOwner
  {
  }

  /** The context's state cells. */
  class AuthProvider {
    var currentUser: Option<User>
    var isLoading: bool
    var isOwner: bool

    function State(): AuthState
      reads this
    {
      AuthState(currentUser, isLoading, isOwner)
    }

    constructor()
      ensures State() == InitialAuth
    {
      currentUser := None;
      isLoading := true;
      isOwner := false;
    }

    /** The listener: the three cells are written in the order the source writes them. */
    method OnAuthStateChanged(user: Option<User>, lookup: RoleLookup)
      modifies this
      ensures State() == OnAuthChange(old(State()), user, lookup)
    {
      currentUser := user;
      if user.Some? {
        match lookup {
          case RoleIs(role) =>
            isOwner := role == "owner" || role == "admin";
          case LookupFailed =>
        }
      } else {
        isOwner := false;
      }
      isLoading := false;
    }

    /** `setIsOwner`. */
    method SetIsOwner(value: bool)
      modifies this
      ensures State() == SetOwner(old(State()), value)
    {
      isOwner := value;
    }
  }
}
