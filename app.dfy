/**
 * The application shell: the guard every role's pages sit behind, the root route that
 * sends a signed-in user to the pages of their role, and the sign-in dialog that runs
 * the action that asked for it once sign-in succeeds.
 */
module App {
  import opened Common

  /** The signed-in user, with the role stored in the account's metadata (absent or
      empty when the account has none). */
  datatype User = User(id: string, role: Option<string>)

  /** What a route shows. */
  datatype Outcome = Spinner | Redirect(path: string) | Render

  /** `ProtectedRoute`: `allowedRoles` is `None` when the route lists none. */
  function Guard(authLoading: bool, dataLoading: bool, user: Option<User>, allowedRoles: Option<seq<string>>): (out: Outcome)
    ensures authLoading || dataLoading ==> out == Spinner
    ensures !authLoading && !dataLoading && user.None? ==> out == Redirect("/")
    ensures out == Render <==>
      && !authLoading && !dataLoading && user.Some?
      && (allowedRoles.None? || (user.value.role.Some? && user.value.role.value in allowedRoles.value))
    ensures out.Redirect? && user.Some? ==>
      if Filled(user.value.role) then out == Redirect("/" + user.value.role.value) else out == Redirect("/")
  {
    if authLoading || dataLoading then Spinner
    else if user.None? then Redirect("/")
    else
      var role := user.value.role;
      if allowedRoles.Some? && !(role.Some? && role.value in allowedRoles.value) then
        if Filled(role) then Redirect("/" + role.value) else Redirect("/")
      else Render
  }

  /** What the root path shows. */
  datatype Root = Loading | Home | SendTo(path: string)

  /** The role a signed-in user's pages belong to: `'cliente'` when none is stored. */
  function HomeRole(u: User): (r: string)
    ensures Filled(u.role) ==> r == u.role.value
    ensures !Filled(u.role) ==> r == "cliente"
  {
    if Filled(u.role) then u.role.value else "cliente"
  }

  /** The root route: the loading text while the session loads, the home page without a
      user, and the user's role pages otherwise. */
  function RootRoute(authLoading: bool, user: Option<User>): (r: Root)
    ensures authLoading ==> r == Loading
    ensures !authLoading && user.None? ==> r == Home
    ensures !authLoading && user.Some? ==> r == SendTo("/" + HomeRole(user.value))
  {
    if authLoading then Loading
    else if user.None? then Home
    else SendTo("/" + HomeRole(user.value))
  }

  /** The roles whose pages sit under `/<role>` behind a guard that admits that role
      alone. */
  const Roles: seq<string> := ["cliente", "negocio", "repartidor", "admin"]

  /** A user with one of the four roles is sent from the root to pages whose guard lets
      them in once everything has loaded. */
  lemma RootLeadsToOwnPages(u: User)
    requires u.role.Some? && u.role.value in Roles
    ensures RootRoute(false, Some(u)) == SendTo("/" + u.role.value)
    ensures Guard(false, false, Some(u), Some([u.role.value])) == Render
  {
    assert u.role.value != "";
  }

  /** A user whose account has no role is sent from the root to the client pages, whose
      guard sends them back to the root: the two routes redirect to each other. */
  lemma RolelessUserBounces(u: User)
    requires u.role.None?
    ensures RootRoute(false, Some(u)) == SendTo("/cliente")
    ensures Guard(false, false, Some(u), Some(["cliente"])) == Redirect("/")
  {
  }

  /** A user of another role is sent to their own pages, never shown this route. */
  lemma OtherRoleRedirected(u: User, allowed: seq<string>)
    requires Filled(u.role) && u.role.value !in allowed
    ensures Guard(false, false, Some(u), Some(allowed)) == Redirect("/" + u.role.value)
  {
  }

  /** The sign-in dialog of `AuthModalProvider`. The stored action is named by a text;
      `ran` lists the actions run so far, oldest first. */
  class AuthModal {
    var isOpen: bool
    var action: Option<string>
    var userType: string
    var ran: seq<string>

    /** The dialog starts closed, with no action and the client role. */
    constructor()
      ensures !isOpen && action.None? && userType == "cliente" && ran == []
    {
      isOpen := false;
      action := None;
      userType := "cliente";
      ran := [];
    }

    /** `requireAuth(action, userType = 'cliente')`: remembers the action and the role
        and opens the dialog. */
    method RequireAuth(a: string, requested: Option<string>)
      modifies this
      ensures isOpen && action == Some(a)
      ensures userType == requested.GetOr("cliente")
      ensures ran == old(ran)
    {
      userType := requested.GetOr("cliente");
      action := Some(a);
      isOpen := true;
    }

    /** The dialog's own close button. */
    method SetOpen(open: bool)
      modifies this
      ensures isOpen == open
      ensures action == old(action) && userType == old(userType) && ran == old(ran)
    {
      isOpen := open;
    }

    /** `handleLogin` once `signIn` has answered: on success the dialog closes and the
        stored action runs; on failure nothing changes. */
    method HandleLogin(ok: bool)
      modifies this
      ensures action == old(action) && userType == old(userType)
      ensures ok ==> !isOpen && ran == old(ran) + (if action.Some? then [action.value] else [])
      ensures !ok ==> isOpen == old(isOpen) && ran == old(ran)
    {
      if ok {
        Finish();
      }
    }

    /** `handleSignUp`: the account is requested with the role the last `requireAuth`
        recorded (`sentRole`); on success the dialog closes and the stored action
        runs, on failure nothing changes. */
    method HandleSignUp(ok: bool) returns (sentRole: string)
      modifies this
      ensures sentRole == old(userType)
      ensures action == old(action) && userType == old(userType)
      ensures ok ==> !isOpen && ran == old(ran) + (if action.Some? then [action.value] else [])
      ensures !ok ==> isOpen == old(isOpen) && ran == old(ran)
    {
      sentRole := userType;
      if ok {
        Finish();
      }
    }

    /** Closing after success and running the stored action, if any. */
    method Finish()
      modifies this
      ensures !isOpen && action == old(action) && userType == old(userType)
      ensures ran == old(ran) + (if action.Some? then [action.value] else [])
    {
      isOpen := false;
      if action.Some? {
        ran := ran + [action.value];
      }
    }
  }
}
