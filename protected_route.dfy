/**
 * The route guard of client/src/lib/protected-route.tsx: what a protected
 * page renders from the authentication state and the route's module.
 */
module ProtectedRoute {
  import opened Wrappers
  import opened Schema
  import Routes
  import Sidebar

  datatype Decision = Spinner | RedirectTo(path: string) | AccessDenied | RenderPage

  /** `requiredModule && role`: a non-empty module is required and the role is loaded. */
  predicate Checks(requiredModule: Option<string>, role: Option<Role>) {
    requiredModule.Some? && requiredModule.value != "" && role.Some?
  }

  /** The ordered returns: spinner while loading, /auth without a user, the module test, else the page. */
  function Decide(isLoading: bool, user: Option<User>, role: Option<Role>, requiredModule: Option<string>): Decision {
    if isLoading then Spinner
    else if user.None? then RedirectTo("/auth")
    else if Checks(requiredModule, role)
         && role.value.moduleName != requiredModule.value && role.value.moduleName != Admin then AccessDenied
    else RenderPage
  }

  /** Each outcome, and exactly when it happens. */
  lemma DecisionCases(isLoading: bool, user: Option<User>, role: Option<Role>, requiredModule: Option<string>)
    ensures var d := Decide(isLoading, user, role, requiredModule);
      && (d == Spinner <==> isLoading)
      && (d == RedirectTo("/auth") <==> !isLoading && user.None?)
      && (d == AccessDenied <==>
            (!isLoading && user.Some? && Checks(requiredModule, role)
             && role.value.moduleName != requiredModule.value && role.value.moduleName != Admin))
      && (d == RenderPage <==>
            (!isLoading && user.Some?
             && (!Checks(requiredModule, role) || role.value.moduleName in {requiredModule.value, Admin})))
  {
  }

  /** A required module with no role loaded yet does not stop the page from rendering. */
  lemma MissingRoleRenders(user: User, requiredModule: Option<string>)
    ensures Decide(false, Some(user), None, requiredModule) == RenderPage
  {
  }

  /**
   * The guard agrees with the sidebar: for a signed-in user with a loaded
   * role, a page of a module other than "all" renders exactly when its
   * sidebar link is shown.
   */
  lemma AgreesWithSidebar(user: User, role: Role, m: string)
    requires m != "" && m != "all"
    ensures Decide(false, Some(user), Some(role), Some(m)) == RenderPage <==> Sidebar.HasModuleAccess(Some(role), m)
  {
  }

  /**
   * The guard agrees with the server: for a session whose role is stored,
   * a page renders exactly when the API routes of its module let the user
   * through.
   */
  lemma AgreesWithServer(session: Routes.Session, roles: map<nat, Role>, m: string)
    requires session.authenticated && session.user.Some? && session.user.value.roleId != 0
    requires session.user.value.roleId in roles && m != "" && m != "all"
    ensures Decide(false, session.user, Some(roles[session.user.value.roleId]), Some(m)) == RenderPage <==>
      Routes.CheckModuleAccess(session, roles, m) == Routes.Next
  {
    AgreesWithSidebar(session.user.value, roles[session.user.value.roleId], m);
    Sidebar.AgreesWithServer(session, roles, m);
  }
}
