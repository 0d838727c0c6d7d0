/** The route guard: a placeholder while the session loads, then login, refusal or the page. */
module ProtectedRoute {
  import opened Js
  import opened AuthContext

  /** What the guard renders; `from` is the location the redirect carries back to the login page. */
  datatype Decision = Loading | RedirectToLogin(from: string) | Unauthorized | Children

  /** `requiredRol` is the prop as given: absent, empty, or a role name. */
  function Guard(loading: bool, user: Option<AppUser>, requiredRol: Value, location: string): Decision {
    if loading then Loading
    else if !IsAuthenticated(user) then RedirectToLogin(location)
    else if Truthy(requiredRol) && user.value.rol != requiredRol then Unauthorized
    else Children
  }

  /** The four outcomes, each characterised by the inputs in both directions. */
  lemma GuardDecisions(loading: bool, user: Option<AppUser>, requiredRol: Value, location: string)
    ensures var d := Guard(loading, user, requiredRol, location);
      && (d == Loading <==> loading)
      && (d.RedirectToLogin? <==> !loading && user.None?)
      && (d.RedirectToLogin? ==> d.from == location)
      && (d == Unauthorized <==> !loading && user.Some? && Truthy(requiredRol) && user.value.rol != requiredRol)
      && (d == Children <==> !loading && user.Some? && (!Truthy(requiredRol) || user.value.rol == requiredRol))
  {
  }

  /** The children are reached only by a signed-in user who holds the required role, if one is required. */
  lemma ChildrenNeedRole(loading: bool, user: Option<AppUser>, rol: string, location: string)
    requires rol != ""
    ensures Guard(loading, user, Str(rol), location) == Children ==> IsAuthenticated(user) && user.value.rol == Str(rol)
    ensures !loading && rol == "lider" && IsLider(user) ==> Guard(loading, user, Str(rol), location) == Children
  {
  }
}
