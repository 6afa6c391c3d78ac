/** The three client route guards. Each looks only at the session's user
    and either renders its children or redirects, replacing the current
    history entry. */
module RouteGuards {
  import opened UserModel
  import opened AuthContext

  datatype Outcome = RenderChildren | Navigate(to: string, replace: bool)

  /** ProtectedRoute: a logged-in user of either role sees the page. */
  function ProtectedRoute(auth: AuthState): (o: Outcome)
    ensures o == RenderChildren || o == Navigate("/login", true)
  {
    if auth.user.None? then Navigate("/login", true) else RenderChildren
  }

  /** PublicRoute: only a visitor who is not logged in sees the page. */
  function PublicRoute(auth: AuthState): (o: Outcome)
    ensures o == RenderChildren || o == Navigate("/", true)
  {
    if auth.user.Some? then Navigate("/", true) else RenderChildren
  }

  /** AdminRoute: only a logged-in administrator sees the page. */
  function AdminRoute(auth: AuthState): (o: Outcome)
    ensures o == RenderChildren || o == Navigate("/", true)
  {
    if auth.user.None? || auth.user.value.role != AdminRole then Navigate("/", true) else RenderChildren
  }

  /** Where each guard sends the visitor it turns away. */
  lemma GuardRedirects(auth: AuthState)
    ensures ProtectedRoute(auth) != RenderChildren ==> ProtectedRoute(auth) == Navigate("/login", true)
    ensures PublicRoute(auth) != RenderChildren ==> PublicRoute(auth) == Navigate("/", true)
    ensures AdminRoute(auth) != RenderChildren ==> AdminRoute(auth) == Navigate("/", true)
  {
  }

  /** Each guard's decision, stated by the user alone. */
  lemma GuardDecisions(auth: AuthState)
    ensures ProtectedRoute(auth) == RenderChildren <==> auth.user.Some?
    ensures PublicRoute(auth) == RenderChildren <==> auth.user.None?
    ensures AdminRoute(auth) == RenderChildren <==> auth.user.Some? && auth.user.value.role == AdminRole
  {
  }

  /** The token never enters a decision. */
  lemma GuardsIgnoreToken(a: AuthState, b: AuthState)
    requires a.user == b.user
    ensures ProtectedRoute(a) == ProtectedRoute(b)
    ensures PublicRoute(a) == PublicRoute(b)
    ensures AdminRoute(a) == AdminRoute(b)
  {
  }

  /** For every session exactly one of PublicRoute and ProtectedRoute
      renders its children. */
  lemma PublicAndProtectedPartition(auth: AuthState)
    ensures (PublicRoute(auth) == RenderChildren) != (ProtectedRoute(auth) == RenderChildren)
  {
  }

  /** Whatever AdminRoute lets through, ProtectedRoute lets through too. */
  lemma AdminImpliesProtected(auth: AuthState)
    requires AdminRoute(auth) == RenderChildren
    ensures ProtectedRoute(auth) == RenderChildren
  {
  }
}
