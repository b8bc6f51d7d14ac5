/** The dashboard layout's access gate (app/dashboards/layout.tsx). */
module DashboardGate {
  import opened Common

  /** The signed-in user, as far as the gate looks at it. */
  datatype User = User(id: string, name: string)

  /** What the layout renders around `children`. */
  datatype Screen<C> = NoRender | Forbidden | Dashboard(children: C)

  const ForbiddenTitle := "403 - Access Forbidden"
  const HomeLink := "/"

  /** `adminId` is the configured administrator id, missing when the variable is not set. */
  function Gate<C>(user: Option<User>, adminId: Option<string>, children: C): Screen<C>
  {
    if user.None? then NoRender
    else if adminId != Some(user.value.id) then Forbidden
    else Dashboard(children)
  }

  /**
   * Nothing is rendered without a user; a user who is not the administrator
   * gets the 403 page and never the children (every user does when no
   * administrator is configured); the administrator gets the children; and
   * the outcome depends only on whether a user is present and on its id.
   */
  lemma GateFacts<C>(user: Option<User>, other: Option<User>, adminId: Option<string>, children: C)
    ensures user.None? <==> Gate(user, adminId, children) == NoRender
    ensures Gate(user, adminId, children) == Forbidden <==> user.Some? && adminId != Some(user.value.id)
    ensures Gate(user, adminId, children).Dashboard? <==> user.Some? && adminId == Some(user.value.id)
    ensures Gate(user, adminId, children).Dashboard? ==> Gate(user, adminId, children).children == children
    ensures adminId.None? ==> !Gate(user, adminId, children).Dashboard?
    ensures user.Some? == other.Some? && (user.Some? ==> user.value.id == other.value.id) ==>
              Gate(user, adminId, children) == Gate(other, adminId, children)
  {
  }
}
