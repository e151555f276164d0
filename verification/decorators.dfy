/**
 * The `admin_only` view decorator: the wrapped view runs for an
 * authenticated administrator (role id 1) and every other visitor is
 * aborted with 403 Forbidden.
 */
module Decorators {
  import AuthModels

  /** What a decorated view gives back: the view's own result, or an aborted request with its status. */
  datatype ViewResult<R> = Ran(result: R) | Aborted(status: int)

  const Forbidden := 403

  /** The wrapper `admin_only(view)` applied to `args`, seen by `current_user`'s flag and role id. */
  function AdminOnly<A, R>(view: A -> R, authenticated: bool, roleId: int, args: A): (r: ViewResult<R>)
    ensures r.Ran? <==> authenticated && roleId == 1
    ensures r.Ran? ==> r.result == view(args)
    ensures r.Aborted? ==> r.status == 403
  {
    if !authenticated || roleId != AuthModels.AdminRoleId then Aborted(Forbidden)
    else Ran(view(args))
  }

  /** An anonymous visitor is refused whatever role id is read. */
  lemma AnonymousForbidden<A, R>(view: A -> R, roleId: int, args: A)
    ensures AdminOnly(view, false, roleId, args) == Aborted(403)
  {
  }

  /** A user who registered (default role 2) is refused until an administrator's role is given. */
  lemma DefaultRoleForbidden<A, R>(view: A -> R, args: A)
    ensures AdminOnly(view, true, AuthModels.DefaultRoleId, args) == Aborted(403)
  {
  }
}
