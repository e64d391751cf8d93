/** The analyst-only guard of the report pages (healthlog/core/mixins.py). */
module Mixins {
  import opened Wrappers
  import Permissions

  /** What `AnalystRequiredMixin.dispatch` answers: a redirect to the login
      page that returns to `next`, or the wrapped view's own dispatch. */
  datatype DispatchResult =
    | RedirectToLogin(next: string, loginUrl: string, redirectFieldName: string)
    | Dispatched

  /** `AnalystRequiredMixin.dispatch`: only a signed-in analyst reaches the
      wrapped view; anyone else is sent to log in and back to the full path
      of the request. */
  function Dispatch(u: Permissions.RequestUser, fullPath: string, loginUrl: string, redirectFieldName: string)
    : (r: Result<DispatchResult, Permissions.AttributeError>)
    reads u.Objects()
    ensures u.NoUser? <==> r.Err?
    ensures r == Ok(Dispatched) <==> u.Member? && u.user.isAnalyst
    ensures r.Ok? && r.value.RedirectToLogin? ==>
      r.value == RedirectToLogin(fullPath, loginUrl, redirectFieldName)
  {
    if u.NoUser? then Err(Permissions.AttributeError("is_authenticated"))
    else if !u.IsAuthenticated() || !u.user.isAnalyst then
      Ok(RedirectToLogin(fullPath, loginUrl, redirectFieldName))
    else Ok(Dispatched)
  }

  /** The anonymous user is always redirected, wherever it was going. */
  lemma AnonymousRedirected(fullPath: string, loginUrl: string, field: string)
    ensures Dispatch(Permissions.Anonymous, fullPath, loginUrl, field).Ok?
    ensures Dispatch(Permissions.Anonymous, fullPath, loginUrl, field).value.RedirectToLogin?
  {
  }
}
