/** The API permission classes of the health-log app
    (healthlog/core/permissions.py). */
module Permissions {
  import opened Wrappers
  import HealthlogModels

  /** `request.user`: `None` when no authentication applies, Django's
      anonymous user, or a signed-in user. */
  datatype RequestUser = NoUser | Anonymous | Member(user: HealthlogModels.User) {
    /** The objects whose fields a check on this user may read. */
    function Objects(): set<object> {
      if Member? then {user} else {}
    }

    /** `request.user.is_authenticated`, for a user object that has it. */
    predicate IsAuthenticated()
      requires !NoUser?
    {
      Member?
    }
  }

  /** `AttributeError`: the anonymous user has no `info_id`, and `None` has
      no `is_authenticated`. */
  datatype AttributeError = AttributeError(attribute: string)

  /** Python truthiness of `info_id`: `None` and the key 0 are false. */
  predicate InfoIdTruthy(infoId: Option<int>) {
    infoId.Some? && infoId.value != 0
  }

  /** `IsAPIUser.has_permission`: `bool(request.user and request.user.info_id)`. */
  function IsAPIUser(u: RequestUser): (r: Result<bool, AttributeError>)
    reads u.Objects()
    ensures u.NoUser? ==> r == Ok(false)
    ensures u.Anonymous? ==> r == Err(AttributeError("info_id"))
    ensures u.Member? ==> r.Ok? && (r.value <==> InfoIdTruthy(u.user.infoId))
  {
    match u
    case NoUser => Ok(false)
    case Anonymous => Err(AttributeError("info_id"))
    case Member(user) => Ok(InfoIdTruthy(user.infoId))
  }

  /** `IsUnauthenticated.has_permission`: `bool(request.user and not
      request.user.is_authenticated)`. */
  function IsUnauthenticated(u: RequestUser): (r: bool)
    ensures r <==> u.Anonymous?
  {
    !u.NoUser? && !u.IsAuthenticated()
  }

  /** A user that `IsAPIUser` admits is a consumer; a consumer is admitted
      unless its info has the key 0. */
  lemma APIUserIsConsumer(user: HealthlogModels.User)
    ensures IsAPIUser(Member(user)) == Ok(true) ==> user.IsConsumer()
    ensures user.IsConsumer() && user.infoId != Some(0) ==> IsAPIUser(Member(user)) == Ok(true)
    ensures !user.IsConsumer() ==> IsAPIUser(Member(user)) == Ok(false)
  {
  }

  /** Registration is refused to every signed-in user. */
  lemma SignedInIsNotUnauthenticated(user: HealthlogModels.User)
    ensures !IsUnauthenticated(Member(user))
  {
  }
}
