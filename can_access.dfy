/**
 * The role gate (src/middlewares/canAccess.ts) and the allow-list every `/users`
 * route passes it. The role names live in src/constants, which is not part of
 * this model; the values below are assumed.
 */
module Middlewares {
  import opened Wrappers
  import opened HttpErrors
  import opened Express

  const ADMIN := "admin"
  const MANAGER := "manager"
  const CUSTOMER := "customer"

  const ForbiddenMessage := "You Don't have enough permissions"

  /**
   * `req.auth`, the claims the authentication middleware attached to the request;
   * `role` is None for a token without a role claim.
   */
  datatype Auth = Auth(sub: string, role: Option<string>, jti: Option<string>)

  /**
   * `canAccess(roles)(req, res, next)` as the single call it makes to `next`:
   * the request goes on exactly when the token's role is, character for
   * character, one of `roles`; otherwise, and for a token with no role claim
   * (`roles.includes(undefined)` is false), a 403 error is forwarded.
   */
  function CanAccess(roles: seq<string>, auth: Auth): (call: NextCall)
    ensures call == Continue <==> exists i :: 0 <= i < |roles| && Some(roles[i]) == auth.role
    ensures call != Continue ==> call == Forward(CreateHttpError(403, ForbiddenMessage))
  {
    if auth.role.None? || auth.role.value !in roles then Forward(CreateHttpError(403, ForbiddenMessage))
    else Continue
  }

  /** A token without a role claim is turned away by every allow-list. */
  lemma MissingRoleIsRefused(roles: seq<string>, auth: Auth)
    requires auth.role == None
    ensures CanAccess(roles, auth) == Forward(CreateHttpError(403, ForbiddenMessage))
  {
  }

  /** An empty allow-list turns every request away. */
  lemma EmptyAllowListRejects(auth: Auth)
    ensures CanAccess([], auth) == Forward(CreateHttpError(403, ForbiddenMessage))
  {
  }

  /** Adding roles to the allow-list never turns away a request that passed before. */
  lemma AllowListMonotone(roles: seq<string>, more: seq<string>, auth: Auth)
    requires forall i :: 0 <= i < |roles| ==> roles[i] in more
    ensures CanAccess(roles, auth) == Continue ==> CanAccess(more, auth) == Continue
  {
  }

  /** The verdict depends on the role claim alone, not on the subject or `jti`. */
  lemma OnlyRoleIsRead(roles: seq<string>, a: Auth, b: Auth)
    requires a.role == b.role
    ensures CanAccess(roles, a) == CanAccess(roles, b)
  {
  }

  /** Matching is exact: a role differing only in letter case is turned away. */
  lemma MatchingIsCaseSensitive(auth: Auth)
    requires auth.role == Some("Admin")
    ensures CanAccess([ADMIN], auth) != Continue
  {
  }

  /** The allow-list every `/users` route gives the gate, after authentication. */
  const UsersRouteRoles: seq<string> := [ADMIN]

  /** A `/users` request gets through only with the admin role; managers, customers and role-less tokens are refused. */
  lemma UsersRoutesAreAdminOnly(auth: Auth)
    ensures CanAccess(UsersRouteRoles, auth) == Continue <==> auth.role == Some(ADMIN)
    ensures auth.role == Some(MANAGER) || auth.role == Some(CUSTOMER) || auth.role == None ==>
      CanAccess(UsersRouteRoles, auth) == Forward(CreateHttpError(403, ForbiddenMessage))
  {
  }
}
