/** The role/plan gate of server/middleware/authorize.js. */
module Authorize {
  import opened Common

  /** The decoded token that the authentication middleware puts in `req.user`;
      tokens issued by the auth route carry neither role nor plan. */
  datatype User = User(role: Option<string>, plan: Option<string>)

  /** 401, 403, or `next()`. */
  datatype Decision = Unauthorized | Forbidden | Proceed

  /** `includes` on a list of strings: an absent value is never found. */
  predicate Includes(list: seq<string>, v: Option<string>)
  {
    v.Some? && v.value in list
  }

  function Authorize(allowedRoles: seq<string>, allowedPlans: seq<string>, user: Option<User>): (d: Decision)
    ensures d == Unauthorized <==> user.None?
    ensures d == Proceed <==>
      && user.Some?
      && (allowedRoles == [] || Includes(allowedRoles, user.value.role))
      && (allowedPlans == [] || Includes(allowedPlans, user.value.plan))
  {
    if user.None? then Unauthorized
    else if || (|allowedRoles| > 0 && !Includes(allowedRoles, user.value.role))
            || (|allowedPlans| > 0 && !Includes(allowedPlans, user.value.plan))
    then Forbidden
    else Proceed
  }

  /** The default `authorize()` admits every authenticated user. */
  lemma EmptyListsAdmitEveryone(u: User)
    ensures Authorize([], [], Some(u)) == Proceed
  {
  }

  lemma RoleNotListedIsForbidden(roles: seq<string>, plans: seq<string>, u: User)
    requires roles != [] && !Includes(roles, u.role)
    ensures Authorize(roles, plans, Some(u)) == Forbidden
  {
  }

  lemma PlanNotListedIsForbidden(roles: seq<string>, plans: seq<string>, u: User)
    requires plans != [] && !Includes(plans, u.plan)
    ensures Authorize(roles, plans, Some(u)) == Forbidden
  {
  }

  /** A token without a role fails every non-empty role list. */
  lemma RolelessTokenForbidden(roles: seq<string>, plans: seq<string>, plan: Option<string>)
    requires roles != []
    ensures Authorize(roles, plans, Some(User(None, plan))) == Forbidden
  {
  }
}
