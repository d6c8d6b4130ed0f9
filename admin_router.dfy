/** The admin endpoints of the backend (`routers/admin.py`): the admin
  * check, the role change with its superuser rules, user deletion and user
  * creation. Database functions and auth service calls are inputs: their
  * answer, or `None` where the source treats a failed call as unknown. */
module AdminRouter {
  import opened Wrappers

  /** The roles a role change may set. */
  const ValidRoles: set<string> := {"user", "developer", "admin", "superuser"}

  /** `require_admin_or_403`, `isAdmin` standing for the truthiness of the
    * `is_admin_or_superuser` answer. */
  function RequireAdmin(isAdmin: bool): (r: Option<HttpError>)
    ensures r.None? <==> isAdmin
    ensures r.Some? ==> r.value == HttpError(403, "admin only")
  {
    if isAdmin then None else Some(HttpError(403, "admin only"))
  }

  /** Whether the target is a superuser: the first `role_key` of the lookup
    * is "superuser"; a lookup that failed (`None`) counts as not. */
  function TargetIsSuperuser(lookup: Option<seq<Option<string>>>): (b: bool)
    ensures b <==> lookup.Some? && |lookup.value| > 0 && lookup.value[0] == Some("superuser")
  {
    match lookup
    case None => false
    case Some(rows) => rows != [] && rows[0] == Some("superuser")
  }

  /** The last-superuser guard: the superuser count is known, at most one,
    * and the target is a superuser. An unknown count skips it. */
  predicate LastSuperuser(count: Option<int>, lookup: Option<seq<Option<string>>>)
  {
    count.Some? && TargetIsSuperuser(lookup) && count.value <= 1
  }

  /** The refusal of a superuser grant by a caller not known to be one. */
  function SuperuserGrantRefused<T>(callerIsSu: Option<bool>): (r: Reply<T>)
    requires callerIsSu != Some(true)
    ensures callerIsSu == Some(false) ==> r == Raise(HttpError(403, "only superuser can grant superuser"))
    ensures callerIsSu.None? ==> r == Raise(HttpError(403, "superuser grant not allowed (missing is_superuser rpc)"))
  {
    if callerIsSu.None? then Raise(HttpError(403, "superuser grant not allowed (missing is_superuser rpc)"))
    else Raise(HttpError(403, "only superuser can grant superuser"))
  }

  /** `change_user_role`: `callerIsSu` is the `is_superuser` answer,
    * `count` the `count_superusers` answer, `lookup` the target's role rows
    * and `upsertError` the failure of the final write, if any. On success
    * the result is the role written. */
  function ChangeUserRole(isAdmin: bool, newRole: string, callerIsSu: Option<bool>, count: Option<int>,
                          lookup: Option<seq<Option<string>>>, upsertError: Option<string>)
    : (r: Reply<string>)
    ensures !isAdmin ==> r == Raise(HttpError(403, "admin only"))
    ensures isAdmin && newRole !in ValidRoles ==> r == Raise(HttpError(400, "invalid role"))
    ensures isAdmin && newRole == "superuser" && callerIsSu == Some(false)
      ==> r == Raise(HttpError(403, "only superuser can grant superuser"))
    ensures isAdmin && newRole == "superuser" && callerIsSu.None?
      ==> r == Raise(HttpError(403, "superuser grant not allowed (missing is_superuser rpc)"))
    ensures isAdmin && newRole in ValidRoles && newRole != "superuser" && LastSuperuser(count, lookup)
      ==> r == Raise(HttpError(409, "cannot demote the last superuser"))
    ensures r.Done? <==> isAdmin && newRole in ValidRoles && (newRole == "superuser" ==> callerIsSu == Some(true))
                         && !(newRole != "superuser" && LastSuperuser(count, lookup)) && upsertError.None?
    ensures r.Done? ==> r.value == newRole
    ensures isAdmin && newRole in ValidRoles && (newRole == "superuser" ==> callerIsSu == Some(true))
            && !(newRole != "superuser" && LastSuperuser(count, lookup)) && upsertError.Some?
      ==> r == Raise(HttpError(502, "failed to update role: " + upsertError.value))
  {
    if !isAdmin then Raise(HttpError(403, "admin only"))
    else if newRole !in ValidRoles then Raise(HttpError(400, "invalid role"))
    else if newRole == "superuser" && callerIsSu != Some(true) then
      SuperuserGrantRefused(callerIsSu)
    else if newRole != "superuser" && LastSuperuser(count, lookup) then
      Raise(HttpError(409, "cannot demote the last superuser"))
    else if upsertError.Some? then Raise(HttpError(502, "failed to update role: " + upsertError.value))
    else Done(newRole)
  }

  /** The auth service's answer to a user deletion: its status, the `msg`
    * field when the body is a JSON object (`None` when it is not), and the
    * body text. */
  datatype DeleteAnswer = DeleteAnswer(status: int, msg: Option<Option<string>>, text: string)

  /** The detail of a failed deletion: `msg`, else the body text, else
    * "delete failed". */
  function DeleteFailureDetail(a: DeleteAnswer): (d: string)
    ensures d != ""
    ensures a.msg.Some? && Truthy(a.msg.value) ==> d == a.msg.value.value
    ensures (a.msg.None? || !Truthy(a.msg.value)) && a.text != "" ==> d == a.text
  {
    var msg := if a.msg.Some? && Truthy(a.msg.value) then a.msg.value.value else a.text;
    if msg != "" then msg else "delete failed"
  }

  /** `delete_user`: the same last-superuser guard, then the auth service
    * deletion, where 200, 204 and 404 (already gone) all count as done. */
  function DeleteUser(isAdmin: bool, count: Option<int>, lookup: Option<seq<Option<string>>>, answer: DeleteAnswer)
    : (r: Reply<bool>)
    ensures !isAdmin ==> r == Raise(HttpError(403, "admin only"))
    ensures isAdmin && LastSuperuser(count, lookup) ==> r == Raise(HttpError(409, "cannot delete the last superuser"))
    ensures r.Done? <==> isAdmin && !LastSuperuser(count, lookup) && answer.status in {200, 204, 404}
    ensures r.Done? ==> r.value
    ensures isAdmin && !LastSuperuser(count, lookup) && answer.status !in {200, 204, 404}
      ==> r == Raise(HttpError(answer.status, DeleteFailureDetail(answer)))
  {
    if !isAdmin then Raise(HttpError(403, "admin only"))
    else if LastSuperuser(count, lookup) then Raise(HttpError(409, "cannot delete the last superuser"))
    else if answer.status !in {200, 204, 404} then Raise(HttpError(answer.status, DeleteFailureDetail(answer)))
    else Done(true)
  }

  /** The fields of an error body from the auth service. */
  datatype ErrorFields = ErrorFields(msg: Option<string>, errorDescription: Option<string>, error: Option<string>)

  /** The auth service's answer to a user creation: its status, the error
    * fields when the body is a JSON object, the body text, and the `id` of
    * the created user. */
  datatype CreateAnswer = CreateAnswer(status: int, fields: Option<ErrorFields>, text: string, id: Option<string>)

  /** The detail of a failed creation: `msg`, else `error_description`, else
    * `error` when the body is a JSON object, the body text when it is not;
    * then "failed to create user" when that is empty. */
  function CreateFailureDetail(a: CreateAnswer): (d: string)
    ensures d != ""
    ensures a.fields.None? ==> d == (if a.text != "" then a.text else "failed to create user")
    ensures a.fields.Some? && Truthy(a.fields.value.msg) ==> d == a.fields.value.msg.value
    ensures a.fields.Some? && !Truthy(a.fields.value.msg) && Truthy(a.fields.value.errorDescription)
      ==> d == a.fields.value.errorDescription.value
    ensures a.fields.Some? && !Truthy(a.fields.value.msg) && !Truthy(a.fields.value.errorDescription)
      ==> d == (if Truthy(a.fields.value.error) then a.fields.value.error.value else "failed to create user")
  {
    var detail :=
      if a.fields.None? then a.text
      else if Truthy(a.fields.value.msg) then a.fields.value.msg.value
      else if Truthy(a.fields.value.errorDescription) then a.fields.value.errorDescription.value
      else if Truthy(a.fields.value.error) then a.fields.value.error.value
      else "";
    if detail != "" then detail else "failed to create user"
  }

  /** `raise_for_status` passes only 2xx answers. */
  predicate Succeeded(status: int) { 200 <= status < 300 }

  /** The `user_roles` row a created user gets. */
  datatype RoleRow = RoleRow(userId: string, role: string)

  /** `create_user` as written: the requested role is written for the new
    * user without any check of its own. */
  function CreateUserAsWritten(isAdmin: bool, role: string, answer: CreateAnswer): (r: Reply<RoleRow>)
    ensures !isAdmin ==> r == Raise(HttpError(403, "admin only"))
    ensures isAdmin && !Succeeded(answer.status)
      ==> r == Raise(HttpError(answer.status, CreateFailureDetail(answer)))
    ensures isAdmin && Succeeded(answer.status) && !Truthy(answer.id)
      ==> r == Raise(HttpError(502, "invalid admin response: no id"))
    ensures r.Done? <==> isAdmin && Succeeded(answer.status) && Truthy(answer.id)
    ensures r.Done? ==> r.value == RoleRow(answer.id.value, role)
  {
    if !isAdmin then Raise(HttpError(403, "admin only"))
    else if !Succeeded(answer.status) then Raise(HttpError(answer.status, CreateFailureDetail(answer)))
    else if !Truthy(answer.id) then Raise(HttpError(502, "invalid admin response: no id"))
    else Done(RoleRow(answer.id.value, role))
  }

  /** As written, an admin who is not a superuser creates a superuser, and
    * a role outside the valid ones is written too. */
  lemma AdminCreatesSuperuser(answer: CreateAnswer)
    requires Succeeded(answer.status) && Truthy(answer.id)
    ensures ChangeUserRole(true, "superuser", Some(false), None, None, None).Raise?
    ensures CreateUserAsWritten(true, "superuser", answer) == Done(RoleRow(answer.id.value, "superuser"))
    ensures CreateUserAsWritten(true, "root", answer).Done? && "root" !in ValidRoles
  {
  }

  /** `create_user` with the role rules of `change_user_role` applied before
    * the account is created: a valid role, and superuser only when the
    * caller is one. */
  function CreateUser(isAdmin: bool, role: string, callerIsSu: Option<bool>, answer: CreateAnswer): (r: Reply<RoleRow>)
    ensures !isAdmin ==> r == Raise(HttpError(403, "admin only"))
    ensures isAdmin && role !in ValidRoles ==> r == Raise(HttpError(400, "invalid role"))
    ensures r.Done? ==> r.value.role == role && role in ValidRoles
    ensures r.Done? && role == "superuser" ==> callerIsSu == Some(true)
    ensures isAdmin && role in ValidRoles && (role == "superuser" ==> callerIsSu == Some(true))
      ==> r == CreateUserAsWritten(isAdmin, role, answer)
  {
    if !isAdmin then Raise(HttpError(403, "admin only"))
    else if role !in ValidRoles then Raise(HttpError(400, "invalid role"))
    else if role == "superuser" && callerIsSu != Some(true) then
      SuperuserGrantRefused(callerIsSu)
    else CreateUserAsWritten(isAdmin, role, answer)
  }

  /** The role table: user id to role. */
  type Roles = map<string, string>

  ghost function Superusers(roles: Roles): set<string>
  {
    set u | u in roles && roles[u] == "superuser"
  }

  /** The rows the role lookup returns for `userId` when it succeeds. */
  function LookupRows(roles: Roles, userId: string): (rows: seq<Option<string>>)
    ensures |rows| <= 1
    ensures rows != [] <==> userId in roles
  {
    if userId in roles then [Some(roles[userId])] else []
  }

  lemma RemoveOne(s: set<string>, x: string)
    requires x in s
    ensures |s - {x}| == |s| - 1
  {
  }

  /** When the superuser count and the lookup are accurate, a role change
    * that goes through leaves at least one superuser. */
  lemma RoleChangeKeepsASuperuser(roles: Roles, userId: string, isAdmin: bool, newRole: string,
                                  callerIsSu: Option<bool>, upsertError: Option<string>)
    requires |Superusers(roles)| >= 1
    requires ChangeUserRole(isAdmin, newRole, callerIsSu, Some(|Superusers(roles)|),
                            Some(LookupRows(roles, userId)), upsertError).Done?
    ensures |Superusers(roles[userId := newRole])| >= 1
  {
    var after := roles[userId := newRole];
    if newRole == "superuser" {
      assert userId in Superusers(after);
    } else if userId in Superusers(roles) {
      assert LookupRows(roles, userId)[0] == Some("superuser");
      assert Superusers(after) == Superusers(roles) - {userId};
      RemoveOne(Superusers(roles), userId);
    } else {
      assert Superusers(after) == Superusers(roles);
    }
  }

  /** The same for a deletion that goes through. */
  lemma DeleteKeepsASuperuser(roles: Roles, userId: string, isAdmin: bool, answer: DeleteAnswer)
    requires |Superusers(roles)| >= 1
    requires DeleteUser(isAdmin, Some(|Superusers(roles)|), Some(LookupRows(roles, userId)), answer).Done?
    ensures |Superusers(roles - {userId})| >= 1
  {
    var after := roles - {userId};
    if userId in Superusers(roles) {
      assert LookupRows(roles, userId)[0] == Some("superuser");
      assert Superusers(after) == Superusers(roles) - {userId};
      RemoveOne(Superusers(roles), userId);
    } else {
      assert Superusers(after) == Superusers(roles);
    }
  }

  /** Deleting a user twice: the second answer, 404, counts as done. */
  lemma DeleteIsIdempotent(isAdmin: bool, count: Option<int>, lookup: Option<seq<Option<string>>>, text: string)
    requires isAdmin && !LastSuperuser(count, lookup)
    ensures DeleteUser(isAdmin, count, lookup, DeleteAnswer(404, None, text)) == Done(true)
  {
  }
}
