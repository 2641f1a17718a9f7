/** What the client pages share: JavaScript truthiness of an optional
    string, the answer of a request, and the two ways the pages decide that
    the logged-in user is an administrator. */
module Pages {
  import opened Wrappers
  import opened Session

  /** The role names of config/roles.js (assumed to be the names themselves). */
  const ADMIN := "Admin"
  const ROOT := "Root"

  /** A string that is neither missing nor empty. */
  predicate Truthy(s: Option<string>) {
    s.Some? && s.value != ""
  }

  /** `s || fallback` on an optional string: an empty message falls back too. */
  function OrElse(s: Option<string>, fallback: string): string {
    if Truthy(s) then s.value else fallback
  }

  /** The answer to a request: its data, or a failure with the `error`
      field of the response body when there is one. */
  datatype Answer<+T> = Answered(data: T) | Failed(error: Option<string>)

  /** `isAdmin` of pages/WorkingHours.js (and its copy in
      FixedWorkingHours.js): guarded against a missing auth or role list. */
  function IsAdmin(auth: Option<AuthInfo>): (b: bool)
    ensures b ==> auth.Some? && auth.value.info.roles.Some?
  {
    if auth.None? || auth.value.info.roles.None? then false
    else ADMIN in auth.value.info.roles.value || ROOT in auth.value.info.roles.value
  }

  /** `auth.roles.includes(ROLES.Admin) || auth.roles.includes(ROLES.Root)`
      as pages/Sleep.js, Task.js and Note.js compute it while rendering,
      without a guard: `None` when that throws a `TypeError`. */
  function UnguardedAdmin(auth: Option<AuthInfo>): (r: Option<bool>)
    ensures r.None? <==> auth.None? || auth.value.info.roles.None?
  {
    if auth.None? || auth.value.info.roles.None? then None
    else Some(ADMIN in auth.value.info.roles.value || ROOT in auth.value.info.roles.value)
  }

  /** The two admin tests agree wherever the unguarded one does not throw,
      and the guarded one says "no" exactly where the other throws or says "no". */
  lemma AdminTestsAgree(auth: Option<AuthInfo>)
    ensures UnguardedAdmin(auth).Some? ==> UnguardedAdmin(auth).value == IsAdmin(auth)
    ensures IsAdmin(auth) <==> UnguardedAdmin(auth) == Some(true)
  {
  }

  /** The caller looks at another user's data: a target user id is set and
      the caller's email is not the target's (`auth.email !== targetUser.userEmail`). */
  predicate ViewsOther(auth: AuthInfo, target: Option<TargetUser>) {
    target.Some? && Truthy(target.value.userId) && auth.info.email != target.value.userEmail
  }
}
