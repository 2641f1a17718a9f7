/** What the backend handlers share: identifiers, the stored user record,
    the role names, the value `req.roles` carries into a handler, and the
    shape of a handler's answer. */
module Accounts {
  import opened Text

  /** A document identifier (a MongoDB ObjectId). */
  type Id = nat

  /** The role names of config/rolesList.js (assumed to be the names themselves). */
  const ROOT := "Root"
  const ADMIN := "Admin"
  const USER := "User"

  /** A stored user, as the handlers read it. */
  datatype Account = Account(name: string, email: string, roles: seq<string>, active: bool)

  /** `req.roles` as a handler sees it. requireAuth stores the user's role
      array there; the role middleware in front of the handlers is not part
      of this model and may pass on a single role name instead, so both are kept. */
  datatype RoleValue = RoleText(text: string) | RoleArray(items: seq<string>) {

    /** `req.roles.includes(role)`: a substring test on a string, a membership test on an array. */
    function Includes(role: string): bool {
      match this
      case RoleText(t) => Contains(t, role)
      case RoleArray(items) => role in items
    }

    /** The property name `task[req.roles]` looks up: the string itself, or
        the array's elements joined with ",". */
    function Key(): string {
      match this
      case RoleText(t) => t
      case RoleArray(items) => Join(items, ',')
    }

    /** `req.roles === 'User'`: never true of an array. */
    predicate IsUserText() {
      this == RoleText(USER)
    }
  }

  /** A single-role array looks up the same property as the role name itself. */
  lemma SingleRoleKey(role: string)
    ensures RoleArray([role]).Key() == role
  {
  }

  /** An array of two roles or more is looked up under a key holding a
      comma, which is none of the role names: no property is found. */
  lemma {:induction false} MultiRoleKeyIsNoRole(items: seq<string>)
    requires |items| >= 2
    ensures ',' in RoleArray(items).Key()
    ensures RoleArray(items).Key() != ROOT && RoleArray(items).Key() != ADMIN && RoleArray(items).Key() != USER
  {
    var key := RoleArray(items).Key();
    assert key == items[0] + [','] + Join(items[1..], ',');
    assert key[|items[0]|] == ',';
  }

  /** A role name includes itself, whichever way it is passed on. */
  lemma {:induction false} IncludesOwnRole(role: string)
    ensures RoleText(role).Includes(role) && RoleArray([role]).Includes(role)
  {
    ContainsIff(role, role);
    assert OccursAt(role, role, 0);
  }

  /** What a handler answers: a success status with a body, a `CustomError`
      with its status and message, or an exception raised by code that is not
      part of this model, whose status is decided by the error handler. */
  datatype Reply<T> = Ok(status: int, value: T) | Err(status: int, message: string) | Thrown(origin: string)
}
