/** The `checkOwnership` middleware and the `[auth, checkOwnership]` chain in
    front of every mutating portfolio route. The decision depends only on the
    path's `userId` and on `req.user`; nothing is looked up.

    As written, the middleware reads `req.user._id`, but `auth` attaches an
    object whose key is `id`. Reading `.toString()` of the missing `_id` throws,
    so every authenticated request ends in the 500 branch. `CheckOwnershipAsWritten`
    keeps that code; `CheckOwnership` reads `id`, and is what the portfolio
    routes use. */
module Ownership {
  import opened JsValues
  import opened Sections
  import opened Auth

  /** The outcome of a middleware: `next()` is called, or a `{ message }` response is sent. */
  datatype Gate = Next | Deny(status: int, message: string)

  const NotAuthorized := "Not authorized to modify this data"
  const OwnershipError := "Error checking ownership"

  /** The ownership test on the property `key` of `req.user`: a missing `req.user`
      or a missing property throws (500); a different id is a 403. */
  function CompareOwner(user: Option<JsObject>, key: string, userId: string): (g: Gate)
    ensures g == Next <==> user.Some? && key in user.value && user.value[key] == userId
    ensures g != Next ==> g == Deny(403, NotAuthorized) || g == Deny(500, OwnershipError)
    ensures g == Deny(500, OwnershipError) <==> user.None? || key !in user.value
  {
    if user.None? || key !in user.value then Deny(500, OwnershipError)
    else if user.value[key] != userId then Deny(403, NotAuthorized)
    else Next
  }

  /** checkOwnership as written: compares `req.user._id`. */
  function CheckOwnershipAsWritten(user: Option<JsObject>, userId: string): (g: Gate)
    ensures g == Next <==> user.Some? && "_id" in user.value && user.value["_id"] == userId
    ensures user.Some? && "_id" !in user.value ==> g == Deny(500, OwnershipError)
  {
    CompareOwner(user, "_id", userId)
  }

  /** checkOwnership reading the key `auth` actually sets. */
  function CheckOwnership(user: Option<JsObject>, userId: string): (g: Gate)
    ensures g == Next <==> user.Some? && "id" in user.value && user.value["id"] == userId
    ensures user.Some? && "id" in user.value && user.value["id"] != userId ==> g == Deny(403, NotAuthorized)
  {
    CompareOwner(user, "id", userId)
  }

  /** As written, no request that `auth` accepts gets past `checkOwnership`:
      whatever the path says, the answer is 500. */
  lemma AsWrittenRejectsEveryCaller(header: Option<string>, verify: string -> Verified,
                                    users: map<Id, Account>, userId: string)
    requires Authenticate(header, verify, users).Accepted?
    ensures CheckOwnershipAsWritten(Some(Authenticate(header, verify, users).user), userId)
            == Deny(500, OwnershipError)
  {
    var u := Authenticate(header, verify, users).user;
    assert u.Keys == {"id", "email", "role"};
    assert "_id" !in u.Keys;
  }

  /** Reading `id`, the owner named by the token passes and everyone else gets a 403. */
  lemma OwnerPasses(header: Option<string>, verify: string -> Verified,
                    users: map<Id, Account>, userId: string)
    requires Authenticate(header, verify, users).Accepted?
    ensures var r := Authenticate(header, verify, users);
      CheckOwnership(Some(r.user), userId) ==
        (if verify(r.token).userId == userId then Next else Deny(403, NotAuthorized))
  {
    var r := Authenticate(header, verify, users);
    assert "id" in r.user.Keys;
  }

  /** The result of the `[auth, checkOwnership]` chain on a route with `:userId`. */
  datatype Guarded = Proceed(caller: Id) | Stop(status: int, message: string)

  /** `auth` then `checkOwnership` (reading `id`): the handler runs only for the
      user the token names, and only when that is the path's user. */
  function Guard(header: Option<string>, verify: string -> Verified, users: map<Id, Account>, userId: string): (r: Guarded)
    ensures r.Proceed? <==>
      Authenticate(header, verify, users).Accepted?
      && verify(Authenticate(header, verify, users).token).userId == userId
    ensures r.Proceed? ==> r.caller == userId && userId in users
    ensures r.Stop? ==> r.status == 401 || r == Stop(403, NotAuthorized)
    ensures Authenticate(header, verify, users).Rejected? ==> r.Stop? && r.status == 401
  {
    var a := Authenticate(header, verify, users);
    match a
    case Rejected(status, message) => Stop(status, message)
    case Accepted(user, _) =>
      OwnerPasses(header, verify, users, userId);
      match CheckOwnership(Some(user), userId)
      case Next => Proceed(userId)
      case Deny(status, message) => Stop(status, message)
  }

  /** The chain as written: never reaches a handler. */
  function GuardAsWritten(header: Option<string>, verify: string -> Verified, users: map<Id, Account>, userId: string): (r: Guarded)
    ensures r.Stop?
    ensures r.status == 401 || r.status == 500
  {
    var a := Authenticate(header, verify, users);
    match a
    case Rejected(status, message) => Stop(status, message)
    case Accepted(user, _) =>
      AsWrittenRejectsEveryCaller(header, verify, users, userId);
      match CheckOwnershipAsWritten(Some(user), userId)
      case Next => Proceed(userId)
      case Deny(status, message) => Stop(status, message)
  }
}
