/** User records as the backend returns them, and the partial updates it sends back. */
module Accounts {
  import opened Wrappers
  import opened Text

  /** A user account; `fullName` may be null. Timestamps are abstract integers. */
  datatype User = User(uid: String, username: String, fullName: Option<String>, role: String,
                       createdAt: int, updatedAt: int)

  /**
   * A response body carrying some of a user's fields. `None` means the key is
   * absent; for `fullName`, `Some(None)` is a key present with a null value.
   */
  datatype UserPatch = UserPatch(uid: Option<String>, username: Option<String>,
                                 fullName: Option<Option<String>>, role: Option<String>,
                                 createdAt: Option<int>, updatedAt: Option<int>)

  /** `{ ...u, ...p }`: every key present in `p` overrides the same key of `u`. */
  function Patch(u: User, p: UserPatch): (v: User)
    ensures p == UserPatch(None, None, None, None, None, None) ==> v == u
    ensures p.uid.None? || p.uid == Some(u.uid) ==> v.uid == u.uid
    ensures p.uid.Some? ==> v.uid == p.uid.value
    ensures p.username.Some? ==> v.username == p.username.value
    ensures p.username.None? ==> v.username == u.username
    ensures p.fullName.Some? ==> v.fullName == p.fullName.value
    ensures p.fullName.None? ==> v.fullName == u.fullName
    ensures p.role.Some? ==> v.role == p.role.value
    ensures p.role.None? ==> v.role == u.role
    ensures p.createdAt.Some? ==> v.createdAt == p.createdAt.value
    ensures p.createdAt.None? ==> v.createdAt == u.createdAt
    ensures p.updatedAt.Some? ==> v.updatedAt == p.updatedAt.value
    ensures p.updatedAt.None? ==> v.updatedAt == u.updatedAt
  {
    User(p.uid.GetOr(u.uid), p.username.GetOr(u.username), p.fullName.GetOr(u.fullName),
         p.role.GetOr(u.role), p.createdAt.GetOr(u.createdAt), p.updatedAt.GetOr(u.updatedAt))
  }

  /** Spreading the same response twice changes nothing more than spreading it once. */
  lemma PatchIdempotent(u: User, p: UserPatch)
    ensures Patch(Patch(u, p), p) == Patch(u, p)
  {
  }
}
