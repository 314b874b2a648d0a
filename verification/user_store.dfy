/**
 * The persistent user table the controller reads and writes through its
 * database client, abstracted to a map from id to record.
 *
 * The database itself is not part of this model; what the controller relies on
 * is stated here as the store's own behaviour:
 *  - every record has a distinct id, allocated fresh on create;
 *  - `email` is a unique column, so a create with a taken email fails;
 *  - an update of a record that does not exist fails.
 */
module UserStore {
  import opened Wrappers

  /** Record ids are opaque to the controller; a counter allocates fresh ones. */
  type UserId = nat

  /**
   * The fields of a user record the controller touches (src/types/user.ts).
   * Optional fields of the record type are `Option`s; `role` is kept as the
   * plain string that was written, because the register schema, the role
   * enumeration and the Google-login default do not agree on its values.
   */
  datatype User = User(
    email: string,
    password: string,           // bcrypt hash, or "" for Google-created accounts
    username: string,
    fullname: string,
    phone: Option<string>,
    avatarUrl: Option<string>,
    role: string,
    emailVerified: Option<bool>,
    refreshToken: Option<string>  // the one live refresh token, stored verbatim
  )

  datatype Store = Store(users: map<UserId, User>, nextId: UserId)

  /** Every stored id was handed out by the allocator. */
  predicate IdsAllocated(s: Store) {
    forall id :: id in s.users ==> id < s.nextId
  }

  /** The unique constraint on the email column. */
  predicate EmailsUnique(users: map<UserId, User>) {
    forall i, j :: i in users && j in users && users[i].email == users[j].email ==> i == j
  }

  predicate Valid(s: Store) {
    IdsAllocated(s) && EmailsUnique(s.users)
  }

  /** A store in the state the database guarantees. Every operation below keeps it so. */
  type ValidStore = s: Store | Valid(s) witness Store(map[], 0)

  const Empty: ValidStore := Store(map[], 0)

  /** Some record carries `email`. */
  predicate HasEmail(s: Store, email: string) {
    exists id :: id in s.users && s.users[id].email == email
  }

  /** `id` names the record that currently holds refresh token `token`. */
  predicate HoldsSession(s: Store, id: UserId, token: string) {
    id in s.users && s.users[id].refreshToken == Some(token)
  }

  /**
   * Scans the ids below `n`, highest first, for a record with `email`.
   * It finds one exactly when one exists below `n`.
   */
  function FindBelow(users: map<UserId, User>, email: string, n: nat): (r: Option<UserId>)
    ensures r.Some? ==> r.value < n && r.value in users && users[r.value].email == email
    ensures r.None? ==> forall id :: id < n && id in users ==> users[id].email != email
    decreases n
  {
    if n == 0 then None
    else if n - 1 in users && users[n - 1].email == email then Some(n - 1)
    else FindBelow(users, email, n - 1)
  }

  /**
   * `findUnique({ where: { email } })`: the one record with that email, if any.
   */
  function FindByEmail(s: ValidStore, email: string): (r: Option<UserId>)
    ensures r.None? <==> !HasEmail(s, email)
    ensures forall id :: id in s.users && s.users[id].email == email ==> r == Some(id)
  {
    FindBelow(s.users, email, s.nextId)
  }

  /** `s'` is `s` with record `u` added under the previously unused id `id`, and nothing else changed. */
  predicate AddedAt(s: Store, s': Store, id: UserId, u: User) {
    && id !in s.users
    && s'.users.Keys == s.users.Keys + {id}
    && s'.users[id] == u
    && forall other :: other in s.users ==> s'.users[other] == s.users[other]
  }

  /**
   * `create({ data })`: adds `u` under a fresh id, or fails, as the unique
   * email constraint demands, when the email is already taken.
   */
  function Create(s: ValidStore, u: User): (r: Option<(ValidStore, UserId)>)
    ensures r.None? <==> HasEmail(s, u.email)
    ensures r.Some? ==> AddedAt(s, r.value.0, r.value.1, u) && |r.value.0.users| == |s.users| + 1
  {
    if HasEmail(s, u.email) then None
    else
      var s' := Store(s.users[s.nextId := u], s.nextId + 1);
      assert s'.users.Keys == s.users.Keys + {s.nextId};
      Some((s', s.nextId))
  }

  /** `s'` is `s` with only the refresh token of record `id` replaced by `token`. */
  predicate Rotated(s: Store, s': Store, id: UserId, token: string) {
    && id in s.users
    && s'.nextId == s.nextId
    && s'.users.Keys == s.users.Keys
    && s'.users[id] == s.users[id].(refreshToken := Some(token))
    && forall other :: other in s.users && other != id ==> s'.users[other] == s.users[other]
  }

  /**
   * `update({ where: { id }, data: { refreshToken } })`: fails when there is
   * no record `id`, and otherwise touches that one field of that one record.
   */
  function SetRefreshToken(s: ValidStore, id: UserId, token: string): (r: Option<ValidStore>)
    ensures r.None? <==> id !in s.users
    ensures r.Some? ==> Rotated(s, r.value, id, token) && HoldsSession(r.value, id, token)
  {
    if id !in s.users then None
    else Some(Store(s.users[id := s.users[id].(refreshToken := Some(token))], s.nextId))
  }
}
