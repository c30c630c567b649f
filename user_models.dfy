/**
 * The `users` table: the `UserRole` enumeration and the `User` record, and the
 * store of users keyed by email that the core reads through
 * `UserInterface.get_user_by_email`.
 */
module UserModels {
  import opened Wrappers

  /** The two roles of the system; each one's stored string is its own name. */
  datatype UserRole = ADMIN | USER {
    /** The enumeration member's value, as written to the `userrole` column. */
    function Value(): (s: string)
      ensures |s| > 0
    {
      match this
      case ADMIN => "ADMIN"
      case USER => "USER"
    }
  }

  /** Looks a role up by its stored value, as `UserRole(s)` does. */
  function ParseRole(s: string): (r: Option<UserRole>)
    ensures r.Some? <==> s == "ADMIN" || s == "USER"
    ensures r.Some? ==> r.value.Value() == s
  {
    if s == "ADMIN" then Some(ADMIN)
    else if s == "USER" then Some(USER)
    else None
  }

  /** Every role's value parses back to that role. */
  lemma RoleValueRoundTrip(r: UserRole)
    ensures ParseRole(r.Value()) == Some(r)
  {
  }

  /**
   * A row of `users`. Every column is declared non-null, so every field here is a
   * plain value; `id` is the primary key and `email` is unique (see `ValidStore`).
   */
  datatype User = User(
    id: int,
    email: string,
    hashedPassword: string,
    firstName: string,
    lastName: string,
    role: UserRole)

  /** Builds a `User`; a role that is not supplied takes the column default `USER`. */
  function NewUser(id: int, email: string, hashedPassword: string, firstName: string,
                   lastName: string, role: Option<UserRole>): (u: User)
    ensures u.id == id && u.email == email && u.hashedPassword == hashedPassword
    ensures u.firstName == firstName && u.lastName == lastName
    ensures role.None? ==> u.role == USER
    ensures role.Some? ==> u.role == role.value
  {
    User(id, email, hashedPassword, firstName, lastName,
         match role case Some(r) => r case None => USER)
  }

  /** The table, keyed by the unique `email` column. */
  type Store = map<string, User>

  /**
   * What the table's constraints guarantee: each user is filed under its own
   * email (so emails are unique) and no two users share a primary key.
   */
  ghost predicate ValidStore(store: Store) {
    && (forall e :: e in store ==> store[e].email == e)
    && (forall e1, e2 :: e1 in store && e2 in store && store[e1].id == store[e2].id ==> e1 == e2)
  }

  /** `get_user_by_email`: the user with that email, or `None`. */
  function FindByEmail(store: Store, email: string): (r: Option<User>)
    ensures r.Some? <==> email in store
    ensures ValidStore(store) && r.Some? ==> r.value.email == email
    ensures r.Some? ==> r.value in store.Values
  {
    if email in store then Some(store[email]) else None
  }

  /** In a valid store a user is determined by its email, and also by its id. */
  lemma StoreKeysIdentify(store: Store, u: User, v: User)
    requires ValidStore(store)
    requires u in store.Values && v in store.Values
    ensures u.email == v.email ==> u == v
    ensures u.id == v.id ==> u == v
  {
    var eu :| eu in store && store[eu] == u;
    var ev :| ev in store && store[ev] == v;
    assert store[eu].email == eu && store[ev].email == ev;
  }
}
