/**
 * The user directory of the server (`userService`): look a user up by id or by
 * email. The database is a sequence of rows plus whether the query reaches it;
 * `findFirst` returns the first matching row. A failed query raises
 * INTERNAL_SERVER_ERROR, a missing user raises NOT_FOUND; a lookup never
 * returns an empty value, and it never changes the rows.
 */
module UserDirectory {
  import opened Wrappers
  import opened Errors
  import opened Schemas

  datatype Db = Db(rows: seq<User>, reachable: bool)

  /** `findFirst`: the first row satisfying `p`, if any. */
  function FindFirst(rows: seq<User>, p: User -> bool): (r: Option<User>)
    ensures r.None? <==> forall i :: 0 <= i < |rows| ==> !p(rows[i])
    ensures r.Some? ==> exists i :: 0 <= i < |rows| && rows[i] == r.value && p(rows[i])
                                  && forall j :: 0 <= j < i ==> !p(rows[j])
  {
    if |rows| == 0 then None
    else if p(rows[0]) then Some(rows[0])
    else
      var r := FindFirst(rows[1..], p);
      if r.Some? then
        var i :| 0 <= i < |rows[1..]| && rows[1..][i] == r.value && p(rows[1..][i])
                 && forall j :: 0 <= j < i ==> !p(rows[1..][j]);
        assert rows[i + 1] == r.value && forall j :: 0 <= j < i + 1 ==> !p(rows[j]);
        r
      else
        r
  }

  /** The database query: rejects when the database cannot be reached. */
  function Query(db: Db, p: User -> bool): (r: Attempt<Option<User>>)
    ensures r.Threw? <==> !db.reachable
    ensures r.Done? ==> r.value == FindFirst(db.rows, p)
  {
    if db.reachable then Done(FindFirst(db.rows, p)) else Threw(Fault("database query failed"))
  }

  const FailedToFind: Thrown := Raise(InternalServerError, "Failed to find user")
  const UserNotFound: Thrown := Raise(NotFound, "User not found")

  predicate HasId(rows: seq<User>, id: string) {
    exists i :: 0 <= i < |rows| && rows[i].id == id
  }

  predicate HasEmail(rows: seq<User>, email: string) {
    exists i :: 0 <= i < |rows| && rows[i].email == email
  }

  /** The shared body of both lookups: query, map a query error, then map absence. */
  function Find(db: Db, p: User -> bool): Attempt<User> {
    var (user, userError) := TryCatch(Query(db, p));
    if userError.Some? then Threw(FailedToFind)
    else if user.value.None? then Threw(UserNotFound)
    else Done(user.value.value)
  }

  /**
   * `findById`: on success the user has the requested id and is a stored row;
   * it throws INTERNAL_SERVER_ERROR exactly when the query fails and NOT_FOUND
   * exactly when no row has that id. Nothing else is ever thrown.
   */
  function FindById(db: Db, id: string): (r: Attempt<User>)
    ensures r.Done? ==> r.value.id == id && r.value in db.rows
    ensures r.Done? <==> db.reachable && HasId(db.rows, id)
    ensures r.Threw? ==> r.thrown == FailedToFind || r.thrown == UserNotFound
    ensures r == Threw(FailedToFind) <==> !db.reachable
    ensures r == Threw(UserNotFound) <==> db.reachable && !HasId(db.rows, id)
  {
    Find(db, (u: User) => u.id == id)
  }

  /** `findByEmail`: the same contract, keyed by email. */
  function FindByEmail(db: Db, email: string): (r: Attempt<User>)
    ensures r.Done? ==> r.value.email == email && r.value in db.rows
    ensures r.Done? <==> db.reachable && HasEmail(db.rows, email)
    ensures r.Threw? ==> r.thrown == FailedToFind || r.thrown == UserNotFound
    ensures r == Threw(FailedToFind) <==> !db.reachable
    ensures r == Threw(UserNotFound) <==> db.reachable && !HasEmail(db.rows, email)
  {
    Find(db, (u: User) => u.email == email)
  }

  /** Emails are unique among the rows: the `unique()` constraint on the users table. */
  predicate UniqueEmails(rows: seq<User>) {
    forall i, j :: 0 <= i < |rows| && 0 <= j < |rows| && rows[i].email == rows[j].email ==> i == j
  }

  /** With unique emails, `findByEmail` returns the one row with that email. */
  lemma FindByEmailUnique(db: Db, i: int)
    requires UniqueEmails(db.rows) && db.reachable && 0 <= i < |db.rows|
    ensures FindByEmail(db, db.rows[i].email) == Done(db.rows[i])
  {
    var r := FindByEmail(db, db.rows[i].email);
    assert r.Done?;
    var k :| 0 <= k < |db.rows| && db.rows[k] == r.value;
  }

  /** A soft-deleted row is still found: neither lookup looks at `deletedAt`. */
  lemma SoftDeletedStillFound(db: Db, i: int)
    requires db.reachable && 0 <= i < |db.rows| && db.rows[i].deletedAt.Some?
    ensures FindById(db, db.rows[i].id).Done?
    ensures FindByEmail(db, db.rows[i].email).Done?
  {
  }
}
