/**
 * The local user store's string helpers and error mapping. The database and
 * bcrypt are abstract: their outcomes are parameters.
 */
module UsersStore {
  import opened Wrappers
  import opened Strings

  /** A database or hashing error, known by its message. */
  datatype DbError = DbError(message: string)

  datatype StoreError = UserNotFound | UserAlreadyExists | InvalidPassword | Db(cause: DbError)

  datatype User = User(id: int, username: string, passwordHash: string, role: string, createdAt: int)

  /** `containsAt`: tries every start from `start` to `|s| - |sub|`, stopping at the first match. */
  method ContainsAt(s: string, sub: string, start: int) returns (found: bool)
    requires 0 <= start
    ensures found <==> exists i | start <= i :: OccursAt(sub, s, i)
  {
    var i := start;
    while i <= |s| - |sub|
      invariant start <= i
      invariant forall j | start <= j < i :: !OccursAt(sub, s, j)
      decreases |s| - |sub| - i
    {
      if s[i..i + |sub|] == sub {
        assert OccursAt(sub, s, i);
        return true;
      }
      i := i + 1;
    }
    return false;
  }

  /** `contains`: `sub` occurs in `s`. */
  method Contains(s: string, sub: string) returns (found: bool)
    ensures found <==> IsSubstring(sub, s)
  {
    if |s| < |sub| {
      return false;
    }
    if s == sub {
      assert OccursAt(sub, s, 0);
      return true;
    }
    if |s| == 0 {
      return false;
    }
    found := ContainsAt(s, sub, 0);
  }

  /** `Contains` with an empty `sub` always finds it, and never finds a longer one. */
  lemma ContainsEdges(s: string, sub: string)
    ensures IsSubstring("", s)
    ensures |sub| > |s| ==> !IsSubstring(sub, s)
  {
    EmptyIsSubstring(s);
  }

  /** The messages SQLite and Postgres give for a unique-index violation. */
  predicate UniqueViolation(err: Option<DbError>) {
    err.Some? && (IsSubstring("UNIQUE constraint failed", err.value.message)
                  || IsSubstring("unique constraint", err.value.message))
  }

  /** `isUniqueViolation`: false for no error, else a search of the message for either phrase. */
  method IsUniqueViolation(err: Option<DbError>) returns (r: bool)
    ensures r <==> UniqueViolation(err)
  {
    if err.None? {
      return false;
    }
    r := Contains(err.value.message, "UNIQUE constraint failed");
    if !r {
      r := Contains(err.value.message, "unique constraint");
    }
  }

  /**
   * `CreateUser` over the outcomes of its steps: hashing, the insert, reading
   * the new row id and fetching the row back by that id.
   */
  method CreateUser(hash: Result<string, DbError>, insert: Option<DbError>,
                    lastInsertId: Result<int, DbError>, getUserByID: int -> Result<User, StoreError>)
    returns (r: Result<User, StoreError>)
    ensures hash.Err? ==> r == Err(Db(hash.error))
    ensures hash.Ok? && insert.Some? ==>
      r == (if UniqueViolation(insert) then Err(UserAlreadyExists) else Err(Db(insert.value)))
    ensures hash.Ok? && insert.None? && lastInsertId.Err? ==> r == Err(Db(lastInsertId.error))
    ensures hash.Ok? && insert.None? && lastInsertId.Ok? ==> r == getUserByID(lastInsertId.value)
  {
    if hash.Err? {
      return Err(Db(hash.error));
    }
    if insert.Some? {
      var unique := IsUniqueViolation(insert);
      if unique {
        return Err(UserAlreadyExists);
      }
      return Err(Db(insert.value));
    }
    if lastInsertId.Err? {
      return Err(Db(lastInsertId.error));
    }
    r := getUserByID(lastInsertId.value);
  }

  /** `DeleteUser` over the outcome of the delete statement and of its affected-row count. */
  method DeleteUser(exec: Option<DbError>, rowsAffected: Result<int, DbError>) returns (r: Option<StoreError>)
    ensures exec.Some? ==> r == Some(Db(exec.value))
    ensures exec.None? && rowsAffected.Err? ==> r == Some(Db(rowsAffected.error))
    ensures exec.None? && rowsAffected.Ok? ==> (r == Some(UserNotFound) <==> rowsAffected.value == 0)
    ensures exec.None? && rowsAffected.Ok? && rowsAffected.value != 0 ==> r.None?
  {
    if exec.Some? {
      return Some(Db(exec.value));
    }
    if rowsAffected.Err? {
      return Some(Db(rowsAffected.error));
    }
    if rowsAffected.value == 0 {
      return Some(UserNotFound);
    }
    return None;
  }
}
