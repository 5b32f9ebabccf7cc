/**
 * The storage gateway: a table of users keyed by id, with a conditional
 * create, a whole-item conditional update, a read and an unconditional delete.
 * The storage service is an in-memory map; a failure of the service other
 * than a failed write condition is a parameter (`fault`) and is re-thrown
 * unchanged.
 */
module Repository {
  import opened Wrappers
  import opened Errors
  import opened UserSchema

  type Table = map<string, User>

  /** Every item is stored under its own id. */
  predicate Keyed(t: Table) {
    forall k :: k in t ==> t[k].id == k
  }

  /** Every item obeys the schema. */
  predicate AllWellFormed(t: Table) {
    forall k :: k in t ==> WellFormed(t[k])
  }

  /** `after` agrees with `before` on every key other than `id`. */
  ghost predicate Elsewhere(before: Table, after: Table, id: string) {
    forall k :: k != id ==> (k in after <==> k in before) && (k in before ==> after[k] == before[k])
  }

  /** The table after a write, and whether the write succeeded or which error it raised. */
  datatype Write = Write(table: Table, outcome: Outcome<AppError>)

  /** `create`: the put carries the condition that no item with the same id exists. */
  function Insert(t: Table, u: User, fault: Option<AppError>): (w: Write)
    ensures w.outcome.Pass? <==> fault.None? && u.id !in t
    ensures fault.Some? ==> w.outcome == Fail(fault.value)
    ensures fault.None? && u.id in t ==> w.outcome == Fail(UserAlreadyExistsError(None))
    ensures w.outcome.Fail? ==> w.table == t
    ensures w.outcome.Pass? ==> u.id in w.table && w.table[u.id] == u
    ensures Elsewhere(t, w.table, u.id)
  {
    if fault.Some? then Write(t, Fail(fault.value))
    else if u.id in t then Write(t, Fail(UserAlreadyExistsError(None)))
    else Write(t[u.id := u], Pass)
  }

  /** `get`: the stored item, or none. */
  function Lookup(t: Table, id: string, fault: Option<AppError>): (r: Result<Option<User>, AppError>)
    ensures fault.Some? ==> r == Err(fault.value)
    ensures fault.None? ==> r.Ok? && (r.value.Some? <==> id in t)
    ensures fault.None? && id in t ==> r.value.value == t[id]
  {
    if fault.Some? then Err(fault.value)
    else if id in t then Ok(Some(t[id]))
    else Ok(None)
  }

  /**
   * `update`: the put carries the condition that an item with the same id
   * exists, replaces the whole item and answers the item now stored.
   */
  function Replace(t: Table, u: User, fault: Option<AppError>): (r: Result<(Table, User), AppError>)
    ensures r.Ok? <==> fault.None? && u.id in t
    ensures fault.Some? ==> r == Err(fault.value)
    ensures fault.None? && u.id !in t ==> r == Err(UserNotFoundError(None))
    ensures r.Ok? ==> r.value.1 == u && u.id in r.value.0 && r.value.0[u.id] == u
    ensures r.Ok? ==> Elsewhere(t, r.value.0, u.id) && r.value.0.Keys == t.Keys
  {
    if fault.Some? then Err(fault.value)
    else if u.id !in t then Err(UserNotFoundError(None))
    else Ok((t[u.id := u], u))
  }

  /** `delete`: removes the key whether or not it is present. */
  function Remove(t: Table, id: string, fault: Option<AppError>): (w: Write)
    ensures w.outcome.Pass? <==> fault.None?
    ensures fault.Some? ==> w == Write(t, Fail(fault.value))
    ensures fault.None? ==> id !in w.table
    ensures Elsewhere(t, w.table, id)
  {
    if fault.Some? then Write(t, Fail(fault.value))
    else Write(t - {id}, Pass)
  }

  /** The table a successful update leaves, or the unchanged table. */
  function Updated(t: Table, u: User, fault: Option<AppError>): Table {
    var r := Replace(t, u, fault);
    if r.Ok? then r.value.0 else t
  }

  class UserRepository {
    var items: Table

    constructor()
      ensures items == map[]
    {
      items := map[];
    }

    method Create(user: User, fault: Option<AppError>) returns (r: Outcome<AppError>)
      modifies this
      ensures Write(items, r) == Insert(old(items), user, fault)
    {
      if fault.Some? {
        return Fail(fault.value);
      }
      if user.id in items {
        return Fail(UserAlreadyExistsError(None));
      }
      items := items[user.id := user];
      r := Pass;
    }

    method Get(id: string, fault: Option<AppError>) returns (r: Result<Option<User>, AppError>)
      ensures r == Lookup(items, id, fault)
      ensures r.Ok? && r.value.Some? ==> r.value.value == items[id]
    {
      if fault.Some? {
        return Err(fault.value);
      }
      r := if id in items then Ok(Some(items[id])) else Ok(None);
    }

    method Update(user: User, fault: Option<AppError>) returns (r: Result<User, AppError>)
      modifies this
      ensures var spec := Replace(old(items), user, fault);
        && items == Updated(old(items), user, fault)
        && (if spec.Ok? then r == Ok(spec.value.1) else r == Err(spec.error))
    {
      if fault.Some? {
        return Err(fault.value);
      }
      if user.id !in items {
        return Err(UserNotFoundError(None));
      }
      items := items[user.id := user];
      r := Ok(user);
    }

    method Delete(id: string, fault: Option<AppError>) returns (r: Outcome<AppError>)
      modifies this
      ensures Write(items, r) == Remove(old(items), id, fault)
    {
      if fault.Some? {
        return Fail(fault.value);
      }
      items := items - {id};
      r := Pass;
    }
  }

  // ---------------------------------------------------------------- properties

  /** After a successful create, reading the id yields the created user. */
  lemma CreateThenGet(t: Table, u: User)
    requires Insert(t, u, None).outcome.Pass?
    ensures Lookup(Insert(t, u, None).table, u.id, None) == Ok(Some(u))
  {
  }

  /** Deleting twice in a row succeeds both times and leaves what one delete leaves. */
  lemma DeleteIdempotent(t: Table, id: string)
    ensures Remove(t, id, None).outcome.Pass?
    ensures Remove(Remove(t, id, None).table, id, None) == Remove(t, id, None)
  {
  }

  /** Every write keeps each item stored under its own id. */
  lemma WritesKeepKeyed(t: Table, u: User, id: string, fault: Option<AppError>)
    requires Keyed(t)
    ensures Keyed(Insert(t, u, fault).table)
    ensures Keyed(Updated(t, u, fault))
    ensures Keyed(Remove(t, id, fault).table)
  {
  }
}
