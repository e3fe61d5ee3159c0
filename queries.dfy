/** The `users` and `resource` tables and the queries the server runs on them.

    Each query is a method of `Database`, the in-memory stand-in for the
    relational store. Whether a round trip to the store succeeds is an input
    (`ok`): the driver may report an error for reasons the model does not see.
    A query answers the way its callback is called: either with an error and
    no results, or with results and no error (`Reply`). */
module Queries {
  import opened Wrappers
  import opened Passwords

  /** A row of `users`. `apiCalls` is the quota the queries read and write. */
  datatype UserRow = UserRow(
    id: int,
    username: string,
    email: string,
    password: PasswordHash,
    isAdmin: bool,
    apiCalls: int)

  /** The unique key of a `resource` row: UNIQUE (method, endpoint). */
  datatype ResourceKey = ResourceKey(endpoint: string, verb: string)

  /** A `resource` row as `SELECT *` returns it. */
  datatype ResourceRow = ResourceRow(endpoint: string, verb: string, requests: int)

  /** Why the store rejected a query. */
  datatype DbError = StorageError | NotNullViolation | UniqueViolation

  /** The two ways a query calls back: `callback(err, null)` or `callback(null, results)`. */
  datatype Reply<T> = Failed(error: DbError) | Done(results: T)

  /** Whether each database round trip of one request succeeds: the two of
      the request counter (its SELECT and its UPDATE or INSERT), the handler's
      first query and the handler's follow-up query. */
  datatype Io = Io(counterRead: bool, counterWrite: bool, query: bool, followUp: bool)

  // ---------------------------------------------------------------------
  // Table invariants

  /** Each row sits under its own id. */
  predicate WellKeyed(users: map<int, UserRow>)
  {
    forall id | id in users :: users[id].id == id
  }

  /** `email VARCHAR(255) NOT NULL UNIQUE`. */
  predicate EmailsUnique(users: map<int, UserRow>)
  {
    forall a, b | a in users && b in users && users[a].email == users[b].email :: a == b
  }

  /** The quota column is never negative. */
  predicate QuotasNonNegative(users: map<int, UserRow>)
  {
    forall id | id in users :: users[id].apiCalls >= 0
  }

  /** Some row already has this email. */
  predicate EmailTaken(users: map<int, UserRow>, email: string)
  {
    exists id | id in users :: users[id].email == email
  }

  // ---------------------------------------------------------------------
  // What each writing query does to a table

  /** `GREATEST(0, x)`. */
  function Greatest0(x: int): (r: int)
    ensures r >= 0 && r >= x
    ensures r == x || r == 0
  {
    if x < 0 then 0 else x
  }

  /** `UPDATE users SET api_calls = GREATEST(0, api_calls - 1) WHERE id = ?`. */
  function Decremented(users: map<int, UserRow>, id: int): (r: map<int, UserRow>)
    ensures r.Keys == users.Keys
    ensures forall k | k in users && k != id :: r[k] == users[k]
    ensures id in users ==> r[id] == users[id].(apiCalls := r[id].apiCalls)
    ensures id in users ==> r[id].apiCalls >= 0
    ensures id in users && users[id].apiCalls > 0 ==> r[id].apiCalls == users[id].apiCalls - 1
    ensures id in users && users[id].apiCalls <= 0 ==> r[id].apiCalls == 0
  {
    if id in users then users[id := users[id].(apiCalls := Greatest0(users[id].apiCalls - 1))] else users
  }

  /** `UPDATE users SET username = ? WHERE id = ?`. */
  function Renamed(users: map<int, UserRow>, id: int, username: string): (r: map<int, UserRow>)
    ensures r.Keys == users.Keys
    ensures forall k | k in users && k != id :: r[k] == users[k]
    ensures id in users ==> r[id].username == username && r[id] == users[id].(username := r[id].username)
  {
    if id in users then users[id := users[id].(username := username)] else users
  }

  /** `DELETE FROM users WHERE id = ?`. */
  function Removed(users: map<int, UserRow>, id: int): (r: map<int, UserRow>)
    ensures r.Keys == users.Keys - {id}
    ensures forall k | k in r :: r[k] == users[k]
  {
    users - {id}
  }

  /** The request counter after one more request to `key`: the row's count
      goes up by one, or a row with count 1 appears. */
  function Counted(resource: map<ResourceKey, int>, key: ResourceKey): (r: map<ResourceKey, int>)
    ensures r.Keys == resource.Keys + {key}
    ensures key in resource ==> r[key] == resource[key] + 1
    ensures key !in resource ==> r[key] == 1
    ensures forall k | k in resource && k != key :: r[k] == resource[k]
  {
    if key in resource then resource[key := resource[key] + 1] else resource[key := 1]
  }

  /** The request counter after `n` requests to `key`, one after another. */
  function CountedTimes(resource: map<ResourceKey, int>, key: ResourceKey, n: nat): map<ResourceKey, int>
  {
    if n == 0 then resource else Counted(CountedTimes(resource, key, n - 1), key)
  }

  /** The quota table after `m` decrements of the same row. */
  function DecrementedTimes(users: map<int, UserRow>, id: int, m: nat): map<int, UserRow>
  {
    if m == 0 then users else Decremented(DecrementedTimes(users, id, m - 1), id)
  }

  // ---------------------------------------------------------------------
  // Properties of the table operations

  /** Starting from no row, `n` requests to the same (endpoint, method) leave
      exactly one row for it, with `requests = n`, and no other key changes. */
  lemma {:induction false} RepeatedRequests(resource: map<ResourceKey, int>, key: ResourceKey, n: nat)
    ensures var r := CountedTimes(resource, key, n);
      && r.Keys == (if n == 0 then resource.Keys else resource.Keys + {key})
      && (key in r ==> r[key] == (if key in resource then resource[key] else 0) + n)
      && (forall k | k in resource && k != key :: r[k] == resource[k])
  {
    if n > 0 {
      RepeatedRequests(resource, key, n - 1);
    }
  }

  /** Starting at quota N, M charges leave max(0, N - M) (for M > 0): the
      quota never goes below zero and nothing else in the table changes. */
  lemma {:induction false} RepeatedCharges(users: map<int, UserRow>, id: int, m: nat)
    requires id in users
    ensures var r := DecrementedTimes(users, id, m);
      && r.Keys == users.Keys
      && r[id] == users[id].(apiCalls := r[id].apiCalls)
      && r[id].apiCalls == (if m == 0 then users[id].apiCalls else Greatest0(users[id].apiCalls - m))
      && (forall k | k in users && k != id :: r[k] == users[k])
  {
    if m > 0 {
      RepeatedCharges(users, id, m - 1);
    }
  }

  /** Every writing query keeps the table invariants. */
  lemma WritesKeepInvariants(users: map<int, UserRow>, id: int, username: string)
    requires WellKeyed(users) && EmailsUnique(users) && QuotasNonNegative(users)
    ensures var d := Decremented(users, id); WellKeyed(d) && EmailsUnique(d) && QuotasNonNegative(d)
    ensures var n := Renamed(users, id, username); WellKeyed(n) && EmailsUnique(n) && QuotasNonNegative(n)
    ensures var x := Removed(users, id); WellKeyed(x) && EmailsUnique(x) && QuotasNonNegative(x)
  {
  }

  // ---------------------------------------------------------------------
  // The store

  class Database {
    /** `users`, keyed by its SERIAL primary key. */
    var users: map<int, UserRow>
    /** `resource`: the request count of each (endpoint, method). */
    var resource: map<ResourceKey, int>
    /** The next value of the `users.id` sequence. */
    var nextId: int
    /** The quota a freshly inserted row starts with. */
    const defaultApiCalls: nat

    ghost predicate Valid()
      reads this
    {
      && WellKeyed(users)
      && EmailsUnique(users)
      && QuotasNonNegative(users)
      && (forall id | id in users :: id < nextId)
      && (forall k | k in resource :: resource[k] >= 1)
    }

    /** An empty store whose new users start with `defaultApiCalls` calls. */
    constructor (defaultApiCalls: nat)
      ensures Valid()
      ensures users == map[] && resource == map[]
      ensures this.defaultApiCalls == defaultApiCalls
    {
      users := map[];
      resource := map[];
      nextId := 1;
      this.defaultApiCalls := defaultApiCalls;
    }

    /** `registerUser`: INSERT INTO users (username, email, password). An
        absent username or email is NULL and violates NOT NULL; an email
        already present violates UNIQUE; either way nothing is inserted. The
        new row is not an admin and starts with the default quota. */
    method RegisterUser(username: Option<string>, email: Option<string>, password: PasswordHash, ok: bool)
      returns (r: Reply<int>)
      requires Valid()
      modifies this
      ensures Valid()
      ensures resource == old(resource)
      ensures r.Done? <==> ok && username.Some? && email.Some? && !EmailTaken(old(users), email.value)
      ensures !ok ==> r == Failed(StorageError)
      ensures ok && email.Some? && username.Some? && EmailTaken(old(users), email.value) ==> r == Failed(UniqueViolation)
      ensures r.Failed? ==> users == old(users)
      ensures r.Done? ==>
        && r.results !in old(users)
        && users == old(users)[r.results := UserRow(r.results, username.value, email.value, password, false, defaultApiCalls)]
    {
      if !ok {
        return Failed(StorageError);
      }
      if username.None? || email.None? {
        return Failed(NotNullViolation);
      }
      if EmailTaken(users, email.value) {
        return Failed(UniqueViolation);
      }
      var id := nextId;
      users := users[id := UserRow(id, username.value, email.value, password, false, defaultApiCalls)];
      nextId := nextId + 1;
      r := Done(id);
    }

    /** `findUserByEmail`: SELECT * FROM users WHERE email = ?. An absent
        email is NULL and matches no row. */
    method FindUserByEmail(email: Option<string>, ok: bool) returns (r: Reply<seq<UserRow>>)
      requires Valid()
      ensures r.Failed? <==> !ok
      ensures r.Done? ==> |r.results| <= 1
      ensures r.Done? ==> forall row | row in r.results :: row.id in users && users[row.id] == row && Some(row.email) == email
      ensures r.Done? ==> forall id | id in users && Some(users[id].email) == email :: r.results == [users[id]]
    {
      if !ok {
        return Failed(StorageError);
      }
      if email.Some? && EmailTaken(users, email.value) {
        var id :| id in users && users[id].email == email.value;
        r := Done([users[id]]);
      } else {
        r := Done([]);
      }
    }

    /** `findUserById`: SELECT * FROM users WHERE id = ?. */
    method FindUserById(id: int, ok: bool) returns (r: Reply<seq<UserRow>>)
      requires Valid()
      ensures r.Failed? <==> !ok
      ensures r.Done? ==> r.results == (if id in users then [users[id]] else [])
      ensures r.Done? ==> forall row | row in r.results :: row.id == id
    {
      if !ok {
        return Failed(StorageError);
      }
      r := Done(if id in users then [users[id]] else []);
    }

    /** `fetchAllUsers`: SELECT * FROM users. */
    method FetchAllUsers(ok: bool) returns (r: Reply<set<UserRow>>)
      requires Valid()
      ensures r.Failed? <==> !ok
      ensures r.Done? ==> forall id | id in users :: users[id] in r.results
      ensures r.Done? ==> forall row | row in r.results :: row.id in users && users[row.id] == row
    {
      if !ok {
        return Failed(StorageError);
      }
      r := Done(set id | id in users :: users[id]);
    }

    /** `deleteUser`: DELETE FROM users WHERE id = ?; reports how many rows went. */
    method DeleteUser(id: int, ok: bool) returns (r: Reply<nat>)
      requires Valid()
      modifies this
      ensures Valid()
      ensures resource == old(resource) && nextId == old(nextId)
      ensures r.Failed? <==> !ok
      ensures users == if ok then Removed(old(users), id) else old(users)
      ensures r.Done? ==> r.results == if id in old(users) then 1 else 0
    {
      if !ok {
        return Failed(StorageError);
      }
      r := Done(if id in users then 1 else 0);
      users := Removed(users, id);
    }

    /** `updateUser`: UPDATE users SET username = ? WHERE id = ?. An absent
        username is NULL, which violates NOT NULL only when a row is
        written: with no row for the id the statement succeeds on 0 rows. */
    method UpdateUser(id: int, username: Option<string>, ok: bool) returns (r: Reply<nat>)
      requires Valid()
      modifies this
      ensures Valid()
      ensures resource == old(resource) && nextId == old(nextId)
      ensures r.Done? <==> ok && (username.Some? || id !in old(users))
      ensures users == if r.Done? && username.Some? then Renamed(old(users), id, username.value) else old(users)
      ensures r.Done? ==> r.results == if id in old(users) then 1 else 0
    {
      if !ok {
        return Failed(StorageError);
      }
      if username.None? {
        if id in users {
          return Failed(NotNullViolation);
        }
        return Done(0);
      }
      WritesKeepInvariants(users, id, username.value);
      r := Done(if id in users then 1 else 0);
      users := Renamed(users, id, username.value);
    }

    /** `decrementApiCalls`: api_calls = GREATEST(0, api_calls - 1) on one row. */
    method DecrementApiCalls(id: int, ok: bool) returns (r: Reply<nat>)
      requires Valid()
      modifies this
      ensures Valid()
      ensures resource == old(resource) && nextId == old(nextId)
      ensures r.Failed? <==> !ok
      ensures users == if ok then Decremented(old(users), id) else old(users)
    {
      if !ok {
        return Failed(StorageError);
      }
      r := Done(if id in users then 1 else 0);
      users := Decremented(users, id);
    }

    /** `addNewResource`: INSERT INTO resource (endpoint, method, requests) VALUES (?, ?, 1). */
    method AddNewResource(route: string, verb: string, ok: bool) returns (r: Reply<nat>)
      requires Valid()
      modifies this
      ensures Valid()
      ensures users == old(users) && nextId == old(nextId)
      ensures r.Done? <==> ok && ResourceKey(route, verb) !in old(resource)
      ensures resource == if r.Done? then old(resource)[ResourceKey(route, verb) := 1] else old(resource)
    {
      if !ok {
        return Failed(StorageError);
      }
      var key := ResourceKey(route, verb);
      if key in resource {
        return Failed(UniqueViolation);
      }
      resource := resource[key := 1];
      r := Done(1);
    }

    /** `incrementCountInDB`: read the (endpoint, method) row; bump it if it
        is there, insert it with count 1 otherwise. The read and the write are
        two round trips, each of which may fail. */
    method IncrementCountInDB(route: string, verb: string, readOk: bool, writeOk: bool) returns (r: Reply<nat>)
      requires Valid()
      modifies this
      ensures Valid()
      ensures users == old(users) && nextId == old(nextId)
      ensures r.Done? <==> readOk && writeOk
      ensures resource == if r.Done? then Counted(old(resource), ResourceKey(route, verb)) else old(resource)
    {
      if !readOk {
        return Failed(StorageError);
      }
      var key := ResourceKey(route, verb);
      if key in resource {
        if !writeOk {
          return Failed(StorageError);
        }
        resource := resource[key := resource[key] + 1];
        r := Done(1);
      } else {
        r := AddNewResource(route, verb, writeOk);
      }
    }

    /** `getAllResources`: SELECT * FROM resource. */
    method GetAllResources(ok: bool) returns (r: Reply<set<ResourceRow>>)
      requires Valid()
      ensures r.Failed? <==> !ok
      ensures r.Done? ==> forall k | k in resource :: ResourceRow(k.endpoint, k.verb, resource[k]) in r.results
      ensures r.Done? ==> forall row | row in r.results ::
        ResourceKey(row.endpoint, row.verb) in resource && resource[ResourceKey(row.endpoint, row.verb)] == row.requests
    {
      if !ok {
        return Failed(StorageError);
      }
      r := Done(set k | k in resource :: ResourceRow(k.endpoint, k.verb, resource[k]));
    }
  }
}
