/**
 * `Tao\Action`: the per-request wrapper around an SDK action. It keeps the
 * merged settings, opens one database handle on first use, turns request
 * parameters into the argument list of a SQL function call, and writes query
 * results, relations, links and errors into the SDK's response, reporting
 * every exception it catches through the response's error channel.
 */
module Tao {
  import opened Wrappers
  import opened Php
  import opened Sql
  import opened Settings
  import opened Katana

  /** The status `error()` reports unless told otherwise. */
  const ErrorStatus: string := "500 Internal Server Error"

  /** A database handle (the PDO object), created from the `[database]` settings. */
  class Connection {
    const config: Config

    constructor (config: Config)
      ensures this.config == config
    {
      this.config := config;
    }
  }

  /** `settings['database']['dsn']`, `['username']` and `['password']`. */
  function DatabaseConfig(settings: Sections): Config
  {
    Config(Setting(settings, "database", "dsn"),
           Setting(settings, "database", "username"),
           Setting(settings, "database", "password"))
  }

  /** The exception opening the database handle throws, if any. */
  function ConnectFault(env: Environment, settings: Sections): Option<Exception>
  {
    env.fault(Connect(DatabaseConfig(settings)))
  }

  /** The exception reading the request parameters throws before any query, if any. */
  function ParamsFault(env: Environment, params: Value): Option<Exception>
  {
    match Dispatch(params)
    case FromLocation(location) => env.fault(GetParams(location))
    case _ => None
  }

  /** Whether loading gets as far as sending its SQL to the database. */
  predicate QueryReached(env: Environment, settings: Sections, connected: bool, params: Value)
  {
    ParamsFault(env, params).None? && (connected || ConnectFault(env, settings).None?)
  }

  /** How `query($sql)` ends: opening the handle when there is none yet, then running the SQL. */
  function QueryOutcome(env: Environment, settings: Sections, connected: bool, sql: string): Thrown<seq<Value>>
  {
    if !connected && ConnectFault(env, settings).Some? then Raised(ConnectFault(env, settings).value)
    else match env.fault(RunQuery(sql))
      case Some(e) => Raised(e)
      case None => Normal(env.rows(sql))
  }

  /** The rows `entity`/`collection` fetch for SQL function `fn`, or the exception met on the way. */
  function Fetch(env: Environment, settings: Sections, connected: bool, fn: string, params: Value): Thrown<seq<Value>>
  {
    if ParamsFault(env, params).Some? then Raised(ParamsFault(env, params).value)
    else QueryOutcome(env, settings, connected, IssuedSql(fn, params, env.located))
  }

  /**
   * The rows are fetched exactly when the query is reached and does not
   * throw, and they are what the database returns for the issued SQL.
   */
  lemma FetchRunsIssuedSql(env: Environment, settings: Sections, connected: bool, fn: string, params: Value)
    ensures var sql := IssuedSql(fn, params, env.located);
            && (Fetch(env, settings, connected, fn, params).Normal? <==>
                  QueryReached(env, settings, connected, params) && env.fault(RunQuery(sql)).None?)
            && (Fetch(env, settings, connected, fn, params).Normal? ==>
                  Fetch(env, settings, connected, fn, params).value == env.rows(sql))
  {
  }

  /** With a `[database]` section in the local file, every connection setting comes from it alone. */
  lemma DatabaseConfigAfterMerge(base: Sections, local: Sections)
    ensures "database" in local ==> DatabaseConfig(Merge(base, local)) == DatabaseConfig(local)
    ensures "database" !in local ==> DatabaseConfig(Merge(base, local)) == DatabaseConfig(base)
  {
    SettingAfterMerge(base, local, "database", "dsn");
    SettingAfterMerge(base, local, "database", "username");
    SettingAfterMerge(base, local, "database", "password");
  }

  /** `$rows[0]`: the first row, or `null` (with PHP's warning) when there is none. */
  function FirstRow(rows: seq<Value>): Value
  {
    if |rows| > 0 then rows[0] else Null
  }

  /** The `setEntity` call `entity()` makes: a non-string passes through, a string is a SQL function whose first row is kept. */
  function EntityCall(env: Environment, settings: Sections, connected: bool, entity: Value, params: Value): Thrown<Call>
  {
    if !entity.Str? then Normal(SetEntity(entity))
    else match Fetch(env, settings, connected, entity.s, params)
      case Raised(e) => Raised(e)
      case Normal(rows) => Normal(SetEntity(FirstRow(rows)))
  }

  /** The `setCollection` call `collection()` makes: a non-string passes through, a string is a SQL function whose rows are all kept. */
  function CollectionCall(env: Environment, settings: Sections, connected: bool, collection: Value, params: Value): Thrown<Call>
  {
    if !collection.Str? then Normal(SetCollection(collection))
    else match Fetch(env, settings, connected, collection.s, params)
      case Raised(e) => Raised(e)
      case Normal(rows) => Normal(SetCollection(List(rows)))
  }

  /** The end of a `try` block: the final SDK call guarded, or the exception already met reported. */
  function Settle(env: Environment, r: Response, t: Thrown<Call>): (Response, Option<Exception>)
  {
    match t
    case Raised(e) => Report(env, r, e)
    case Normal(c) => Guarded(env, r, c)
  }

  /** `return $this`, unless an exception escaped. */
  function Resume<T>(self: T, escaped: Option<Exception>): Thrown<T>
  {
    match escaped
    case None => Normal(self)
    case Some(e) => Raised(e)
  }

  /** A non-string entity or collection is handed to the SDK unchanged, without any query. */
  lemma LiteralPassesThrough(env: Environment, settings: Sections, connected: bool, v: Value, params: Value, r: Response)
    requires !v.Str?
    ensures Settle(env, r, EntityCall(env, settings, connected, v, params)) == Guarded(env, r, SetEntity(v))
    ensures Settle(env, r, CollectionCall(env, settings, connected, v, params)) == Guarded(env, r, SetCollection(v))
  {
  }

  /** A string entity stores row 0 of the result, or `null` when there is no row. */
  lemma EntityKeepsFirstRow(env: Environment, settings: Sections, connected: bool, fn: string, params: Value, r: Response)
    requires Fetch(env, settings, connected, fn, params).Normal?
    ensures var rows := Fetch(env, settings, connected, fn, params).value;
            var stored := if |rows| > 0 then rows[0] else Null;
            env.fault(SetEntity(stored)).None? ==>
              Settle(env, r, EntityCall(env, settings, connected, Str(fn), params)) == (r.(entity := Some(stored)), None)
  {
  }

  /** A string collection stores every row of the result, unmodified and in order. */
  lemma CollectionKeepsAllRows(env: Environment, settings: Sections, connected: bool, fn: string, params: Value, r: Response)
    requires Fetch(env, settings, connected, fn, params).Normal?
    ensures var rows := Fetch(env, settings, connected, fn, params).value;
            env.fault(SetCollection(List(rows))).None? ==>
              var c := Settle(env, r, CollectionCall(env, settings, connected, Str(fn), params));
              && c == (r.(collection := Some(List(rows))), None)
              && |c.0.collection.value.items| == |rows|
              && forall k | 0 <= k < |rows| :: c.0.collection.value.items[k] == rows[k]
  {
  }

  /** Entity and collection fail alike: for the same function and `$params` both stop on the same exception. */
  lemma EntityCollectionFailAlike(env: Environment, settings: Sections, connected: bool, fn: string, params: Value)
    ensures EntityCall(env, settings, connected, Str(fn), params).Raised?
            <==> CollectionCall(env, settings, connected, Str(fn), params).Raised?
    ensures EntityCall(env, settings, connected, Str(fn), params).Raised? ==>
              EntityCall(env, settings, connected, Str(fn), params).e == CollectionCall(env, settings, connected, Str(fn), params).e
  {
  }

  /** The `foreach` over an explicit mapping in `entity`/`collection`, then `implode(', ', $items)`. */
  method BuildMappingList(entries: seq<(string, Value)>) returns (list: string)
    ensures list == MappingList(entries)
  {
    var items: seq<string> := [];
    var i := 0;
    while i < |entries|
      invariant 0 <= i <= |entries|
      invariant |items| == i
      invariant forall k | 0 <= k < i :: items[k] == Token(entries[k].0, Text(entries[k].1))
    {
      items := items + [Token(entries[i].0, Text(entries[i].1))];
      i := i + 1;
    }
    assert items == MappingTokens(entries);
    list := Implode(Separator, items);
  }

  class Action {
    const settings: Sections
    const env: Environment
    /** The SDK action's response. */
    var response: Response
    /** The memoised database handle; `null` until first use. */
    var database: Connection?
    /** How many database handles this instance has created. */
    ghost var connections: nat
    /** The SQL this instance has sent to the database, in order. */
    ghost var queries: seq<string>

    /** At most one handle is ever created, and it is the one kept. */
    ghost predicate Valid()
      reads this
    {
      connections <= 1 && (database == null <==> connections == 0)
    }

    /** The settings are the base file merged with the readable local file, over a fresh action. */
    constructor (base: Sections, local: Option<Sections>, env: Environment, response: Response)
      ensures Valid()
      ensures settings == Resolve(base, local)
      ensures local.Some? ==> settings == Merge(base, local.value)
      ensures this.env == env && this.response == response
      ensures database == null && queries == []
    {
      settings := Resolve(base, local);
      this.env := env;
      this.response := response;
      database := null;
      connections := 0;
      queries := [];
    }

    /** `database()`: creates the handle on first use, and returns the same one ever after. */
    method Database() returns (r: Thrown<Connection>)
      requires Valid()
      modifies this`database, this`connections
      ensures Valid()
      ensures connections == if old(database) == null && database != null then old(connections) + 1 else old(connections)
      ensures old(database) != null ==> database == old(database) && r.Normal? && r.value == database
      ensures old(database) == null && ConnectFault(env, settings).Some? ==>
                database == null && r == Raised(ConnectFault(env, settings).value)
      ensures old(database) == null && ConnectFault(env, settings).None? ==>
                database != null && fresh(database) && database.config == DatabaseConfig(settings) && r.Normal? && r.value == database
    {
      if database == null {
        var config := DatabaseConfig(settings);
        var fault := env.fault(Connect(config));
        if fault.Some? {
          r := Raised(fault.value);
          return;
        }
        database := new Connection(config);
        connections := connections + 1;
      }
      r := Normal(database);
    }

    /** `query($sql)`: the rows of `$sql` on the (lazily opened) handle. */
    method Query(sql: string) returns (r: Thrown<seq<Value>>)
      requires Valid()
      modifies this`database, this`connections, this`queries
      ensures Valid()
      ensures connections == if old(database) == null && database != null then old(connections) + 1 else old(connections)
      ensures r == QueryOutcome(env, settings, old(database) != null, sql)
      ensures queries == if old(database) != null || ConnectFault(env, settings).None? then old(queries) + [sql] else old(queries)
      ensures old(database) != null ==> database == old(database)
      ensures old(database) == null ==> (database != null <==> ConnectFault(env, settings).None?)
      ensures old(database) == null && database != null ==> fresh(database) && database.config == DatabaseConfig(settings)
    {
      var handle := Database();
      if handle.Raised? {
        r := Raised(handle.e);
        return;
      }
      queries := queries + [sql];
      var fault := env.fault(RunQuery(sql));
      r := if fault.Some? then Raised(fault.value) else Normal(env.rows(sql));
    }

    /** `params($location)`: one `p_<name> := <value>` token per parameter of the location, joined by ", ". */
    method Params(location: Option<string> := None) returns (r: Thrown<string>)
      ensures env.fault(GetParams(location)).Some? ==> r == Raised(env.fault(GetParams(location)).value)
      ensures env.fault(GetParams(location)).None? ==> r == Normal(ParamList(env.located(location)))
    {
      var fault := env.fault(GetParams(location));
      if fault.Some? {
        r := Raised(fault.value);
        return;
      }
      var ps := env.located(location);
      var items: seq<string> := [];
      var i := 0;
      while i < |ps|
        invariant 0 <= i <= |ps|
        invariant |items| == i
        invariant forall k | 0 <= k < i :: items[k] == Token(ps[k].name, Text(ps[k].value))
      {
        items := items + [Token(ps[i].name, Text(ps[i].value))];
        i := i + 1;
      }
      assert items == Tokens(ps);
      r := Normal(Implode(Separator, items));
    }

    /** The shared body of `entity` and `collection` for a SQL function name: build the call, run it. */
    method Load(fn: string, params: Value) returns (r: Thrown<seq<Value>>)
      requires Valid()
      modifies this`database, this`connections, this`queries
      ensures Valid()
      ensures connections == if old(database) == null && database != null then old(connections) + 1 else old(connections)
      ensures r == Fetch(env, settings, old(database) != null, fn, params)
      ensures queries == if QueryReached(env, settings, old(database) != null, params)
                         then old(queries) + [IssuedSql(fn, params, env.located)] else old(queries)
      ensures old(database) != null ==> database == old(database)
      ensures old(database) == null ==>
                (database != null <==> ParamsFault(env, params).None? && ConnectFault(env, settings).None?)
      ensures old(database) == null && database != null ==> fresh(database) && database.config == DatabaseConfig(settings)
    {
      var sql: string;
      if Truthy(params) {
        var list: string;
        if IsArray(params) {
          list := BuildMappingList(Entries(params));
        } else {
          var located := Params(if params.Str? then Some(params.s) else None);
          if located.Raised? {
            r := Raised(located.e);
            return;
          }
          list := located.value;
        }
        sql := SelectFrom + fn + "(" + list + ")";
      } else {
        sql := SelectFrom + fn + "()";
      }
      assert sql == IssuedSql(fn, params, env.located);
      r := Query(sql);
    }

    /** A call into the SDK, which takes effect unless it throws. */
    method Invoke(call: Call) returns (fault: Option<Exception>)
      modifies this`response
      ensures fault == env.fault(call)
      ensures response == if fault.Some? then old(response) else Effect(old(response), call)
    {
      fault := env.fault(call);
      if fault.None? {
        response := Effect(response, call);
      }
    }

    /** A `catch` block: `$this->action->error($e->getMessage(), $e->getCode())`. */
    method Catch(e: Exception) returns (escaped: Option<Exception>)
      modifies this`response
      ensures (response, escaped) == Report(env, old(response), e)
    {
      escaped := Invoke(ReportErrorDefault(e.message, e.code));
    }

    /** `try { call } catch (\Exception $e) { ... }` around a single SDK call. */
    method Guard(call: Call) returns (escaped: Option<Exception>)
      modifies this`response
      ensures (response, escaped) == Guarded(env, old(response), call)
    {
      var fault := Invoke(call);
      escaped := None;
      if fault.Some? {
        escaped := Catch(fault.value);
      }
    }

    /** `entity($entity, $params = true)`. */
    method Entity(entity: Value, params: Value := Bool(true)) returns (result: Thrown<Action>)
      requires Valid()
      modifies this
      ensures Valid()
      ensures connections == if old(database) == null && database != null then old(connections) + 1 else old(connections)
      ensures var s := Settle(env, old(response), EntityCall(env, settings, old(database) != null, entity, params));
              response == s.0 && result == Resume(this, s.1)
      ensures queries == if entity.Str? && QueryReached(env, settings, old(database) != null, params)
                         then old(queries) + [IssuedSql(entity.s, params, env.located)] else old(queries)
      ensures old(database) != null ==> database == old(database)
      ensures old(database) == null ==>
                (database != null <==> entity.Str? && ParamsFault(env, params).None? && ConnectFault(env, settings).None?)
      ensures old(database) == null && database != null ==> fresh(database) && database.config == DatabaseConfig(settings)
    {
      var escaped: Option<Exception>;
      var value := entity;
      if entity.Str? {
        var rows := Load(entity.s, params);
        if rows.Raised? {
          escaped := Catch(rows.e);
          result := Resume(this, escaped);
          return;
        }
        value := FirstRow(rows.value);
      }
      escaped := Guard(SetEntity(value));
      result := Resume(this, escaped);
    }

    /** `collection($collection, $params = true)`. */
    method Collection(collection: Value, params: Value := Bool(true)) returns (result: Thrown<Action>)
      requires Valid()
      modifies this
      ensures Valid()
      ensures connections == if old(database) == null && database != null then old(connections) + 1 else old(connections)
      ensures var s := Settle(env, old(response), CollectionCall(env, settings, old(database) != null, collection, params));
              response == s.0 && result == Resume(this, s.1)
      ensures queries == if collection.Str? && QueryReached(env, settings, old(database) != null, params)
                         then old(queries) + [IssuedSql(collection.s, params, env.located)] else old(queries)
      ensures old(database) != null ==> database == old(database)
      ensures old(database) == null ==>
                (database != null <==> collection.Str? && ParamsFault(env, params).None? && ConnectFault(env, settings).None?)
      ensures old(database) == null && database != null ==> fresh(database) && database.config == DatabaseConfig(settings)
    {
      var escaped: Option<Exception>;
      var value := collection;
      if collection.Str? {
        var rows := Load(collection.s, params);
        if rows.Raised? {
          escaped := Catch(rows.e);
          result := Resume(this, escaped);
          return;
        }
        value := List(rows.value);
      }
      escaped := Guard(SetCollection(value));
      result := Resume(this, escaped);
    }

    /** `relation($pk, $type, $fk)`: one-to-many for an array of keys, one-to-one otherwise. */
    method Relation(pk: string, kind: string, fk: Value) returns (result: Thrown<Action>)
      modifies this`response
      ensures var s := Guarded(env, old(response), if IsArray(fk) then RelateMany(pk, kind, fk) else RelateOne(pk, kind, fk));
              response == s.0 && result == Resume(this, s.1)
    {
      var escaped: Option<Exception>;
      if IsArray(fk) {
        escaped := Guard(RelateMany(pk, kind, fk));
      } else {
        escaped := Guard(RelateOne(pk, kind, fk));
      }
      result := Resume(this, escaped);
    }

    /** `link($link, $uri)`. */
    method Link(link: string, uri: string) returns (result: Thrown<Action>)
      modifies this`response
      ensures var s := Guarded(env, old(response), AddLink(link, uri));
              response == s.0 && result == Resume(this, s.1)
    {
      var escaped := Guard(AddLink(link, uri));
      result := Resume(this, escaped);
    }

    /**
     * `error($message, $code = 0, $status = ERROR_STATUS)`: forwards all
     * three; if that throws, forwards the caught exception's message and code.
     */
    method Error(message: string, code: int := 0, status: string := ErrorStatus) returns (result: Thrown<Action>)
      modifies this`response
      ensures var s := Guarded(env, old(response), ReportError(message, code, status));
              response == s.0 && result == Resume(this, s.1)
      ensures env.fault(ReportError(message, code, status)).None? ==>
                response == old(response).(errors := old(response).errors + [ErrorReport(message, code, Some(status))])
                && result == Normal(this)
    {
      var escaped := Guard(ReportError(message, code, status));
      result := Resume(this, escaped);
    }
  }
}
