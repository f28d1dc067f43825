/**
 * The boundary to the microservice SDK and the database driver. Their
 * internals are foreign; the model keeps only what the wrapper observes:
 * the response record its calls fill in, and, for every call, whether it
 * throws. A call that throws changes nothing.
 */
module Katana {
  import opened Wrappers
  import opened Php
  import opened Sql

  /** A PHP `\Exception`: the message and code the wrapper reads from it. */
  datatype Exception = Exception(message: string, code: int)

  /** How a PHP call ends: normally with a value, or by throwing. */
  datatype Thrown<T> = Normal(value: T) | Raised(e: Exception)

  datatype Relation =
    | One(pk: string, kind: string, fk: Value)
    | Many(pk: string, kind: string, fks: Value)

  datatype Link = Link(name: string, uri: string)

  /** An error on the transport; no `status` means the call passed none (the two-argument `error`). */
  datatype ErrorReport = ErrorReport(message: string, code: int, status: Option<string>)

  /** The SDK action's response slots the wrapper writes. */
  datatype Response = Response(
    entity: Option<Value>,
    collection: Option<Value>,
    relations: seq<Relation>,
    links: seq<Link>,
    errors: seq<ErrorReport>)

  /** The connection settings handed to the database driver. */
  datatype Config = Config(dsn: Option<string>, username: Option<string>, password: Option<string>)

  /** A call into the SDK or the database driver. */
  datatype Call =
    | GetParams(location: Option<string>)
    | Connect(config: Config)
    | RunQuery(sql: string)
    | SetEntity(entity: Value)
    | SetCollection(collection: Value)
    | RelateOne(pk: string, kind: string, fk: Value)
    | RelateMany(pk: string, kind: string, fks: Value)
    | AddLink(name: string, uri: string)
    | ReportError(message: string, code: int, status: string)
    | ReportErrorDefault(message: string, code: int)

  /**
   * What the foreign code does, given as oracles: `fault` says which calls
   * throw, `located` lists the request parameters of a location (all of
   * them for none), and `rows` is what a query returns.
   */
  datatype Environment = Environment(
    fault: Call -> Option<Exception>,
    located: Option<string> -> seq<Param>,
    rows: string -> seq<Value>)

  /** What a call that returns normally does to the response. */
  function Effect(r: Response, c: Call): (r': Response)
    ensures c.GetParams? || c.Connect? || c.RunQuery? ==> r' == r
    ensures |r'.relations| == |r.relations| + (if c.RelateOne? || c.RelateMany? then 1 else 0)
    ensures |r'.links| == |r.links| + (if c.AddLink? then 1 else 0)
    ensures |r'.errors| == |r.errors| + (if c.ReportError? || c.ReportErrorDefault? then 1 else 0)
    ensures r'.relations[..|r.relations|] == r.relations && r'.links[..|r.links|] == r.links
    ensures r'.errors[..|r.errors|] == r.errors
    ensures r'.entity == if c.SetEntity? then Some(c.entity) else r.entity
    ensures r'.collection == if c.SetCollection? then Some(c.collection) else r.collection
    ensures c.RelateOne? ==> r'.relations[|r.relations|] == One(c.pk, c.kind, c.fk)
    ensures c.RelateMany? ==> r'.relations[|r.relations|] == Many(c.pk, c.kind, c.fks)
    ensures c.AddLink? ==> r'.links[|r.links|] == Link(c.name, c.uri)
    ensures c.ReportError? ==> r'.errors[|r.errors|] == ErrorReport(c.message, c.code, Some(c.status))
    ensures c.ReportErrorDefault? ==> r'.errors[|r.errors|] == ErrorReport(c.message, c.code, None)
  {
    match c
    case SetEntity(v) => r.(entity := Some(v))
    case SetCollection(v) => r.(collection := Some(v))
    case RelateOne(pk, kind, fk) => r.(relations := r.relations + [One(pk, kind, fk)])
    case RelateMany(pk, kind, fks) => r.(relations := r.relations + [Many(pk, kind, fks)])
    case AddLink(name, uri) => r.(links := r.links + [Link(name, uri)])
    case ReportError(message, code, status) => r.(errors := r.errors + [ErrorReport(message, code, Some(status))])
    case ReportErrorDefault(message, code) => r.(errors := r.errors + [ErrorReport(message, code, None)])
    case _ => r
  }

  /**
   * A `catch` block of the wrapper: the caught exception is forwarded as
   * `error($e->getMessage(), $e->getCode())`. Nothing catches a throw of this
   * forwarding call, so its exception escapes.
   */
  function Report(env: Environment, r: Response, e: Exception): (Response, Option<Exception>)
  {
    var c := ReportErrorDefault(e.message, e.code);
    match env.fault(c)
    case None => (Effect(r, c), None)
    case Some(e2) => (r, Some(e2))
  }

  /** `try { call } catch (\Exception $e) { report $e }`: the shape of every public wrapper method. */
  function Guarded(env: Environment, r: Response, c: Call): (Response, Option<Exception>)
  {
    match env.fault(c)
    case None => (Effect(r, c), None)
    case Some(e) => Report(env, r, e)
  }

  /**
   * A caught exception is never dropped silently: either exactly one error
   * carrying its message and code is appended and nothing else changes, or
   * the forwarding call's own exception escapes and the response is untouched.
   */
  lemma ReportRecordsOrEscapes(env: Environment, r: Response, e: Exception)
    ensures var (r', escaped) := Report(env, r, e);
            && (escaped.None? <==> env.fault(ReportErrorDefault(e.message, e.code)).None?)
            && (escaped.None? ==> r' == r.(errors := r.errors + [ErrorReport(e.message, e.code, None)]))
            && (escaped.Some? ==> r' == r && escaped == env.fault(ReportErrorDefault(e.message, e.code)))
  {
  }

  /**
   * A guarded call has exactly three outcomes: it takes effect; it throws and
   * one error is recorded in its place; it throws, the report throws too, and
   * that second exception escapes with the response unchanged.
   */
  lemma GuardedOutcomes(env: Environment, r: Response, c: Call)
    ensures var (r', escaped) := Guarded(env, r, c);
            && (env.fault(c).None? ==> r' == Effect(r, c) && escaped.None?)
            && (env.fault(c).Some? ==> (r', escaped) == Report(env, r, env.fault(c).value))
            && (env.fault(c).Some? && escaped.None? ==>
                  r' == r.(errors := r.errors + [ErrorReport(env.fault(c).value.message, env.fault(c).value.code, None)]))
            && (escaped.Some? ==>
                  && r' == r
                  && env.fault(c).Some?
                  && escaped == env.fault(ReportErrorDefault(env.fault(c).value.message, env.fault(c).value.code)))
  {
  }
}
