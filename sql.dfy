/**
 * The SQL text the action wrapper sends to the database: a call of a
 * PostgreSQL set-returning function with named arguments,
 * `SELECT * FROM fn(p_a := 1, p_b := x)`. Values are interpolated verbatim:
 * the wrapper neither quotes nor escapes them.
 */
module Sql {
  import opened Wrappers
  import opened Php

  /** A request parameter as the SDK enumerates it: a name and a typed value. */
  datatype Param = Param(name: string, value: Value)

  const Separator: string := ", "
  const SelectFrom: string := "SELECT * FROM "

  /** One named argument, `p_<name> := <value>`. */
  function Token(name: string, value: string): string
  {
    "p_" + name + " := " + value
  }

  /** The sum of the lengths of the pieces. */
  function TotalLength(xs: seq<string>): nat
    decreases |xs|
  {
    if xs == [] then 0 else TotalLength(xs[..|xs| - 1]) + |xs[|xs| - 1]|
  }

  /**
   * PHP's `implode(sep, xs)`: the pieces in order with `sep` between each
   * two neighbours. No pieces give the empty string; n pieces carry exactly
   * n - 1 separators.
   */
  function Implode(sep: string, xs: seq<string>): string
    decreases |xs|
  {
    if |xs| == 0 then ""
    else if |xs| == 1 then xs[0]
    else Implode(sep, xs[..|xs| - 1]) + sep + xs[|xs| - 1]
  }

  /** n pieces make a string as long as the pieces together plus n - 1 separators. */
  lemma {:induction false} ImplodeLength(sep: string, xs: seq<string>)
    requires |xs| > 0
    ensures |Implode(sep, xs)| == TotalLength(xs) + (|xs| - 1) * |sep|
    decreases |xs|
  {
    var n := |xs|;
    if n > 1 {
      ImplodeLength(sep, xs[..n - 1]);
      assert (n - 1) * |sep| == (n - 2) * |sep| + |sep|;
    }
  }

  /** Where piece `i` starts in `Implode(sep, xs)`: every earlier piece and its separator come first. */
  function Offset(sep: string, xs: seq<string>, i: nat): nat
    requires i <= |xs|
  {
    if i == 0 then 0 else Offset(sep, xs, i - 1) + |xs[i - 1]| + |sep|
  }

  lemma {:induction false} OffsetOfPrefix(sep: string, xs: seq<string>, m: nat, i: nat)
    requires i <= m <= |xs|
    ensures Offset(sep, xs[..m], i) == Offset(sep, xs, i)
  {
    if i > 0 {
      OffsetOfPrefix(sep, xs, m, i - 1);
    }
  }

  lemma {:induction false} OffsetOfLast(sep: string, xs: seq<string>)
    requires |xs| > 0
    ensures Offset(sep, xs, |xs| - 1) + |xs[|xs| - 1]| == |Implode(sep, xs)|
    decreases |xs|
  {
    var n := |xs|;
    if n > 1 {
      var p := xs[..n - 1];
      OffsetOfLast(sep, p);
      OffsetOfPrefix(sep, xs, n - 1, n - 2);
    }
  }

  lemma ImplodeLastStart(sep: string, xs: seq<string>)
    requires |xs| > 1
    ensures Implode(sep, xs) == Implode(sep, xs[..|xs| - 1]) + sep + xs[|xs| - 1]
    ensures Offset(sep, xs, |xs| - 1) == |Implode(sep, xs[..|xs| - 1])| + |sep|
  {
    var n := |xs|;
    OffsetOfLast(sep, xs[..n - 1]);
    OffsetOfPrefix(sep, xs, n - 1, n - 2);
  }

  /** Piece `i` of an imploded string stands at `Offset(sep, xs, i)`. */
  lemma {:induction false} ImplodePiece(sep: string, xs: seq<string>, i: nat)
    requires i < |xs|
    ensures Offset(sep, xs, i) + |xs[i]| <= |Implode(sep, xs)|
    ensures Implode(sep, xs)[Offset(sep, xs, i)..Offset(sep, xs, i) + |xs[i]|] == xs[i]
    decreases |xs|
  {
    var n := |xs|;
    if n > 1 {
      var p := xs[..n - 1];
      var a := Implode(sep, p);
      ImplodeLastStart(sep, xs);
      if i < n - 1 {
        ImplodePiece(sep, p, i);
        OffsetOfPrefix(sep, xs, n - 1, i);
        var o := Offset(sep, xs, i);
        assert (a + sep + xs[n - 1])[o..o + |xs[i]|] == a[o..o + |xs[i]|];
      } else {
        assert (a + sep + xs[n - 1])[|a| + |sep|..] == xs[n - 1];
      }
    }
  }

  /** Every piece but the last is followed directly by the separator, and then by the next piece. */
  lemma {:induction false} ImplodeSeparator(sep: string, xs: seq<string>, i: nat)
    requires i + 1 < |xs|
    ensures Offset(sep, xs, i) + |xs[i]| + |sep| == Offset(sep, xs, i + 1) <= |Implode(sep, xs)|
    ensures Implode(sep, xs)[Offset(sep, xs, i) + |xs[i]|..Offset(sep, xs, i + 1)] == sep
    decreases |xs|
  {
    var n := |xs|;
    var p := xs[..n - 1];
    var a := Implode(sep, p);
    ImplodeLastStart(sep, xs);
    OffsetOfPrefix(sep, xs, n - 1, i);
    if i + 1 < n - 1 {
      ImplodeSeparator(sep, p, i);
      OffsetOfPrefix(sep, xs, n - 1, i + 1);
      var o := Offset(sep, xs, i) + |xs[i]|;
      assert (a + sep + xs[n - 1])[o..o + |sep|] == a[o..o + |sep|];
    } else {
      OffsetOfLast(sep, p);
      assert (a + sep + xs[n - 1])[|a|..|a| + |sep|] == sep;
    }
  }

  /** The tokens of a parameter sequence, one per parameter, in order. */
  function Tokens(ps: seq<Param>): seq<string>
  {
    seq(|ps|, k requires 0 <= k < |ps| => Token(ps[k].name, Text(ps[k].value)))
  }

  /** The argument list that `params()` builds from the parameters the SDK returns. */
  function ParamList(ps: seq<Param>): (r: string)
    ensures r == "" <==> ps == []
  {
    var ts := Tokens(ps);
    assert |ts| > 0 ==> |Implode(Separator, ts)| > 0 by {
      if |ts| > 0 {
        OffsetOfLast(Separator, ts);
      }
    }
    Implode(Separator, ts)
  }

  /**
   * Parameter `i` contributes `p_<name> := <value>` at its place in input
   * order, followed by ", " when another parameter comes after it; with
   * `Implode`'s length the list has exactly n - 1 separators.
   */
  lemma ParamListLayout(ps: seq<Param>, i: nat)
    requires i < |ps|
    ensures Offset(Separator, Tokens(ps), i) + |Tokens(ps)[i]| <= |ParamList(ps)|
    ensures ParamList(ps)[Offset(Separator, Tokens(ps), i)..Offset(Separator, Tokens(ps), i) + |Tokens(ps)[i]|]
            == Token(ps[i].name, Text(ps[i].value))
    ensures i + 1 < |ps| ==> Offset(Separator, Tokens(ps), i + 1) <= |ParamList(ps)|
    ensures i + 1 < |ps| ==>
              ParamList(ps)[Offset(Separator, Tokens(ps), i) + |Tokens(ps)[i]|..Offset(Separator, Tokens(ps), i + 1)] == Separator
  {
    ImplodePiece(Separator, Tokens(ps), i);
    if i + 1 < |ps| {
      ImplodeSeparator(Separator, Tokens(ps), i);
    }
  }

  /** The tokens of an explicit key => value mapping, in the mapping's iteration order. */
  function MappingTokens(entries: seq<(string, Value)>): seq<string>
  {
    seq(|entries|, k requires 0 <= k < |entries| => Token(entries[k].0, Text(entries[k].1)))
  }

  /** The argument list that `entity` and `collection` build from an explicit mapping. */
  function MappingList(entries: seq<(string, Value)>): string
  {
    Implode(Separator, MappingTokens(entries))
  }

  /** The mapping read as parameters: each key a name, each value a value. */
  function AsParams(entries: seq<(string, Value)>): seq<Param>
  {
    seq(|entries|, k requires 0 <= k < |entries| => Param(entries[k].0, entries[k].1))
  }

  /** The explicit-mapping branch writes the same token format as `params()`. */
  lemma MappingMatchesParams(entries: seq<(string, Value)>)
    ensures MappingList(entries) == ParamList(AsParams(entries))
  {
    assert MappingTokens(entries) == Tokens(AsParams(entries));
  }

  /** Where the argument list comes from, as the `$params` argument selects it. */
  datatype ParamsSource =
    | NoParams
    | FromMapping(entries: seq<(string, Value)>)
    | FromLocation(location: Option<string>)

  /**
   * A falsy `$params` passes no arguments; an array is a mapping; a string
   * names a location; any other truthy value passes all parameters.
   */
  function Dispatch(params: Value): ParamsSource
  {
    if !Truthy(params) then NoParams
    else if IsArray(params) then FromMapping(Entries(params))
    else if params.Str? then FromLocation(Some(params.s))
    else FromLocation(None)
  }

  /** A falsy `$params` is exactly the case in which no argument list is built. */
  lemma FalsyIffNoParams(params: Value)
    ensures !Truthy(params) <==> Dispatch(params) == NoParams
  {
  }

  /** The argument list for a source, given the parameters the SDK returns per location. */
  function ArgumentList(source: ParamsSource, located: Option<string> -> seq<Param>): Option<string>
  {
    match source
    case NoParams => None
    case FromMapping(entries) => Some(MappingList(entries))
    case FromLocation(location) => Some(ParamList(located(location)))
  }

  /** `SELECT * FROM fn()` without an argument list, `SELECT * FROM fn(list)` with one. */
  function CallSql(fn: string, list: Option<string>): string
  {
    match list
    case None => SelectFrom + fn + "()"
    case Some(l) => SelectFrom + fn + "(" + l + ")"
  }

  /** Recovers the argument list from the SQL of a call of `fn`: the inverse of `CallSql`. */
  function ArgumentsOf(fn: string, sql: string): Option<string>
  {
    var head := SelectFrom + fn + "(";
    if |sql| > |head| && sql[..|head|] == head && sql[|sql| - 1] == ')'
    then Some(sql[|head|..|sql| - 1])
    else None
  }

  lemma CallArgumentsRoundTrip(fn: string, list: Option<string>)
    ensures ArgumentsOf(fn, CallSql(fn, list)) == Some(list.GetOr(""))
  {
    var head := SelectFrom + fn + "(";
    var l := list.GetOr("");
    var sql := CallSql(fn, list);
    assert sql == head + l + ")";
    assert sql[..|head|] == head;
    assert sql[|head|..|sql| - 1] == l;
  }

  /** The query `entity`/`collection` issue for function `fn` under a `$params` argument. */
  function IssuedSql(fn: string, params: Value, located: Option<string> -> seq<Param>): string
  {
    CallSql(fn, ArgumentList(Dispatch(params), located))
  }

  /** Every falsy `$params` gives the bare call `SELECT * FROM fn()`. */
  lemma FalsyParamsGiveBareCall(fn: string, params: Value, located: Option<string> -> seq<Param>)
    requires !Truthy(params)
    ensures IssuedSql(fn, params, located) == SelectFrom + fn + "()"
    ensures ArgumentsOf(fn, IssuedSql(fn, params, located)) == Some("")
  {
    CallArgumentsRoundTrip(fn, None);
  }

  /**
   * A truthy `$params` gives `SELECT * FROM fn(P)`: P is built from the
   * mapping for an array, from the parameters of the named location for a
   * string, and from all parameters otherwise.
   */
  lemma TruthyParamsGiveArgumentList(fn: string, params: Value, located: Option<string> -> seq<Param>)
    requires Truthy(params)
    ensures var p := if IsArray(params) then MappingList(Entries(params))
                     else if params.Str? then ParamList(located(Some(params.s)))
                     else ParamList(located(None));
            && IssuedSql(fn, params, located) == SelectFrom + fn + "(" + p + ")"
            && ArgumentsOf(fn, IssuedSql(fn, params, located)) == Some(p)
  {
    CallArgumentsRoundTrip(fn, ArgumentList(Dispatch(params), located));
  }

  /** A location with no parameters issues the same SQL as passing none. */
  lemma EmptyLocationLikeNoParams(fn: string, location: Option<string>, located: Option<string> -> seq<Param>)
    requires located(location) == []
    ensures CallSql(fn, ArgumentList(FromLocation(location), located)) == CallSql(fn, ArgumentList(NoParams, located))
  {
  }
}
