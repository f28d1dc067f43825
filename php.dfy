/**
 * The PHP values that cross the wrapper's boundary: literal entities and
 * collections, the `$params` argument, parameter values and database rows.
 * Only what the wrapper inspects is modelled: the type tests `is_string` and
 * `is_array`, truthiness in an `if`, the iteration order of `foreach`, and
 * the conversion to text that string interpolation performs.
 */
module Php {

  /**
   * A PHP value. PHP arrays are split into lists (keys 0 .. n-1, as
   * `fetchAll` returns rows) and records (string keys in insertion order, as
   * an associative row or a parameter mapping).
   */
  datatype Value =
    | Null
    | Bool(b: bool)
    | Int(i: int)
    | Str(s: string)
    | List(items: seq<Value>)
    | Record(fields: seq<(string, Value)>)

  /** `is_array($v)`. */
  predicate IsArray(v: Value)
  {
    v.List? || v.Record?
  }

  /**
   * Whether `if ($v)` takes its branch: PHP treats `null`, `false`, `0`,
   * `""`, `"0"` and the empty array as false, and everything else as true.
   */
  predicate Truthy(v: Value)
  {
    match v
    case Null => false
    case Bool(b) => b
    case Int(i) => i != 0
    case Str(s) => s != "" && s != "0"
    case List(items) => |items| > 0
    case Record(fields) => |fields| > 0
  }

  /** Exactly seven values are falsy: `null`, `false`, `0`, `""`, `"0"`, and the empty list and record. */
  lemma FalsyValues(v: Value)
    ensures !Truthy(v) <==> v in {Null, Bool(false), Int(0), Str(""), Str("0"), List([]), Record([])}
  {
  }

  /** Whether every character of `s` is a decimal digit. */
  predicate IsDigits(s: string)
  {
    forall k | 0 <= k < |s| :: '0' <= s[k] <= '9'
  }

  function Digit(d: nat): char
    requires d < 10
  {
    ('0' as int + d) as char
  }

  /** The decimal digits of `n`, most significant first, without leading zeros. */
  function Decimal(n: nat): (r: string)
    ensures |r| > 0 && IsDigits(r)
    ensures |r| > 1 ==> r[0] != '0'
    decreases n
  {
    if n < 10 then [Digit(n)] else Decimal(n / 10) + [Digit(n % 10)]
  }

  /** The number a string of decimal digits denotes: the inverse of `Decimal`. */
  function DigitsValue(s: string): nat
    requires IsDigits(s)
    decreases |s|
  {
    if s == [] then 0
    else DigitsValue(s[..|s| - 1]) * 10 + (s[|s| - 1] as int - '0' as int)
  }

  lemma {:induction false} DecimalRoundTrip(n: nat)
    ensures DigitsValue(Decimal(n)) == n
    decreases n
  {
    if n >= 10 {
      DecimalRoundTrip(n / 10);
      var d := Decimal(n);
      assert d[..|d| - 1] == Decimal(n / 10);
    }
  }

  /** How PHP writes an integer into a string: an optional minus sign and its digits. */
  function IntText(i: int): string
  {
    if i < 0 then "-" + Decimal(-i) else Decimal(i)
  }

  /** Reads back an integer written by `IntText`. */
  function IntValue(s: string): int
    requires |s| > 0
    requires s[0] == '-' ==> IsDigits(s[1..])
    requires s[0] != '-' ==> IsDigits(s)
  {
    if s[0] == '-' then 0 - DigitsValue(s[1..]) as int else DigitsValue(s)
  }

  lemma IntTextRoundTrip(i: int)
    ensures var t := IntText(i); |t| > 0 && (t[0] == '-' <==> i < 0)
    ensures IntValue(IntText(i)) == i
  {
    if i < 0 {
      DecimalRoundTrip(-i);
      assert IntText(i)[1..] == Decimal(-i);
    } else {
      DecimalRoundTrip(i);
    }
  }

  /**
   * What `"{$v}"` produces: `null` and `false` give the empty string, `true`
   * gives "1", an integer its decimal form, a string itself, and an array
   * the word "Array".
   */
  function Text(v: Value): string
  {
    match v
    case Null => ""
    case Bool(b) => if b then "1" else ""
    case Int(i) => IntText(i)
    case Str(s) => s
    case List(_) => "Array"
    case Record(_) => "Array"
  }

  /** The (key, value) pairs that `foreach ($v as $key => $value)` visits, in order, keys written as text. */
  function Entries(v: Value): seq<(string, Value)>
    requires IsArray(v)
  {
    match v
    case List(items) => seq(|items|, k requires 0 <= k < |items| => (IntText(k), items[k]))
    case Record(fields) => fields
  }

  /** `foreach` over a list visits its items in order, each under its own index. */
  lemma ListEntriesIndexed(items: seq<Value>, k: nat)
    requires k < |items|
    ensures |Entries(List(items))| == |items|
    ensures Entries(List(items))[k].1 == items[k]
    ensures var key := Entries(List(items))[k].0; |key| > 0 && key[0] != '-' && IntValue(key) == k
  {
    IntTextRoundTrip(k);
  }
}
