/**
 * A value as `json_decode($text, true)` returns it, and the PHP operations the
 * client applies to such values: array access, `isset`, truthiness, iteration
 * and conversion to string.
 */
module Json {
  import opened Results
  import opened Strings

  /** JSON objects become ordered PHP arrays; members keep their order and their keys are distinct. */
  datatype Value =
    | Null
    | Bool(b: bool)
    | Num(n: int)
    | Str(s: string)
    | Arr(items: seq<Value>)
    | Obj(members: seq<(string, Value)>)

  /** `$j[$key]`: the binding of `key` in an object, null when there is none or `j` is no object. */
  function Member(j: Value, key: string): Value
  {
    if j.Obj? then Lookup(j.members, key) else Null
  }

  function Lookup(ms: seq<(string, Value)>, key: string): Value
  {
    if ms == [] then Null
    else if ms[0].0 == key then ms[0].1
    else Lookup(ms[1..], key)
  }

  /** A key finds its own member when no earlier member has the same key. */
  lemma {:induction false} LookupFinds(ms: seq<(string, Value)>, i: nat)
    requires i < |ms|
    requires forall j :: 0 <= j < i ==> ms[j].0 != ms[i].0
    ensures Lookup(ms, ms[i].0) == ms[i].1
  {
    if i > 0 {
      LookupFinds(ms[1..], i - 1);
    }
  }

  /** The keys of an object, in order; none for anything else. */
  function Keys(j: Value): seq<string>
  {
    if j.Obj? then seq(|j.members|, i requires 0 <= i < |j.members| => j.members[i].0) else []
  }

  /** `isset($j[$key])`: bound and not null. */
  predicate IsSet(j: Value, key: string)
  {
    Member(j, key) != Null
  }

  /** PHP truthiness: `!$j` and `empty($j)` hold exactly of these values. */
  predicate Falsy(j: Value)
  {
    match j
    case Null => true
    case Bool(b) => !b
    case Num(n) => n == 0
    case Str(s) => s == "" || s == "0"
    case Arr(items) => items == []
    case Obj(ms) => ms == []
  }

  /** The values `foreach ($j as $v)` visits, in order; none for a scalar or null. */
  function Elements(j: Value): seq<Value>
  {
    match j
    case Arr(items) => items
    case Obj(ms) => seq(|ms|, i requires 0 <= i < |ms| => ms[i].1)
    case _ => []
  }

  /** PHP's conversion of a value to string, as string interpolation performs it. */
  function AsString(j: Value): string
  {
    match j
    case Null => ""
    case Bool(b) => if b then "1" else ""
    case Num(n) => Decimal(n)
    case Str(s) => s
    case _ => "Array"
  }

  /** A PHP string-or-null as a value. */
  function Nullable(o: Option<string>): Value
  {
    if o.Some? then Str(o.value) else Null
  }
}
