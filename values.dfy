/**
 * The Python objects the core handles: JSON values decoded from the portal,
 * the scalars stored in the value classes, `isinstance` checks, `str()` of
 * scalars, `int()` of a decimal string, and the exceptions that abort a run.
 */
module Values {
  import opened Wrappers

  /** A JSON value (and the Python object it decodes to). */
  datatype Value =
    | Null
    | Bool(b: bool)
    | Int(i: int)
    | Str(s: string)
    | Array(items: seq<Value>)
    | Object(fields: map<string, Value>)

  predicate IsScalar(v: Value) {
    v.Null? || v.Bool? || v.Int? || v.Str?
  }

  /** A value that is not a container: what the value classes store. */
  type Scalar = v: Value | IsScalar(v) witness Null

  /** `isinstance(v, int)`: in Python `bool` is a subclass of `int`. */
  predicate IsInstanceInt(v: Value) {
    v.Int? || v.Bool?
  }

  /** A value that passes `isinstance(v, int)`. */
  type PyInt = v: Value | IsInstanceInt(v) witness Int(0)

  /** The exceptions raised by the core. */
  datatype PyError =
    | ValueError(message: string)      // an explicit `raise ValueError(message)`
    | UnpackError(got: nat)            // `a, b = xs` where `xs` does not have two items
    | IntLiteralError(literal: string) // `int(s)` where `s` is not a decimal literal
    | KeyError(key: string)            // `d[key]` where `key` is missing
    | TypeError                        // subscripting or iterating an object of the wrong type
    | AttributeError                   // `x.get(...)` where `x` is not a dict
    | UnsupportedKey                   // a non-string resource id used as a column name
    | RequestError                     // a failed call to the portal

  // ---------------------------------------------------------------------------
  // Decimal rendering of integers (`str(n)`) and parsing (`int(s)`)

  predicate IsDigit(c: char) {
    '0' <= c <= '9'
  }

  predicate AllDigits(s: string) {
    forall k :: 0 <= k < |s| ==> IsDigit(s[k])
  }

  function DigitChar(d: int): (c: char)
    requires 0 <= d < 10
    ensures IsDigit(c) && c as int - '0' as int == d
  {
    ('0' as int + d) as char
  }

  /** The value of a string of decimal digits, most significant first. */
  function DigitsValue(s: string): nat
    requires AllDigits(s)
  {
    if s == [] then 0
    else DigitsValue(s[..|s| - 1]) * 10 + (s[|s| - 1] as int - '0' as int)
  }

  /** `str(n)` for a natural number: decimal digits without leading zeros. */
  function NatToDecimal(n: nat): (s: string)
    ensures |s| > 0 && AllDigits(s)
    ensures DigitsValue(s) == n
    ensures s[0] == '0' ==> s == "0"
  {
    if n < 10 then [DigitChar(n)]
    else
      var prefix := NatToDecimal(n / 10);
      var s := prefix + [DigitChar(n % 10)];
      assert s[..|s| - 1] == prefix;
      s
  }

  /** `str(n)` for an integer: a minus sign before the digits of a negative number. */
  function IntToDecimal(n: int): (s: string)
    ensures |s| > 0
    ensures n >= 0 <==> AllDigits(s)
    ensures n >= 0 <==> '-' !in s
  {
    if n < 0 then
      var s := "-" + NatToDecimal(-n);
      assert s[0] == '-' && !IsDigit(s[0]);
      s
    else
      var s := NatToDecimal(n);
      assert forall k :: 0 <= k < |s| ==> s[k] != '-';
      s
  }

  /** A literal `int()` accepts here: an optional sign and at least one decimal digit. */
  predicate IsIntLiteral(s: string) {
    || (|s| > 0 && AllDigits(s))
    || (|s| > 1 && (s[0] == '+' || s[0] == '-') && AllDigits(s[1..]))
  }

  /** `int(s)` with base 10. */
  function ParseInt(s: string): (r: Result<int, PyError>)
    ensures r.Success? <==> IsIntLiteral(s)
    ensures r.Failure? ==> r.error == IntLiteralError(s)
    ensures r.Success? && AllDigits(s) ==> r.value == DigitsValue(s)
    ensures r.Success? && !AllDigits(s) ==>
      r.value == if s[0] == '-' then 0 - (DigitsValue(s[1..]) as int) else DigitsValue(s[1..])
  {
    if |s| > 0 && AllDigits(s) then Success(DigitsValue(s))
    else if |s| > 1 && s[0] == '+' && AllDigits(s[1..]) then Success(DigitsValue(s[1..]))
    else if |s| > 1 && s[0] == '-' && AllDigits(s[1..]) then Success(0 - (DigitsValue(s[1..]) as int))
    else Failure(IntLiteralError(s))
  }

  /** `int(str(n)) == n`: the decimal rendering is read back exactly. */
  lemma {:induction false} ParseIntOfDecimal(n: int)
    ensures ParseInt(IntToDecimal(n)) == Success(n)
  {
    if n < 0 {
      var s := IntToDecimal(n);
      assert s[1..] == NatToDecimal(-n);
      assert !AllDigits(s) by { assert !IsDigit(s[0]); }
    }
  }

  /** Different integers render differently. */
  lemma DecimalInjective(a: int, b: int)
    requires IntToDecimal(a) == IntToDecimal(b)
    ensures a == b
  {
    ParseIntOfDecimal(a);
    ParseIntOfDecimal(b);
  }

  /** `str(v)` for a scalar. */
  function Render(v: Scalar): string {
    match v
    case Null => "None"
    case Bool(b) => if b then "True" else "False"
    case Int(i) => IntToDecimal(i)
    case Str(s) => s
  }

  /** `d[key]` on a decoded JSON object. */
  function Field(v: Value, key: string): (r: Result<Value, PyError>)
    ensures r.Success? <==> v.Object? && key in v.fields
    ensures r.Success? ==> r.value == v.fields[key]
    ensures r.Failure? ==> r.error == if v.Object? then KeyError(key) else TypeError
  {
    if !v.Object? then Failure(TypeError)
    else if key in v.fields then Success(v.fields[key])
    else Failure(KeyError(key))
  }

  // ---------------------------------------------------------------------------
  // Iteration (`for x in v`)

  /** Lexicographic order on strings: the order in which a dict's keys are listed here. */
  predicate KeyBelow(a: string, b: string)
    decreases |a|
  {
    a == [] || (b != [] && (a[0] < b[0] || (a[0] == b[0] && KeyBelow(a[1..], b[1..]))))
  }

  lemma {:induction false} KeyBelowReflexive(a: string)
    ensures KeyBelow(a, a)
  {
    if a != [] {
      KeyBelowReflexive(a[1..]);
    }
  }

  lemma {:induction false} KeyBelowTotal(a: string, b: string)
    ensures KeyBelow(a, b) || KeyBelow(b, a)
  {
    if a != [] && b != [] && a[0] == b[0] {
      KeyBelowTotal(a[1..], b[1..]);
    }
  }

  lemma {:induction false} KeyBelowAntisymmetric(a: string, b: string)
    requires KeyBelow(a, b) && KeyBelow(b, a)
    ensures a == b
  {
    if a != [] && b != [] {
      KeyBelowAntisymmetric(a[1..], b[1..]);
      assert a == [a[0]] + a[1..] && b == [b[0]] + b[1..];
    }
  }

  lemma {:induction false} KeyBelowTransitive(a: string, b: string, c: string)
    requires KeyBelow(a, b) && KeyBelow(b, c)
    ensures KeyBelow(a, c)
  {
    if a != [] && b != [] && c != [] && a[0] == b[0] == c[0] {
      KeyBelowTransitive(a[1..], b[1..], c[1..]);
    }
  }

  /** A non-empty set of keys has a least one. */
  lemma {:induction false} LeastKey(keys: set<string>) returns (m: string)
    requires keys != {}
    ensures m in keys && forall j :: j in keys ==> KeyBelow(m, j)
    decreases |keys|
  {
    var x :| x in keys;
    var rest := keys - {x};
    if rest == {} {
      assert keys == {x};
      KeyBelowReflexive(x);
      m := x;
    } else {
      var least := LeastKey(rest);
      KeyBelowTotal(x, least);
      if KeyBelow(x, least) {
        KeyBelowReflexive(x);
        forall j | j in rest
          ensures KeyBelow(x, j)
        {
          KeyBelowTransitive(x, least, j);
        }
        m := x;
      } else {
        m := least;
      }
    }
  }

  lemma LeastKeyExists(keys: set<string>)
    requires keys != {}
    ensures exists k :: k in keys && forall j :: j in keys ==> KeyBelow(k, j)
  {
    var m := LeastKey(keys);
  }

  /** The keys of a dict, least first. */
  function SortedKeys(keys: set<string>): (r: seq<string>)
    ensures |r| == |keys|
    ensures forall k :: k in r <==> k in keys
    decreases |keys|
  {
    if keys == {} then []
    else
      LeastKeyExists(keys);
      assert forall a, b :: KeyBelow(a, b) && KeyBelow(b, a) ==> a == b by {
        forall a, b | KeyBelow(a, b) && KeyBelow(b, a)
          ensures a == b
        {
          KeyBelowAntisymmetric(a, b);
        }
      }
      var k :| k in keys && forall j :: j in keys ==> KeyBelow(k, j);
      [k] + SortedKeys(keys - {k})
  }

  /** The one-character strings of `s`, as iterating a `str` yields them. */
  function Characters(s: string): seq<Value> {
    seq(|s|, k requires 0 <= k < |s| => Str([s[k]]))
  }

  /** The keys of a dict, as iterating a `dict` yields them. */
  function KeyItems(fields: map<string, Value>): seq<Value> {
    var keys := SortedKeys(fields.Keys);
    seq(|keys|, k requires 0 <= k < |keys| => Str(keys[k]))
  }

  /**
   * The items of `for x in v`: a list yields its items, a string its
   * characters and a dict its keys; `None`, a bool or an int raises.
   */
  function Items(v: Value): (r: Result<seq<Value>, PyError>)
    ensures r.Success? <==> v.Array? || v.Str? || v.Object?
    ensures v.Array? ==> r == Success(v.items)
    ensures r.Failure? ==> r.error == TypeError
  {
    match v
    case Array(items) => Success(items)
    case Str(s) => Success(Characters(s))
    case Object(fields) => Success(KeyItems(fields))
    case _ => Failure(TypeError)
  }

  /**
   * Iterating a string or a dict yields strings only: one per character, or
   * every key once.
   */
  lemma ItemsOfText(v: Value)
    requires v.Str? || v.Object?
    ensures Items(v).Success?
    ensures |Items(v).value| == if v.Str? then |v.s| else |v.fields|
    ensures forall k :: 0 <= k < |Items(v).value| ==> Items(v).value[k].Str?
    ensures v.Str? ==> forall k :: 0 <= k < |v.s| ==> Items(v).value[k] == Str([v.s[k]])
    ensures v.Object? ==> forall key :: key in v.fields <==> Str(key) in Items(v).value
  {
    if v.Object? {
      var keys := SortedKeys(v.fields.Keys);
      forall key | key in v.fields
        ensures Str(key) in Items(v).value
      {
        var k :| 0 <= k < |keys| && keys[k] == key;
        assert Items(v).value[k] == Str(key);
      }
    }
  }

  /** Only a list can yield a dict. */
  lemma DictsOnlyFromLists(v: Value)
    ensures Items(v).Success? && !v.Array? ==>
              forall k :: 0 <= k < |Items(v).value| ==> !Items(v).value[k].Object?
  {
    if v.Str? || v.Object? {
      ItemsOfText(v);
    }
  }
}
