/** Python 2 values as the reconciliation code sees them: decoded JSON,
    inventory variables and the dicts it builds for the API. `str` and
    `unicode` are one constructor, `Str`; a dict is a map from string keys. */
module PyValues {

  datatype Value =
    | Null
    | Bool(b: bool)
    | Int(i: int)
    | Float(f: real)
    | Str(s: string)
    | List(items: seq<Value>)
    | Dict(fields: map<string, Value>)

  /** A Python dict with string keys: an API record or a payload. */
  type Record = map<string, Value>

  datatype Option<T> = None | Some(value: T)

  /** The exceptions the code lets escape. `AnsibleError` carries the value
      that the message was formatted from. */
  datatype PyException = KeyError | TypeError | AttributeError | IndexError

  datatype Error =
    | AnsibleError(message: Value)
    | Raised(exception: PyException)

  datatype Result<T> = Ok(value: T) | Err(error: Error)

  /** `d.get(key)`: the entry, or None when the key is absent. */
  function Get(r: Record, key: string): (v: Value)
    ensures key !in r ==> v == Null
    ensures key in r ==> v == r[key]
  {
    if key in r then r[key] else Null
  }

  /** Python truthiness: None, False, zero and empty containers are false. */
  predicate Truthy(v: Value)
  {
    match v
    case Null => false
    case Bool(b) => b
    case Int(i) => i != 0
    case Float(f) => f != 0.0
    case Str(s) => |s| > 0
    case List(items) => |items| > 0
    case Dict(fields) => |fields| > 0
  }

  /** Lists and dicts cannot be dict keys or set members. */
  predicate Unhashable(v: Value)
  {
    v.List? || v.Dict?
  }

  predicate IsNumber(v: Value)
  {
    v.Bool? || v.Int? || v.Float?
  }

  /** The numeric value of a bool, int or float (True is 1). */
  function NumberOf(v: Value): real
    requires IsNumber(v)
  {
    match v
    case Bool(b) => if b then 1.0 else 0.0
    case Int(i) => i as real
    case Float(f) => f
  }

  /** Python `==`: numbers compare by value across bool, int and float,
      lists element by element, dicts key by key. */
  predicate PyEq(a: Value, b: Value)
    decreases a
  {
    if IsNumber(a) && IsNumber(b) then NumberOf(a) == NumberOf(b)
    else match (a, b)
      case (List(x), List(y)) => |x| == |y| && forall k :: 0 <= k < |x| ==> PyEq(x[k], y[k])
      case (Dict(x), Dict(y)) => x.Keys == y.Keys && forall k :: k in x ==> PyEq(x[k], y[k])
      case _ => a == b
  }

  lemma {:induction false} PyEqReflexive(a: Value)
    ensures PyEq(a, a)
    decreases a
  {
    match a
    case List(x) =>
      forall k | 0 <= k < |x| ensures PyEq(x[k], x[k]) { PyEqReflexive(x[k]); }
    case Dict(x) =>
      forall k | k in x ensures PyEq(x[k], x[k]) { PyEqReflexive(x[k]); }
    case _ =>
  }

  lemma {:induction false} PyEqSymmetric(a: Value, b: Value)
    requires PyEq(a, b)
    ensures PyEq(b, a)
    decreases a
  {
    if IsNumber(a) && IsNumber(b) {
    } else {
      match (a, b)
      case (List(x), List(y)) =>
        forall k | 0 <= k < |y| ensures PyEq(y[k], x[k]) { PyEqSymmetric(x[k], y[k]); }
      case (Dict(x), Dict(y)) =>
        forall k | k in y ensures PyEq(y[k], x[k]) { PyEqSymmetric(x[k], y[k]); }
      case _ =>
    }
  }

  lemma {:induction false} PyEqTransitive(a: Value, b: Value, c: Value)
    requires PyEq(a, b) && PyEq(b, c)
    ensures PyEq(a, c)
    decreases a
  {
    if IsNumber(a) && IsNumber(b) && IsNumber(c) {
    } else {
      match (a, b, c)
      case (List(x), List(y), List(z)) =>
        forall k | 0 <= k < |x| ensures PyEq(x[k], z[k]) { PyEqTransitive(x[k], y[k], z[k]); }
      case (Dict(x), Dict(y), Dict(z)) =>
        forall k | k in x ensures PyEq(x[k], z[k]) { PyEqTransitive(x[k], y[k], z[k]); }
      case _ =>
    }
  }

  /** Equal dicts agree, under `==`, on every `get`. */
  lemma PyEqDictGet(x: Record, y: Record, key: string)
    requires PyEq(Dict(x), Dict(y))
    ensures PyEq(Get(x, key), Get(y, key))
  {
    if key !in x { PyEqReflexive(Null); }
  }

  function DigitChar(d: nat): char
    requires d < 10
  {
    "0123456789"[d]
  }

  function Digits(n: nat): (r: string)
    ensures |r| > 0
    ensures forall k :: 0 <= k < |r| ==> '0' <= r[k] <= '9'
  {
    if n < 10 then [DigitChar(n)] else Digits(n / 10) + [DigitChar(n % 10)]
  }

  /** `str(i)` for an int: optional minus sign, then decimal digits. */
  function IntText(i: int): (r: string)
    ensures |r| > 0
    ensures (r[0] == '-') <==> i < 0
  {
    if i < 0 then "-" + Digits(-i) else Digits(i)
  }

  function DigitValue(c: char): nat
  {
    if '0' <= c <= '9' then (c as int - '0' as int) as nat else 0
  }

  function ParseDigits(s: string): nat
  {
    if s == [] then 0 else ParseDigits(s[..|s| - 1]) * 10 + DigitValue(s[|s| - 1])
  }

  /** Reading back the decimal text of `str(i)` gives `i`. */
  function ParseInt(s: string): int
  {
    if |s| > 0 && s[0] == '-' then -(ParseDigits(s[1..]) as int) else ParseDigits(s)
  }

  lemma {:induction false} DigitsRoundTrip(n: nat)
    ensures ParseDigits(Digits(n)) == n
  {
    if n >= 10 {
      var r := Digits(n / 10) + [DigitChar(n % 10)];
      assert r[..|r| - 1] == Digits(n / 10);
      DigitsRoundTrip(n / 10);
    }
  }

  lemma IntTextRoundTrip(i: int)
    ensures ParseInt(IntText(i)) == i
  {
    if i < 0 {
      var d := Digits(-i);
      DigitsRoundTrip(-i);
      assert ("-" + d)[1..] == d;
    } else {
      var d := Digits(i);
      DigitsRoundTrip(i);
      assert d[0] != '-';
    }
  }

  /** `sys.maxint` of a 64-bit CPython 2 build. Integers outside
      `-sys.maxint - 1 .. sys.maxint` are of type `long`, not `int`. */
  const MaxInt: int := 0x7FFF_FFFF_FFFF_FFFF

  /** An integer whose Python 2 type is `int`. */
  predicate IsPlainInt(i: int)
  {
    -MaxInt - 1 <= i <= MaxInt
  }

  /** What `for c in s` yields over a string: its one-character strings. */
  function Chars(s: string): (cs: seq<Value>)
    ensures |cs| == |s|
    ensures forall k :: 0 <= k < |s| ==> cs[k] == Str([s[k]])
  {
    seq(|s|, k requires 0 <= k < |s| => Str([s[k]]))
  }

  /** Iterating a concatenation goes over both strings in turn. */
  lemma CharsAppend(a: string, b: string)
    ensures Chars(a + b) == Chars(a) + Chars(b)
  {
    assert forall k :: 0 <= k < |a| ==> (a + b)[k] == a[k];
    assert forall k :: |a| <= k < |a| + |b| ==> (a + b)[k] == b[k - |a|];
  }

  /** `str(b)` for a bool. */
  function BoolText(b: bool): string
  {
    if b then "True" else "False"
  }
}
