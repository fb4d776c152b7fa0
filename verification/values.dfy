/**
 * The Python runtime values the modelled code inspects, the exceptions it raises,
 * and the few built-in operations on them it relies on: `dict.get`, `int()`,
 * `str()` of an integer, truth testing, and `list.insert` / `list.pop`.
 */
module Values {
  import opened Wrappers

  /** A point in time (a `datetime`); its representation is opaque to the model. */
  datatype Instant = Instant(ticks: int)

  /** A Python value as the modelled code sees it. */
  datatype Value =
    | PyNone
    | PyBool(b: bool)
    | PyInt(i: int)
    | PyFloat(f: real)
    | PyStr(s: string)
    | PyList(items: seq<Value>)            // a list or a tuple
    | PyDict(entries: map<string, Value>)  // a dict keyed by strings, i.e. a wire record
    | PyDateTime(at: Instant)
    | PyEnum(cls: string, value: Value)    // a member of enumeration `cls`, with its value
    | PyObject(ref: nat)                   // an instance of any other class

  /** A wire record: a JSON object decoded into a dict. */
  type Record = map<string, Value>

  /** The exceptions the modelled code raises. */
  datatype Error =
    | TypeError
    | ValueError
    | KeyError
    | IndexError
    | AttributeError
    | PartialObjectError
    | InvalidKeys(keys: set<string>)   // the validation error raised for bad keyword arguments

  /** `isinstance(v, str)` */
  predicate IsStr(v: Value) { v.PyStr? }

  /** `isinstance(v, int)`: `bool` is a subclass of `int`, so booleans pass. */
  predicate IsInt(v: Value) { v.PyInt? || v.PyBool? }

  predicate StrOrNone(v: Value) { v.PyNone? || IsStr(v) }

  predicate IntOrNone(v: Value) { v.PyNone? || IsInt(v) }

  /** `v is None or isinstance(v, bool)` */
  predicate BoolOrNone(v: Value) { v.PyNone? || v.PyBool? }

  /** `d.get(k)`: `None` when the key is absent. */
  function Get(d: Record, k: string): Value
  {
    if k in d then d[k] else PyNone
  }

  /** `v[...]` used on a value the code expects to be a dict. */
  function AsRecord(v: Value): (r: Result<Record, Error>)
    ensures r.Success? <==> v.PyDict?
    ensures r.Success? ==> r.value == v.entries
    ensures r.Failure? ==> r.error == TypeError
  {
    if v.PyDict? then Success(v.entries) else Failure(TypeError)
  }

  /** Python truth testing (`if v:`). */
  predicate Truthy(v: Value)
  {
    match v
    case PyNone => false
    case PyBool(b) => b
    case PyInt(i) => i != 0
    case PyFloat(f) => f != 0.0
    case PyStr(s) => s != ""
    case PyList(items) => items != []
    case PyDict(entries) => entries != map[]
    case PyDateTime(_) => true
    case PyEnum(_, _) => true
    case PyObject(_) => true
  }

  /** `for x in v`: the elements of a list or tuple, or the one-character strings of a
      string; iterating any other value raises `TypeError`. */
  function Iterate(v: Value): (r: Result<seq<Value>, Error>)
    ensures v.PyList? ==> r == Success(v.items)
    ensures v.PyStr? ==> r.Success? && |r.value| == |v.s|
    ensures v.PyStr? ==> forall i :: 0 <= i < |v.s| ==> r.value[i] == PyStr([v.s[i]])
    ensures !v.PyList? && !v.PyStr? ==> r == Failure(TypeError)
  {
    match v
    case PyList(items) => Success(items)
    case PyStr(s) => Success(seq(|s|, i requires 0 <= i < |s| => PyStr([s[i]])))
    case _ => Failure(TypeError)
  }

  /** The validation of keyword arguments against a route's required and accepted keys:
      every required key must be given and every given key must be accepted. */
  function ValidateKeys(given: set<string>, required: set<string>, accepted: set<string>): (r: Outcome<Error>)
    ensures r.Pass? <==> required <= given && given <= accepted
    ensures r.Fail? ==> r.error == InvalidKeys((required - given) + (given - accepted))
  {
    if required <= given && given <= accepted then Pass
    else Fail(InvalidKeys((required - given) + (given - accepted)))
  }

  /** `sep.join(parts)` */
  function Join(sep: string, parts: seq<string>): string
  {
    if parts == [] then ""
    else if |parts| == 1 then parts[0]
    else Join(sep, parts[..|parts| - 1]) + sep + parts[|parts| - 1]
  }

  // ---------------------------------------------------------------- integers and their text

  function DigitChar(d: nat): char
    requires d < 10
  {
    (48 + d) as char
  }

  predicate IsDigit(c: char) { '0' <= c <= '9' }

  /** The decimal digits of a natural number, most significant first. */
  function Digits(n: nat): (s: string)
    ensures |s| >= 1
    ensures forall i :: 0 <= i < |s| ==> IsDigit(s[i])
  {
    if n < 10 then [DigitChar(n)] else Digits(n / 10) + [DigitChar(n % 10)]
  }

  /** `str(n)` for an integer `n`. */
  function DecimalString(n: int): string
  {
    if n < 0 then "-" + Digits(-n) else Digits(n)
  }

  /** A non-empty run of decimal digits, read as a natural number. */
  function ParseDigits(s: string): Option<nat>
  {
    if |s| == 0 || !IsDigit(s[|s| - 1]) then None
    else
      var d := s[|s| - 1] as int - 48;
      if |s| == 1 then Some(d)
      else match ParseDigits(s[..|s| - 1])
        case None => None
        case Some(p) => Some(p * 10 + d)
  }

  /** `int(s)` for a string: an optional sign followed by decimal digits. */
  function ParseInt(s: string): Option<int>
  {
    if |s| > 0 && (s[0] == '-' || s[0] == '+') then
      match ParseDigits(s[1..])
      case None => None
      case Some(m) => Some(if s[0] == '-' then -(m as int) else m as int)
    else
      match ParseDigits(s)
      case None => None
      case Some(m) => Some(m)
  }

  lemma {:induction false} DigitsRoundTrip(n: nat)
    ensures ParseDigits(Digits(n)) == Some(n)
  {
    if n >= 10 {
      var s := Digits(n);
      assert s[..|s| - 1] == Digits(n / 10);
      DigitsRoundTrip(n / 10);
    }
  }

  /** `int(str(n)) == n` */
  lemma DecimalRoundTrip(n: int)
    ensures ParseInt(DecimalString(n)) == Some(n)
  {
    var s := DecimalString(n);
    if n < 0 {
      assert s[0] == '-' && s[1..] == Digits(-n);
      DigitsRoundTrip(-n);
    } else {
      assert IsDigit(s[0]);
      DigitsRoundTrip(n);
    }
  }

  /** Python's `int(v)`: truncates floats toward zero, maps booleans to 0 and 1, parses strings. */
  function ToInt(v: Value): (r: Result<int, Error>)
    ensures v.PyInt? ==> r == Success(v.i)
    ensures v.PyBool? ==> r == Success(if v.b then 1 else 0)
    ensures v.PyFloat? ==> r.Success? && -1.0 < v.f - r.value as real < 1.0
    ensures v.PyFloat? && v.f >= 0.0 ==> 0.0 <= v.f - r.value as real
    ensures v.PyFloat? && v.f < 0.0 ==> v.f - r.value as real <= 0.0
    ensures v.PyStr? ==> (r.Success? <==> ParseInt(v.s).Some?)
    ensures v.PyStr? && r.Success? ==> r.value == ParseInt(v.s).value
    ensures r.Failure? ==> r.error == (if v.PyStr? then ValueError else TypeError)
  {
    match v
    case PyInt(i) => Success(i)
    case PyBool(b) => Success(if b then 1 else 0)
    case PyFloat(f) => Success(if f >= 0.0 then f.Floor else -((-f).Floor))
    case PyStr(s) =>
      (match ParseInt(s)
       case Some(m) => Success(m)
       case None => Failure(ValueError))
    case _ => Failure(TypeError)
  }

  lemma IntOfDecimalString(n: int)
    ensures ToInt(PyStr(DecimalString(n))) == Success(n)
  {
    DecimalRoundTrip(n);
  }

  // ---------------------------------------------------------------- list.insert and list.pop

  /** Where `list.insert(index, x)` puts `x` in a list of length `n`: negative indexes count
      from the end, and out-of-range indexes are clamped to the ends. */
  function InsertPosition(n: nat, index: int): (w: nat)
    ensures w <= n
    ensures 0 <= index <= n ==> w == index
    ensures -(n as int) <= index < 0 ==> w == n + index
    ensures index > n ==> w == n
    ensures index < -(n as int) ==> w == 0
  {
    if index < 0 then (if index + n < 0 then 0 else index + n)
    else if index > n then n
    else index
  }

  /** The list after `list.insert(index, x)`. */
  function Insert<T>(s: seq<T>, index: int, x: T): (r: seq<T>)
    ensures |r| == |s| + 1
    ensures r[InsertPosition(|s|, index)] == x
    ensures r[..InsertPosition(|s|, index)] + r[InsertPosition(|s|, index) + 1..] == s
  {
    var w := InsertPosition(|s|, index);
    assert (s[..w] + [x] + s[w..])[w + 1..] == s[w..];
    s[..w] + [x] + s[w..]
  }

  /** `list.pop(index)`: the list without the element, and the element; `IndexError`
      when the (possibly negative) index is out of range, an empty list included. */
  function Pop<T>(s: seq<T>, index: int): (r: Result<(seq<T>, T), Error>)
    ensures r.Success? <==> -|s| <= index < |s|
    ensures r.Failure? ==> r.error == IndexError
    ensures r.Success? ==> |r.value.0| == |s| - 1
    ensures r.Success? ==> var k := if index < 0 then index + |s| else index;
      r.value.1 == s[k] && r.value.0 == s[..k] + s[k + 1..]
  {
    var k := if index < 0 then index + |s| else index;
    if 0 <= k < |s| then Success((s[..k] + s[k + 1..], s[k])) else Failure(IndexError)
  }

  /** Popping where an element was just inserted gives back the list and the element. */
  lemma PopUndoesInsert<T>(s: seq<T>, index: int, x: T)
    ensures Pop(Insert(s, index, x), InsertPosition(|s|, index)) == Success((s, x))
  {
  }

  /** `insert(len(s), x)` (or any larger index) is `append(x)`. */
  lemma InsertAtEndAppends<T>(s: seq<T>, index: int, x: T)
    requires index >= |s|
    ensures Insert(s, index, x) == s + [x]
  {
    assert s[..|s|] == s;
  }

  /** A negative index counts from the end: `pop(-1)` removes the last element. */
  lemma PopLast<T>(s: seq<T>)
    requires |s| > 0
    ensures Pop(s, -1) == Success((s[..|s| - 1], s[|s| - 1]))
  {
    assert s[..|s| - 1] + s[|s|..] == s[..|s| - 1];
  }
}
