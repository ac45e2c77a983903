/**
 * The JSON-compatible values carried by the source's `Dict[str, Any]` payloads
 * (alarm events, action parameters, safety blocks, action results), with the
 * few pieces of Python semantics the core relies on: truthiness, `dict.get`,
 * `str()` and `int()`.
 */
module Values {
  import opened Wrappers

  /** A JSON value; `VNull` is Python's None. */
  datatype Value =
    | VNull
    | VBool(b: bool)
    | VInt(i: int)
    | VStr(s: string)
    | VList(items: seq<Value>)
    | VMap(fields: map<string, Value>)

  /** Python truthiness: None, False, 0, "", [] and {} are false. */
  predicate Truthy(v: Value)
  {
    match v
    case VNull => false
    case VBool(b) => b
    case VInt(i) => i != 0
    case VStr(s) => s != ""
    case VList(items) => items != []
    case VMap(fields) => fields != map[]
  }

  /** `m.get(key, default)`: the default only when the key is absent. */
  function Get(m: map<string, Value>, key: string, default: Value): Value
  {
    if key in m then m[key] else default
  }

  /**
   * `d.get(key, {})` where the code then calls `.get` on the result: a
   * missing key gives the empty dict, and a value that is not a dict raises.
   */
  function GetDict(m: map<string, Value>, key: string): (r: Result<map<string, Value>, string>)
    ensures key !in m ==> r == Ok(map[])
    ensures key in m ==> (r.Ok? <==> m[key].VMap?)
    ensures key in m && m[key].VMap? ==> r == Ok(m[key].fields)
  {
    match Get(m, key, VMap(map[]))
    case VMap(fields) => Ok(fields)
    case _ => Err("'" + key + "' has no attribute 'get'")
  }

  predicate IsDigit(c: char)
  {
    '0' <= c <= '9'
  }

  predicate AllDigits(s: string)
  {
    forall k :: 0 <= k < |s| ==> IsDigit(s[k])
  }

  function DigitChar(d: nat): (c: char)
    requires d < 10
    ensures IsDigit(c) && c as int - '0' as int == d
  {
    ('0' as int + d) as char
  }

  /** Decimal digits of a natural number, most significant first, no leading zeros. */
  function ShowNat(n: nat): (s: string)
    ensures |s| >= 1 && AllDigits(s)
    decreases n
  {
    if n < 10 then [DigitChar(n)] else ShowNat(n / 10) + [DigitChar(n % 10)]
  }

  /** Python's `str()` of an int. */
  function ShowInt(i: int): string
  {
    if i < 0 then "-" + ShowNat(-i) else ShowNat(i)
  }

  /** The number a string of decimal digits denotes. */
  function DigitsValue(s: string): nat
    requires AllDigits(s)
    decreases |s|
  {
    if s == [] then 0 else 10 * DigitsValue(s[..|s| - 1]) + (s[|s| - 1] as int - '0' as int)
  }

  function ParseUnsigned(s: string): Option<nat>
  {
    if |s| > 0 && AllDigits(s) then Some(DigitsValue(s)) else None
  }

  /** Python's `int()` of a string, for an optional sign followed by ASCII digits. */
  function ParseInt(s: string): Option<int>
  {
    if |s| > 0 && (s[0] == '-' || s[0] == '+') then
      match ParseUnsigned(s[1..])
      case None => None
      case Some(n) => var i: int := if s[0] == '-' then -(n as int) else n; Some(i)
    else
      match ParseUnsigned(s)
      case None => None
      case Some(n) => Some(n)
  }

  /** Python's `int(v)`: ints as they are, booleans as 0/1, decimal strings parsed; anything else raises. */
  function IntOf(v: Value): Result<int, string>
  {
    match v
    case VInt(i) => Ok(i)
    case VBool(b) => Ok(if b then 1 else 0)
    case VStr(s) =>
      (match ParseInt(s)
       case Some(i) => Ok(i)
       case None => Err("invalid literal for int() with base 10"))
    case _ => Err("int() argument must be a string or a number")
  }

  /**
   * Python's `str(v)`: a string is itself, an int its decimal form, a boolean
   * "True"/"False", None "None"; lists and dicts are rendered by `repr`, which
   * the model leaves abstract.
   */
  function Render(v: Value, repr: Value -> string): string
  {
    match v
    case VStr(s) => s
    case VInt(i) => ShowInt(i)
    case VBool(b) => if b then "True" else "False"
    case VNull => "None"
    case _ => repr(v)
  }

  lemma {:induction false} DigitsValueOfShowNat(n: nat)
    ensures DigitsValue(ShowNat(n)) == n
    decreases n
  {
    if n >= 10 {
      var s := ShowNat(n);
      assert s[..|s| - 1] == ShowNat(n / 10);
      DigitsValueOfShowNat(n / 10);
    }
  }

  /** `int(str(i)) == i` for every integer. */
  lemma ParseShowInt(i: int)
    ensures ParseInt(ShowInt(i)) == Some(i)
  {
    var s := ShowInt(i);
    if i < 0 {
      var digits := ShowNat(-i);
      assert s == "-" + digits;
      assert s[1..] == digits;
      DigitsValueOfShowNat(-i);
      assert ParseUnsigned(s[1..]) == Some(-i);
    } else {
      var digits := ShowNat(i);
      assert IsDigit(digits[0]);
      DigitsValueOfShowNat(i);
      assert ParseUnsigned(s) == Some(i);
    }
  }

  /** `int(str(v))` gives back an integer value. */
  lemma IntOfRenderedInt(i: int, repr: Value -> string)
    ensures IntOf(VStr(Render(VInt(i), repr))) == Ok(i)
  {
    ParseShowInt(i);
  }
}
