/**
 * Decoded JSON values as the bot's Python code sees them, and the few Python
 * operations it applies to them: `d.get(k)`, `x[k]`, hashing for a dict
 * lookup, and `str(x)` inside an f-string. Python's `None` and JSON `null`
 * are the same value, `JNull`.
 */
module PyJson {
  import opened Wrappers

  datatype Json =
    | JNull
    | JBool(b: bool)
    | JNum(n: int)
    | JStr(s: string)
    | JList(items: seq<Json>)
    | JObj(fields: map<string, Json>)

  /** Python's name for the type a JSON value decodes to. */
  function TypeName(j: Json): string {
    match j
    case JNull => "NoneType"
    case JBool(_) => "bool"
    case JNum(_) => "int"
    case JStr(_) => "str"
    case JList(_) => "list"
    case JObj(_) => "dict"
  }

  /** Lists and dicts cannot be dictionary keys; every other JSON value can. */
  predicate Hashable(j: Json) {
    !j.JList? && !j.JObj?
  }

  /** `d.get(k)`: the value under `k`, or None when `k` is absent. */
  function Get(d: map<string, Json>, k: string): (r: Json)
    ensures k !in d ==> r == JNull
    ensures k in d ==> r == d[k]
  {
    if k in d then d[k] else JNull
  }

  /** What the bot puts between the brackets of `x[...]`. */
  datatype Key = Name(name: string) | Index(i: int)

  /** Python's built-in exceptions raised by the operations above. */
  datatype PyError =
    | KeyError(key: Json)
    | IndexError(message: string)
    | TypeError(message: string)
    | AttributeError(message: string)
  {
    /** `str(e)` for the exception. */
    function Text(): string {
      match this
      case KeyError(k) => Repr(k)
      case IndexError(m) => m
      case TypeError(m) => m
      case AttributeError(m) => m
    }
  }

  /** Python's subscription `x[k]` on a decoded JSON value. */
  function Subscript(x: Json, k: Key): (r: Result<Json, PyError>)
    ensures r.Ok? ==> x.JObj? || x.JList? || x.JStr?
    ensures x.JObj? && k.Name? ==> r == (if k.name in x.fields then Ok(x.fields[k.name]) else Err(KeyError(JStr(k.name))))
    ensures x.JList? && k.Index? && 0 <= k.i < |x.items| ==> r == Ok(x.items[k.i])
  {
    match x
    case JObj(m) =>
      (match k
       case Name(n) => if n in m then Ok(m[n]) else Err(KeyError(JStr(n)))
       case Index(i) => Err(KeyError(JNum(i))))
    case JList(items) =>
      (match k
       case Index(i) =>
         if -|items| <= i < |items| then Ok(items[if i < 0 then i + |items| else i])
         else Err(IndexError("list index out of range"))
       case Name(_) => Err(TypeError("list indices must be integers or slices, not str")))
    case JStr(s) =>
      (match k
       case Index(i) =>
         if -|s| <= i < |s| then Ok(JStr([s[if i < 0 then i + |s| else i]]))
         else Err(IndexError("string index out of range"))
       case Name(_) => Err(TypeError("string indices must be integers, not 'str'")))
    case JNull => Err(TypeError("'NoneType' object is not subscriptable"))
    case _ => Err(TypeError("'" + TypeName(x) + "' object is not subscriptable"))
  }

  /** `x.get(...)` on a value that is not a dict. */
  function NoGet(x: Json): PyError {
    AttributeError("'" + TypeName(x) + "' object has no attribute 'get'")
  }

  /** `str(x)`, as an f-string renders a value. */
  function Str(j: Json): string {
    match j
    case JStr(s) => s
    case _ => Repr(j)
  }

  /** `repr(x)` of a value, as `str` of a KeyError shows its key. */
  function Repr(j: Json): string {
    match j
    case JNull => "None"
    case JBool(b) => if b then "True" else "False"
    case JNum(n) => IntToString(n)
    case JStr(s) => "'" + s + "'"
    case JList(_) => "[...]"
    case JObj(_) => "{...}"
  }

  function DigitChar(d: nat): (c: char)
    requires d < 10
    ensures '0' <= c <= '9'
  {
    "0123456789"[d]
  }

  /** Decimal digits of `n`, most significant first, without leading zeros. */
  function NatToString(n: nat): (s: string)
    ensures |s| >= 1
    ensures forall i :: 0 <= i < |s| ==> '0' <= s[i] <= '9'
    ensures |s| > 1 ==> s[0] != '0'
    decreases n
  {
    if n < 10 then [DigitChar(n)] else NatToString(n / 10) + [DigitChar(n % 10)]
  }

  /** `str(i)` for a Python int: an optional minus sign and decimal digits. */
  function IntToString(i: int): (s: string)
    ensures |s| >= 1
    ensures (s[0] == '-') == (i < 0)
  {
    if i < 0 then "-" + NatToString(-i) else NatToString(i)
  }
}
