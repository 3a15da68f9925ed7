/** Python values as the bot sees them: `None`-able configuration strings and
    the value `response.json()` decodes from the review API's body. */
module JsonValue {

  /** A value that may be Python's `None`. */
  datatype Option<+T> = None | Some(value: T)

  /** A decoded JSON document: null, booleans, integers, strings, lists
      and objects (Python `dict`s keyed by strings). */
  datatype Json =
    | JNull
    | JBool(b: bool)
    | JInt(i: int)
    | JStr(s: string)
    | JList(items: seq<Json>)
    | JObj(fields: map<string, Json>)

  /** Python truthiness (`if value:`): null, false, 0, "", [] and {} are falsy. */
  predicate Truthy(j: Json) {
    match j
    case JNull => false
    case JBool(b) => b
    case JInt(i) => i != 0
    case JStr(s) => s != ""
    case JList(items) => items != []
    case JObj(fields) => fields != map[]
  }

  /** `d.get(k)`: Python's `None` both when `k` is absent and when it is bound to null. */
  function Get(d: map<string, Json>, k: string): (r: Json)
    ensures r == JNull <==> IsNone(d, k)
    ensures k in d ==> r == d[k]
  {
    if k in d then d[k] else JNull
  }

  /** `d.get(k) is None`. */
  predicate IsNone(d: map<string, Json>, k: string) {
    k !in d || d[k] == JNull
  }

  /** Python's `str()` of a value, as an f-string interpolates it; a string
      is inserted as it is. */
  function Display(j: Json): string {
    match j
    case JNull => "None"
    case JBool(b) => if b then "True" else "False"
    case JInt(i) => IntToString(i)
    case JStr(s) => s
    case JList(_) => "[...]"
    case JObj(_) => "{...}"
  }

  /** Decimal rendering of an integer, with a leading '-' when negative. */
  function IntToString(i: int): string {
    if i < 0 then "-" + NatToString(-i) else NatToString(i)
  }

  function NatToString(n: nat): string
    decreases n
  {
    if n < 10 then [DigitChar(n)] else NatToString(n / 10) + [DigitChar(n % 10)]
  }

  function DigitChar(d: nat): char
    requires d < 10
  {
    "0123456789"[d]
  }
}
