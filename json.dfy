/** The Python values that `json.loads` produces, and the few operations the
    server applies to them: `dict.get`, `type(v).__name__` and `str(v)`. */
module Json {

  /** A decoded JSON value. A JSON object is a Python `dict`; the model keeps
      its entries as a `map` (insertion order is not modelled). A floating-point
      number keeps only its literal text. */
  datatype Json =
    | JNull
    | JBool(b: bool)
    | JInt(i: int)
    | JFloat(literal: string)
    | JStr(s: string)
    | JArr(items: seq<Json>)
    | JObj(fields: map<string, Json>)

  /** `d.get(key)`: the entry, or `None` when the key is absent. */
  function Get(d: map<string, Json>, key: string): (v: Json)
    ensures key in d ==> v == d[key]
    ensures key !in d ==> v == JNull
  {
    GetOr(d, key, JNull)
  }

  /** `d.get(key, default)`: the default is used only when the key is absent,
      not when it is present with the value `None`. */
  function GetOr(d: map<string, Json>, key: string, default: Json): Json
  {
    if key in d then d[key] else default
  }

  /** `type(v).__name__`, as it appears in an `AttributeError` message. */
  function TypeName(v: Json): string
  {
    match v
    case JNull => "NoneType"
    case JBool(_) => "bool"
    case JInt(_) => "int"
    case JFloat(_) => "float"
    case JStr(_) => "str"
    case JArr(_) => "list"
    case JObj(_) => "dict"
  }

  /** `str(v)`. Strings, `None`, booleans and integers are rendered here;
      floats, lists and dicts are rendered by `repr`, which stands for Python's
      own formatting of them. */
  function PyStr(v: Json, repr: Json -> string): string
  {
    match v
    case JStr(s) => s
    case JNull => "None"
    case JBool(b) => if b then "True" else "False"
    case JInt(i) => Decimal(i)
    case _ => repr(v)
  }

  /** `str(i)` of an integer: a minus sign exactly for a negative number,
      then the canonical decimal digits (no leading zero) that spell `|i|`. */
  function Decimal(i: int): (r: string)
    ensures |r| > 0
    ensures i >= 0 ==> IsNumeral(r) && Value(r) == i
    ensures i < 0 ==> r[0] == '-' && IsNumeral(r[1..]) && Value(r[1..]) == -i
  {
    if i < 0 then SignedSpell(-i); "-" + Digits(-i) else DigitsSpell(i); Digits(i)
  }

  /** A canonical numeral: decimal digits only, non-empty, no leading zero
      unless it is `0` itself. */
  predicate IsNumeral(r: string)
  {
    && |r| > 0
    && (forall k :: 0 <= k < |r| ==> '0' <= r[k] <= '9')
    && (|r| > 1 ==> r[0] != '0')
  }

  /** The number a string of decimal digits stands for, read most significant
      digit first. */
  function Value(r: string): nat
  {
    if r == [] then 0 else 10 * Value(r[..|r| - 1]) + DigitValue(r[|r| - 1])
  }

  function DigitValue(c: char): nat
  {
    if '0' <= c <= '9' then c as int - '0' as int else 0
  }

  /** After the minus sign, `"-" + Digits(n)` spells `n`. */
  lemma {:induction false} SignedSpell(n: nat)
    ensures var r := "-" + Digits(n); r[0] == '-' && r[1..] == Digits(n)
    ensures IsNumeral(Digits(n)) && Value(Digits(n)) == n
  {
    var r := "-" + Digits(n);
    assert r[1..] == Digits(n);
    DigitsSpell(n);
  }

  /** `Digits(n)` spells `n`. */
  lemma {:induction false} DigitsSpell(n: nat)
    ensures Value(Digits(n)) == n
    decreases n
  {
    var r := Digits(n);
    if n < 10 {
      assert r[..0] == [];
      assert DigitValue("0123456789"[n]) == n;
    } else {
      var d := Digits(n / 10);
      DigitsSpell(n / 10);
      assert r[..|r| - 1] == d;
      assert DigitValue("0123456789"[n % 10]) == n % 10;
    }
  }

  /** The decimal digits of `n`, most significant first, without leading zeros. */
  function Digits(n: nat): (r: string)
    ensures IsNumeral(r)
  {
    if n < 10 then ["0123456789"[n]] else Digits(n / 10) + ["0123456789"[n % 10]]
  }
}
