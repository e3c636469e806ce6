/**
 * The loosely typed invoice record the rule engine receives: a dictionary
 * from field name to a Python value, with Python's truthiness, `dict.get`
 * and the engine's conversion of a value to a `Decimal` (`_to_decimal`).
 */
module Records {
  import opened Common
  import opened Calendar
  import opened Decimals
  import opened Text

  /**
   * A Python value as it can occur in an invoice record. `Num` is an `int`,
   * `float` or `Decimal`, by the exact value it denotes; `Bool` is kept apart
   * because `Decimal(str(True))` raises; `PyDate` is a `datetime.date`;
   * `Other` is any other object (neither numeric, textual, a date nor iterable).
   */
  datatype Value =
    | Null
    | Bool(b: bool)
    | Num(r: real)
    | Str(s: string)
    | PyDate(date: ValidDate)
    | List(items: seq<Value>)
    | Dict(fields: map<string, Value>)
    | Other

  /** An invoice dictionary; a key that is not in the map is absent. */
  type Record = map<string, Value>

  /** `record.get(key)`: an absent key reads as `None`. */
  function Get(rec: Record, key: string): (v: Value)
    ensures key !in rec ==> v == Null
    ensures key in rec ==> v == rec[key]
  {
    if key in rec then rec[key] else Null
  }

  /** Python's `bool(v)`. */
  predicate Truthy(v: Value) {
    match v
    case Null => false
    case Bool(b) => b
    case Num(r) => r != 0.0
    case Str(s) => s != []
    case PyDate(_) => true
    case List(items) => items != []
    case Dict(fields) => fields != map[]
    case Other => true
  }

  /**
   * The values `_to_decimal` converts to a finite decimal: `Decimal(str(v))`
   * raises `decimal.InvalidOperation`, which the conversion does not catch,
   * for a string that is not a numeral, and for a `bool`, a date, a
   * container or any other object. A string naming an infinity or a NaN
   * converts, but to a value the model leaves out.
   */
  predicate Convertible(v: Value) {
    v.Null? || v.Num? || (v.Str? && ReadDecimal(v.s).Finite?)
  }

  /** `_to_decimal`: `None` stays `None`, numbers and numerals become decimals. */
  function ToDecimal(v: Value): (d: Option<real>)
    requires Convertible(v)
    ensures d.None? <==> v.Null?
    ensures v.Num? ==> d == Some(v.r)
    ensures v.Str? ==> d == Some(ReadDecimal(v.s).value)
  {
    match v
    case Num(r) => Some(r)
    case Str(s) => Some(ReadDecimal(s).value)
    case _ => None
  }

  /** `_to_decimal(" 100.00")` is 100.00: white space around a numeral is stripped. */
  lemma PaddedNumeralConverts(a: string, n: string, b: string)
    requires IsBlank(a) && IsBlank(b) && ParseDecimal(n).Some?
    ensures Convertible(Str(a + n + b)) && ToDecimal(Str(a + n + b)) == ParseDecimal(n)
  {
    ReadPaddedNumeral(a, n, b);
  }

  /** `_to_decimal("1E+3")` is 1000: an exponent scales the digits before it. */
  lemma ExponentNumeralConverts(m: string, sign: char, e: string)
    requires m != [] && IsDigits(m) && e != [] && IsDigits(e)
    requires sign == '+' || sign == '-'
    ensures Convertible(Str(m + "E" + [sign] + e))
    ensures ToDecimal(Str(m + "E" + [sign] + e)) ==
      Some(Scale(DigitsValue(m) as real, if sign == '+' then DigitsValue(e) else -(DigitsValue(e) as int)))
  {
    ReadExponent(m, sign, e);
  }

  /** `_to_decimal("1_000")` is `_to_decimal("1000")`: underscores between digit groups are dropped. */
  lemma GroupedNumeralConverts(a: string, b: string)
    requires a != [] && b != [] && !IsSpace(a[0]) && !IsSpace(b[|b| - 1])
    ensures Convertible(Str(a + "_" + b)) <==> Convertible(Str(a + b))
    ensures Convertible(Str(a + b)) ==> ToDecimal(Str(a + "_" + b)) == ToDecimal(Str(a + b))
  {
    ReadGrouped(a, b);
  }

  /** `_to_decimal("1 000")` raises: a space inside a numeral is not stripped. */
  lemma InnerSpaceRaises(a: string, b: string)
    requires a != [] && IsDigits(a) && b != [] && IsDigits(b)
    ensures !Convertible(Str(a + " " + b))
  {
    ReadInnerSpace(a, b);
  }

  /**
   * `Decimal(str(quantity))` for a line item's raw quantity, `None` where it
   * raises or is not finite.
   */
  function QuantityValue(v: Value): (d: Option<real>)
    ensures v.Num? ==> d == Some(v.r)
    ensures v.Str? ==> (d.Some? <==> ReadDecimal(v.s).Finite?)
    ensures v.Str? && d.Some? ==> d.value == ReadDecimal(v.s).value
    ensures !v.Num? && !v.Str? ==> d.None?
  {
    match v
    case Num(r) => Some(r)
    case Str(s) => if ReadDecimal(s).Finite? then Some(ReadDecimal(s).value) else None
    case _ => None
  }
}
