/**
 * Messages exchanged with the relay: an open JavaScript object with a `tipo`
 * discriminant and arbitrary payload fields, modelled as a map from field name to
 * a JSON-like scalar value. The accessors below give the source's `x || default`
 * fallbacks and its strict `===` comparisons.
 */
module Messages {

  datatype Option<+T> = None | Some(value: T)

  /** The scalar values a payload field can hold. */
  datatype Value = Str(s: string) | Num(n: int) | Bool(b: bool) | Null

  /** An inbound or outbound payload: field name to value. */
  type Message = map<string, Value>

  /** JavaScript truthiness of a present value. */
  predicate Truthy(v: Value)
  {
    match v
    case Str(s) => s != ""
    case Num(n) => n != 0
    case Bool(b) => b
    case Null => false
  }

  /** Strict equality of a field with a string: the field is present and is exactly the string `s`. */
  predicate FieldIs(m: Message, k: string, s: string)
  {
    k in m && m[k] == Str(s)
  }

  /** The or-default fallback on a text field: the field's text when it is a non-empty string, else `d`. */
  function StrOr(m: Message, k: string, d: string): (r: string)
    ensures r == d || (FieldIs(m, k, r) && r != "")
    ensures (k in m && m[k].Str? && m[k].s != "") ==> FieldIs(m, k, r)
    ensures (k !in m || !Truthy(m[k])) ==> r == d
  {
    if k in m && m[k].Str? && m[k].s != "" then m[k].s else d
  }

  /** The or-default fallback on a number field: a present non-zero number, else `d`. */
  function NumOr(m: Message, k: string, d: int): (r: int)
    ensures (k in m && m[k].Num? && m[k].n != 0) ==> r == m[k].n
    ensures (k !in m || !Truthy(m[k])) ==> r == d
    ensures r == d || (k in m && m[k] == Num(r))
  {
    if k in m && m[k].Num? && m[k].n != 0 then m[k].n else d
  }

  /** The amount a message carries, 0 when it has none (a zero amount is falsy, with the same result). */
  function MontoOr(m: Message): (r: int)
    ensures r != 0 ==> "monto" in m && m["monto"] == Num(r)
    ensures ("monto" in m && m["monto"].Num?) ==> r == m["monto"].n
  {
    NumOr(m, "monto", 0)
  }

  /** The or-default fallback on a form text: `s` unless it is empty. */
  function TextOr(s: string, d: string): (r: string)
    ensures s != "" ==> r == s
    ensures s == "" ==> r == d
  {
    if s != "" then s else d
  }

  /** The value of a decimal digit; other characters count as 0. */
  function DigitValue(c: char): (v: nat)
    ensures v < 10
  {
    if '0' <= c <= '9' then c as int - '0' as int else 0
  }

  /** The number a string of decimal digits spells, most significant digit first. */
  function DecimalValue(s: string): nat
    decreases |s|
  {
    if s == [] then 0 else DecimalValue(s[..|s| - 1]) * 10 + DigitValue(s[|s| - 1])
  }

  /** Decimal text of a natural number, as `Number.prototype.toString()` prints it. */
  function NatToDecimal(n: nat): (s: string)
    ensures |s| >= 1
    ensures forall i :: 0 <= i < |s| ==> '0' <= s[i] <= '9'
    ensures DecimalValue(s) == n
    ensures |s| > 1 ==> s[0] != '0'
    ensures n < 10 <==> |s| == 1
  {
    var d := [(48 + n % 10) as char];
    if n < 10 then d
    else
      var hi := NatToDecimal(n / 10);
      assert (hi + d)[..|hi + d| - 1] == hi;
      hi + d
  }

  /** Different numbers print differently, so a printed number identifies its value. */
  lemma NatToDecimalInjective(a: nat, b: nat)
    ensures NatToDecimal(a) == NatToDecimal(b) <==> a == b
  {
    if NatToDecimal(a) == NatToDecimal(b) {
      assert DecimalValue(NatToDecimal(a)) == DecimalValue(NatToDecimal(b));
    }
  }
}
