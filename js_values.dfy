/**
 * The JavaScript value domain the notetag engine computes with, and the
 * language operations it relies on: truthiness (`!!v`), `Number(v)`,
 * `String(v)`, the `+` operator and strict equality (`===`).
 */
module JsValues {
  import opened Wrappers
  import opened Strings

  /** A JavaScript number: a finite value, an infinity (`negative` for -Infinity) or NaN. */
  datatype JsNumber = Finite(r: real) | Infinite(negative: bool) | NaN

  /**
   * A JavaScript value. `Arr` and `Dict` are arrays and plain objects built
   * during a computation; `Obj` is any other object (a data record, a proxy),
   * known only by its identity.
   */
  datatype Value =
    | Undefined
    | Null
    | Bool(b: bool)
    | Num(n: JsNumber)
    | Str(s: string)
    | Arr(items: seq<Value>)
    | Dict(entries: map<string, Value>)
    | Obj(id: nat)

  /** `!!v`. */
  predicate Truthy(v: Value)
    ensures IsNullish(v) ==> !Truthy(v)
    ensures (v.Arr? || v.Dict? || v.Obj?) ==> Truthy(v)
  {
    match v
    case Undefined => false
    case Null => false
    case Bool(b) => b
    case Num(n) => !n.NaN? && n != Finite(0.0)
    case Str(s) => s != ""
    case _ => true
  }

  /** `v == null`. */
  predicate IsNullish(v: Value)
  {
    v.Undefined? || v.Null?
  }

  /** `a || b`. */
  function Or(a: Value, b: Value): (r: Value)
    ensures Truthy(a) ==> r == a
    ensures !Truthy(a) ==> r == b
  {
    if Truthy(a) then a else b
  }

  /** `v || 0`, with a number other than NaN kept as it is: 0, the one falsy such number, is also what the default gives. */
  function OrZero(v: Value): Value
  {
    if v.Num? && !v.n.NaN? then v else Or(v, Num(Finite(0.0)))
  }

  lemma OrZeroIsOr(v: Value)
    ensures OrZero(v) == Or(v, Num(Finite(0.0)))
  {
  }

  function Int(n: int): Value
  {
    Num(Finite(n as real))
  }

  /** The sign of a number that is not NaN: -1, 0 or 1. */
  function Sign(a: JsNumber): int
    requires !a.NaN?
  {
    match a
    case Finite(r) => if r < 0.0 then -1 else if r == 0.0 then 0 else 1
    case Infinite(negative) => if negative then -1 else 1
  }

  /**
   * `a + b` on numbers; adding 0 gives back the other operand itself. An
   * infinity absorbs a finite operand and one of its own sign; opposite
   * infinities give NaN.
   */
  function AddNumbers(a: JsNumber, b: JsNumber): JsNumber
  {
    match (a, b)
    case (Finite(x), Finite(y)) => if x == 0.0 then b else if y == 0.0 then a else Finite(x + y)
    case (Infinite(m), Finite(_)) => a
    case (Finite(_), Infinite(n)) => b
    case (Infinite(m), Infinite(n)) => if m == n then a else NaN
    case _ => NaN
  }

  /**
   * `a * b` on numbers; multiplying by 1, or a 0 by a finite number, gives
   * back an operand itself. An infinity times 0 is NaN, and times anything
   * else an infinity with the sign of the product.
   */
  function MulNumbers(a: JsNumber, b: JsNumber): JsNumber
  {
    match (a, b)
    case (Finite(x), Finite(y)) => if x == 1.0 || y == 0.0 then b else if y == 1.0 || x == 0.0 then a else Finite(x * y)
    case (Infinite(_), Finite(_)) => if Sign(b) == 0 then NaN else Infinite(Sign(a) * Sign(b) < 0)
    case (Finite(_), Infinite(_)) => if Sign(a) == 0 then NaN else Infinite(Sign(a) * Sign(b) < 0)
    case (Infinite(_), Infinite(_)) => Infinite(Sign(a) * Sign(b) < 0)
    case _ => NaN
  }

  /** The sum of two finite numbers is their real sum; NaN on either side gives NaN; infinities add as in IEEE 754. */
  lemma AddNumbersValue(a: JsNumber, b: JsNumber)
    ensures a.Finite? && b.Finite? ==> AddNumbers(a, b) == Finite(a.r + b.r)
    ensures a.NaN? || b.NaN? ==> AddNumbers(a, b) == NaN
    ensures a.Infinite? && !b.NaN? && !(b.Infinite? && b.negative != a.negative) ==> AddNumbers(a, b) == a
    ensures a.Infinite? && b.Infinite? && a.negative != b.negative ==> AddNumbers(a, b) == NaN
    ensures AddNumbers(a, b) == AddNumbers(b, a)
  {
  }

  /** The product of two finite numbers is their real product; NaN on either side gives NaN; an infinity times 0 is NaN. */
  lemma MulNumbersValue(a: JsNumber, b: JsNumber)
    ensures a.Finite? && b.Finite? ==> MulNumbers(a, b) == Finite(a.r * b.r)
    ensures a.NaN? || b.NaN? ==> MulNumbers(a, b) == NaN
    ensures (a.Infinite? && b == Finite(0.0)) || (a == Finite(0.0) && b.Infinite?) ==> MulNumbers(a, b) == NaN
    ensures a.Infinite? && !b.NaN? && b != Finite(0.0) ==> MulNumbers(a, b) == Infinite(Sign(a) * Sign(b) < 0)
  {
  }

  function Pow10(n: nat): (r: real)
    ensures r >= 1.0
  {
    if n == 0 then 1.0 else 10.0 * Pow10(n - 1)
  }

  /** 10 raised to an integer power. */
  function Pow10Int(e: int): real
  {
    if e >= 0 then Pow10(e) else 1.0 / Pow10(-e)
  }

  /** Length of the run of decimal digits at the start of `s`. */
  function DigitPrefix(s: string): (n: nat)
    ensures n <= |s| && AllDigits(s[..n])
    ensures n < |s| ==> !IsDigit(s[n])
  {
    if s != [] && IsDigit(s[0]) then
      var n := 1 + DigitPrefix(s[1..]);
      assert s[..n] == [s[0]] + s[1..][..n - 1];
      n
    else 0
  }

  /** The digits of an exponent part `e`/`E`, an optional sign, digits (empty when `s` is not one). */
  function ExponentDigits(s: string): string
  {
    if s == "" || (s[0] != 'e' && s[0] != 'E') then ""
    else if |s| > 1 && (s[1] == '+' || s[1] == '-') then s[2..]
    else s[1..]
  }

  /** Whether `s` is a valid optional exponent part: empty, or `e`/`E`, an optional sign and digits. */
  predicate ValidExponent(s: string)
  {
    s == "" || (ExponentDigits(s) != [] && AllDigits(ExponentDigits(s)))
  }

  /** The value of a valid exponent part. */
  function ExponentValue(s: string): int
    requires ValidExponent(s)
  {
    if s == "" then 0
    else if s[1] == '-' then -(DigitsValue(ExponentDigits(s)) as int)
    else DigitsValue(ExponentDigits(s))
  }

  /** An unsigned decimal literal: digits, an optional fraction, an optional exponent. */
  function ParseUnsigned(t: string): JsNumber
  {
    var a := DigitPrefix(t);
    var intPart := t[..a];
    var rest := t[a..];
    var hasDot := rest != [] && rest[0] == '.';
    var afterDot := if hasDot then rest[1..] else "";
    var fracPart := afterDot[..DigitPrefix(afterDot)];
    var tail := if hasDot then afterDot[DigitPrefix(afterDot)..] else rest;
    if |intPart| + |fracPart| == 0 then NaN
    else
      if !ValidExponent(tail) then NaN
      else
        Finite((DigitsValue(intPart) as real + DigitsValue(fracPart) as real / Pow10(|fracPart|)) * Pow10Int(ExponentValue(tail)))
  }

  /** An unsigned literal after its sign: `Infinity`, or a decimal literal. */
  function ParseMagnitude(t: string): JsNumber
  {
    if t == "Infinity" then Infinite(false) else ParseUnsigned(t)
  }

  /** The radix a `0x`, `0o` or `0b` prefix (in either case) announces; 0 for any other text. */
  function PrefixRadix(t: string): nat
  {
    if |t| < 2 || t[0] != '0' then 0
    else if t[1] == 'x' || t[1] == 'X' then 16
    else if t[1] == 'o' || t[1] == 'O' then 8
    else if t[1] == 'b' || t[1] == 'B' then 2
    else 0
  }

  /** The value of a digit in radices up to 36: `0`-`9`, then letters of either case; 36 for anything else. */
  function DigitOf(c: char): (d: nat)
    ensures d <= 36
  {
    if '0' <= c <= '9' then c as int - '0' as int
    else if 'a' <= c <= 'z' then c as int - 'a' as int + 10
    else if 'A' <= c <= 'Z' then c as int - 'A' as int + 10
    else 36
  }

  /** Every character of `s` is a digit of that radix. */
  predicate RadixDigits(s: string, radix: nat)
  {
    forall i :: 0 <= i < |s| ==> DigitOf(s[i]) < radix
  }

  /** The value of digits in a radix, most significant first. */
  function RadixValue(s: string, radix: nat): nat
  {
    if s == [] then 0 else RadixValue(s[..|s| - 1], radix) * radix + DigitOf(s[|s| - 1])
  }

  /**
   * `Number(s)` for a string: surrounding whitespace ignored, empty means 0;
   * a `0x`, `0o` or `0b` literal (unsigned, at least one digit) in its radix;
   * otherwise an optional sign and then `Infinity` or a decimal literal.
   */
  function StringToNumber(s: string): JsNumber
  {
    var t := Trim(s);
    if t == "" then Finite(0.0)
    else if PrefixRadix(t) != 0 then
      var digits := t[2..];
      if digits != [] && RadixDigits(digits, PrefixRadix(t)) then Finite(RadixValue(digits, PrefixRadix(t)) as real) else NaN
    else if t[0] == '-' then
      match ParseMagnitude(t[1..])
      case Finite(r) => Finite(-r)
      case Infinite(_) => Infinite(true)
      case NaN => NaN
    else if t[0] == '+' then ParseMagnitude(t[1..])
    else ParseMagnitude(t)
  }

  /** `Number` reads `Infinity`, with an optional sign, as an infinity of that sign. */
  lemma InfinityText(sign: string)
    requires sign == "" || sign == "+" || sign == "-"
    ensures StringToNumber(sign + "Infinity") == Infinite(sign == "-")
  {
    var t := sign + "Infinity";
    assert t[|t| - 1] == 'y';
    assert t[0] == 'I' || t[0] == '+' || t[0] == '-';
    TrimUnchanged(t);
    assert PrefixRadix(t) == 0;
    if sign != "" {
      assert t[1..] == "Infinity";
    }
  }

  /** Any other capitalisation of `Infinity` is not a number. */
  lemma LowerInfinityIsNaN()
    ensures StringToNumber("infinity") == NaN
  {
    var t := "infinity";
    assert !IsWhitespace(t[0]) && !IsWhitespace(t[|t| - 1]);
    TrimUnchanged(t);
    assert PrefixRadix(t) == 0;
    assert DigitPrefix(t) == 0;
    assert DigitPrefix("") == 0;
    assert ParseUnsigned(t) == NaN;
  }

  /** A radix literal reads as its value in that radix. */
  lemma RadixLiteral(p: char, digits: string)
    requires p in "xXoObB" && digits != []
    requires RadixDigits(digits, PrefixRadix(['0', p]))
    ensures StringToNumber(['0', p] + digits) == Finite(RadixValue(digits, PrefixRadix(['0', p])) as real)
  {
    var t := ['0', p] + digits;
    assert t[|t| - 1] == digits[|digits| - 1];
    assert DigitOf(digits[|digits| - 1]) < 36;
    TrimUnchanged(t);
    assert t[2..] == digits;
  }

  /** A sign in front of a radix literal makes it NaN. */
  lemma SignedRadixIsNaN(sign: char, p: char, digits: string)
    requires sign == '-' || sign == '+'
    requires p in "xXoObB" && digits != []
    requires RadixDigits(digits, PrefixRadix(['0', p]))
    ensures StringToNumber([sign, '0', p] + digits) == NaN
  {
    var u := [sign, '0', p] + digits;
    SignedShape(sign, p, digits);
    PrefixedNotDecimal(u[1..]);
  }

  lemma SignedShape(sign: char, p: char, digits: string)
    requires sign == '-' || sign == '+'
    requires digits != [] && DigitOf(digits[|digits| - 1]) < 36
    ensures var u := [sign, '0', p] + digits;
      Trim(u) == u && u[0] == sign && |u[1..]| >= 2 && u[1..][0] == '0' && u[1..][1] == p
  {
    var u := [sign, '0', p] + digits;
    assert u[|u| - 1] == digits[|digits| - 1];
    TrimUnchanged(u);
  }

  /** After a sign, a text starting `0x`, `0o` or `0b` is no decimal literal. */
  lemma PrefixedNotDecimal(t: string)
    requires |t| >= 2 && t[0] == '0' && t[1] in "xXoObB"
    ensures ParseMagnitude(t) == NaN
  {
    assert t != "Infinity";
    assert DigitPrefix(t) == 1 by {
      assert t[1..][0] == t[1];
    }
    var rest := t[1..];
    assert rest[0] != '.' && rest[0] != 'e' && rest[0] != 'E';
    assert ExponentDigits(rest) == "";
  }

  /** `Number("0x10")` is 16. */
  lemma HexExample()
    ensures StringToNumber("0x10") == Finite(16.0)
  {
    HexTen();
    assert "0x10" == ['0', 'x'] + "10";
    RadixLiteral('x', "10");
  }

  lemma HexTen()
    ensures RadixDigits("10", 16) && RadixValue("10", 16) == 16
  {
    assert DigitOf('1') == 1 && DigitOf('0') == 0;
    assert "10"[..1] == "1" && "1"[..0] == "";
  }

  /** A text whose first character cannot begin a numeric literal, and which is not `Infinity`. */
  predicate StartsAsWord(t: string)
  {
    t != [] && !IsWhitespace(t[0]) && !IsDigit(t[0]) && t[0] != '+' && t[0] != '-' && t[0] != '.'
    && Trim(t) != "Infinity"
  }

  /** `Number(t)` is NaN for such a text. */
  lemma WordIsNaN(t: string)
    requires StartsAsWord(t)
    ensures StringToNumber(t) == NaN
  {
    TrimKeepsFirst(t);
    var u := Trim(t);
    assert DigitPrefix(u) == 0;
    assert DigitPrefix("") == 0;
    assert ParseUnsigned(u) == NaN;
  }

  /** Decimal text of an integer. */
  function IntToText(i: int): string
  {
    if i < 0 then "-" + NatToDecimal(-i) else NatToDecimal(i)
  }

  /** Up to `fuel` decimal digits of a fraction in [0, 1), stopping once it is exhausted. */
  function FractionDigits(f: real, fuel: nat): string
    requires 0.0 <= f < 1.0
    decreases fuel
  {
    if f == 0.0 || fuel == 0 then ""
    else
      var d := (f * 10.0).Floor;
      [('0' as int + d) as char] + FractionDigits(f * 10.0 - d as real, fuel - 1)
  }

  /** `String(n)` for a number. */
  function NumberToText(n: JsNumber): string
  {
    match n
    case NaN => "NaN"
    case Infinite(negative) => if negative then "-Infinity" else "Infinity"
    case Finite(r) =>
      if r == r.Floor as real then IntToText(r.Floor)
      else
        var m := if r < 0.0 then -r else r;
        (if r < 0.0 then "-" else "") + NatToDecimal(m.Floor) + "." + FractionDigits(m - m.Floor as real, 20)
  }

  /** `String(v)`. */
  function ToText(v: Value): (r: string)
    ensures r == "" ==> v == Str("") || v.Arr?
    ensures v == Arr([]) ==> r == ""
  {
    match v
    case Undefined => "undefined"
    case Null => "null"
    case Bool(b) => if b then "true" else "false"
    case Num(n) => NumberToText(n)
    case Str(s) => s
    case Arr(items) => Join(ElementTexts(items), ',')
    case Dict(_) => "[object Object]"
    case Obj(_) => "[object Object]"
  }

  /** The pieces `Array.prototype.join` puts between separators: nullish elements give "". */
  function ElementTexts(items: seq<Value>): (r: seq<string>)
    ensures |r| == |items|
  {
    if items == [] then []
    else [if IsNullish(items[0]) then "" else ToText(items[0])] + ElementTexts(items[1..])
  }

  /** Objects become their string form; primitives are kept. */
  function ToPrimitive(v: Value): (r: Value)
    ensures !(r.Arr? || r.Dict? || r.Obj?)
  {
    if v.Arr? || v.Dict? || v.Obj? then Str(ToText(v)) else v
  }

  /** `Number(v)`. */
  function ToNumber(v: Value): (r: JsNumber)
    ensures v.Undefined? ==> r == NaN
    ensures v == Null || v == Bool(false) || v == Str("") || v == Arr([]) ==> r == Finite(0.0)
  {
    match v
    case Undefined => NaN
    case Null => Finite(0.0)
    case Bool(b) => Finite(if b then 1.0 else 0.0)
    case Num(n) => n
    case Str(s) => StringToNumber(s)
    case _ => StringToNumber(ToText(v))
  }

  /** `a + b`: concatenation as soon as one side is (or turns into) a string, numeric addition otherwise. */
  function JsAdd(a: Value, b: Value): (r: Value)
    ensures r.Str? || r.Num?
    ensures (a.Str? || b.Str?) ==> r == Str(ToText(a) + ToText(b))
    ensures a.Num? && b.Num? ==> r == Num(AddNumbers(a.n, b.n))
  {
    if a.Num? && b.Num? then Num(AddNumbers(a.n, b.n))
    else
      var pa := ToPrimitive(a);
      var pb := ToPrimitive(b);
      if pa.Str? || pb.Str? then Str(ToText(pa) + ToText(pb))
      else Num(AddNumbers(ToNumber(pa), ToNumber(pb)))
  }

  /**
   * `a === b`. An `Arr` or `Dict` stands for an object freshly built by the
   * computation that produced it, so it is never identical to another value.
   */
  predicate StrictEquals(a: Value, b: Value)
  {
    match (a, b)
    case (Undefined, Undefined) => true
    case (Null, Null) => true
    case (Bool(x), Bool(y)) => x == y
    case (Num(x), Num(y)) => !x.NaN? && x == y
    case (Str(x), Str(y)) => x == y
    case (Obj(x), Obj(y)) => x == y
    case _ => false
  }

  /** Strict equality is symmetric, and holds of identical primitives other than NaN. */
  lemma StrictEqualsProperties(a: Value, b: Value)
    ensures StrictEquals(a, b) <==> StrictEquals(b, a)
    ensures StrictEquals(a, b) ==> a == b
    ensures a == b && !(a.Arr? || a.Dict? || a == Num(NaN)) ==> StrictEquals(a, b)
  {
  }

  lemma {:induction false} DigitPrefixOfDigits(s: string)
    requires AllDigits(s)
    ensures DigitPrefix(s) == |s|
  {
    if s != [] {
      DigitPrefixOfDigits(s[1..]);
    }
  }

  lemma TrimUnchanged(t: string)
    requires t != [] && !IsWhitespace(t[0]) && !IsWhitespace(t[|t| - 1])
    ensures Trim(t) == t
  {
    assert LeadingSpace(t) == 0;
    assert t[0..] == t;
    assert WithoutTrailingSpace(t) == |t|;
  }

  lemma ParseDigits(t: string)
    requires t != [] && AllDigits(t)
    ensures ParseUnsigned(t) == Finite(DigitsValue(t) as real)
  {
    DigitPrefixOfDigits(t);
    assert t[..|t|] == t;
    assert t[|t|..] == "";
    assert DigitPrefix("") == 0;
  }

  /** `Number` reads back the decimal text of a natural number. */
  lemma NumberOfNatText(n: nat)
    ensures StringToNumber(NatToDecimal(n)) == Finite(n as real)
  {
    var t := NatToDecimal(n);
    TrimUnchanged(t);
    ParseDigits(t);
    DigitsOfNat(n);
  }

  lemma NumberOfNegativeText(n: nat)
    ensures StringToNumber("-" + NatToDecimal(n)) == Finite(-(n as real))
  {
    var u := NatToDecimal(n);
    var t := "-" + u;
    TrimUnchanged(t);
    assert t[1..] == u;
    ParseDigits(u);
    DigitsOfNat(n);
  }

  lemma IntTextIs(i: int)
    ensures ToText(Int(i)) == IntToText(i)
  {
    assert (i as real).Floor == i;
  }

  lemma NumberOfIntToText(i: int)
    ensures StringToNumber(IntToText(i)) == Finite(i as real)
  {
    if i < 0 {
      var n: nat := -i;
      assert IntToText(i) == "-" + NatToDecimal(n);
      NumberOfNegativeText(n);
      assert -(n as real) == i as real;
    } else {
      assert IntToText(i) == NatToDecimal(i);
      NumberOfNatText(i);
    }
  }

  /** `Number` reads back the text `String` writes for an integer. */
  lemma NumberOfIntText(i: int)
    ensures ToNumber(Str(ToText(Int(i)))) == Finite(i as real)
  {
    IntTextIs(i);
    NumberOfIntToText(i);
  }
}
