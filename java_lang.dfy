/**
 * The parts of the Java platform the event pipeline leans on: nullable
 * references, the exceptions it raises or lets through, 32-bit `int`,
 * `String.toUpperCase` and `Integer.parseInt`.
 */
module JavaLang {

  /** A Java reference that may be null: `None` is null. */
  datatype Option<+T> = None | Some(value: T) {
    function GetOr(default: T): T {
      if Some? then value else default
    }
  }

  /** A `String` reference. */
  type NString = Option<string>

  /** `String.valueOf(s)` as used by `+` on strings: null prints as "null". */
  function Str(s: NString): string {
    if s.Some? then s.value else "null"
  }

  const INT_MIN: int := -0x8000_0000
  const INT_MAX: int := 0x7fff_ffff

  /** The values of Java's `int`. */
  predicate IsInt(n: int) {
    INT_MIN <= n <= INT_MAX
  }

  /**
   * The exceptions of the core. `NumberFormatException` never escapes the
   * code that is modelled (each parse site converts it), so it is not here.
   */
  datatype Exception =
    | IllegalArgument(message: string)
    | ClassCast
    | NullPointer
    | IndexOutOfBounds(index: int, length: int)
      /** `KafkaTemplate.send` failed synchronously. */
    | SendFailure
      /** The document store raised an exception. */
    | DataAccess
    | Runtime(message: string, cause: Option<Exception>)

  /**
   * `getMessage()`. The text the JDK writes for a NullPointerException, a
   * ClassCastException or a client library failure is not modelled: null.
   */
  function Message(e: Exception): NString {
    match e
    case IllegalArgument(m) => Some(m)
    case IndexOutOfBounds(i, n) => Some("Index " + IntToString(i) + " out of bounds for length " + IntToString(n))
    case Runtime(m, _) => Some(m)
    case _ => None
  }

  /** A computation that returns a value of type T or throws. */
  datatype Result<+T> = Ok(value: T) | Thrown(exception: Exception) {
    predicate IsFailure() {
      Thrown?
    }
    function PropagateFailure<U>(): Result<U>
      requires Thrown?
    {
      Thrown(exception)
    }
    function Extract(): T
      requires Ok?
    {
      value
    }
  }

  predicate IsDigit(c: char) {
    '0' <= c <= '9'
  }

  predicate AllDigits(s: string) {
    forall i :: 0 <= i < |s| ==> IsDigit(s[i])
  }

  /** The number written by a string of decimal digits. */
  function DigitsValue(s: string): nat
    requires AllDigits(s)
  {
    if |s| == 0 then 0
    else DigitsValue(s[..|s| - 1]) * 10 + (s[|s| - 1] as int - '0' as int)
  }

  function DigitChar(d: nat): (c: char)
    requires d < 10
    ensures IsDigit(c)
  {
    ('0' as int + d) as char
  }

  /** `Integer.toString`/`Long.toString`: decimal digits, a '-' for negatives. */
  function IntToString(n: int): string {
    if n < 0 then "-" + NatToString(-n) else NatToString(n)
  }

  function NatToString(n: nat): (s: string)
    ensures |s| > 0 && AllDigits(s)
  {
    if n < 10 then [DigitChar(n)] else NatToString(n / 10) + [DigitChar(n % 10)]
  }

  lemma {:induction false} NatToStringValue(n: nat)
    ensures DigitsValue(NatToString(n)) == n
  {
    if n >= 10 {
      var s := NatToString(n / 10) + [DigitChar(n % 10)];
      assert s[..|s| - 1] == NatToString(n / 10);
      NatToStringValue(n / 10);
    }
  }

  /**
   * `Integer.parseInt(s)`: an optional '+' or '-', then one or more ASCII
   * digits, with a value in int range; anything else is a
   * NumberFormatException, here `None`.
   */
  function ParseInt(s: string): (r: Option<int>)
    ensures r.Some? ==> IsInt(r.value)
    ensures r.Some? ==> |s| > 0 && (IsDigit(s[0]) || s[0] == '+' || s[0] == '-')
    ensures r.Some? ==> forall i :: 0 < i < |s| ==> IsDigit(s[i])
    ensures r.Some? ==> exists i :: 0 <= i < |s| && IsDigit(s[i])
  {
    var negative := |s| > 0 && s[0] == '-';
    var digits := if |s| > 0 && (s[0] == '-' || s[0] == '+') then s[1..] else s;
    if |digits| == 0 || !AllDigits(digits) then None
    else
      var magnitude: int := DigitsValue(digits);
      var n := if negative then -magnitude else magnitude;
      if IsInt(n) then Some(n) else None
  }

  /**
   * `Integer.parseInt` reads back the digits `Long.toString` writes, when
   * they fit in an int.
   */
  lemma ParseIntOfToString(n: int)
    ensures ParseInt(IntToString(n)) == if IsInt(n) then Some(n) else None
  {
    NatToStringValue(if n < 0 then -n else n);
    if n < 0 {
      assert IntToString(n)[1..] == NatToString(-n);
    }
  }

  /** A leading '+' changes nothing. */
  lemma ParseIntPlusSign(t: string)
    requires |t| == 0 || (t[0] != '+' && t[0] != '-')
    ensures ParseInt("+" + t) == ParseInt(t)
  {
    assert ("+" + t)[1..] == t;
  }

  /** A leading zero changes nothing, after an optional sign. */
  lemma ParseIntLeadingZero(sign: string, t: string)
    requires sign == "" || sign == "+" || sign == "-"
    requires |t| > 0 && AllDigits(t)
    ensures ParseInt(sign + "0" + t) == ParseInt(sign + t)
  {
    DigitsValueLeadingZero(t);
    assert IsDigit(t[0]);
    if sign == "" {
      assert sign + "0" + t == "0" + t;
      assert sign + t == t;
    } else {
      assert (sign + "0" + t)[1..] == "0" + t;
      assert (sign + t)[1..] == t;
    }
  }

  /** "-0" is zero. */
  lemma ParseIntNegativeZero()
    ensures ParseInt("-0") == Some(0)
  {
    assert "-0"[1..] == "0";
    assert DigitsValue("0") == 0 by {
      assert "0"[..0] == "";
    }
  }

  lemma {:induction false} DigitsValueLeadingZero(t: string)
    requires AllDigits(t)
    ensures AllDigits("0" + t) && DigitsValue("0" + t) == DigitsValue(t)
  {
    assert AllDigits("0" + t) by {
      assert forall i :: 0 < i < |"0" + t| ==> ("0" + t)[i] == t[i - 1];
    }
    if |t| == 0 {
      assert ("0" + t)[..0] == "";
    } else {
      var init := t[..|t| - 1];
      DigitsValueLeadingZero(init);
      assert ("0" + t)[..|t|] == "0" + init;
      assert ("0" + t)[|t|] == t[|t| - 1];
    }
  }

  /** The upper-case form of an ASCII letter; other characters are unchanged. */
  function UpperChar(c: char): char {
    if 'a' <= c <= 'z' then (c as int - 'a' as int + 'A' as int) as char else c
  }

  /** `String.toUpperCase()` on the ASCII letters. */
  function ToUpperCase(s: string): (r: string)
    ensures |r| == |s|
    ensures forall i :: 0 <= i < |s| ==> r[i] == UpperChar(s[i])
  {
    if |s| == 0 then "" else [UpperChar(s[0])] + ToUpperCase(s[1..])
  }

  /** The lower-case form of an ASCII letter; used to state case insensitivity. */
  function LowerChar(c: char): char {
    if 'A' <= c <= 'Z' then (c as int - 'A' as int + 'a' as int) as char else c
  }

  function ToLowerCase(s: string): (r: string)
    ensures |r| == |s|
    ensures forall i :: 0 <= i < |s| ==> r[i] == LowerChar(s[i])
  {
    if |s| == 0 then "" else [LowerChar(s[0])] + ToLowerCase(s[1..])
  }

  lemma ToUpperCaseIdempotent(s: string)
    ensures ToUpperCase(ToUpperCase(s)) == ToUpperCase(s)
  {
  }
}
