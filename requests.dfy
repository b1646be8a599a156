/**
 * The untyped request body, `Map<String, Object>` as JSON binding fills it,
 * and the casts and conversions the controllers apply to its entries.
 */
module Requests {
  import opened JavaLang
  import opened Decimals

  /**
   * The objects a JSON body can hold. `VInt` is an integral number: an
   * `Integer` when it is in int range, a `Long` or `BigInteger` beyond.
   * `VDouble` is a number with a fraction, carried as its exact decimal text.
   */
  datatype Value =
    | VNull
    | VBool(b: bool)
    | VString(s: string)
    | VInt(n: int)
    | VDouble(d: Decimal)
    | VList(elements: seq<Value>)
    | VObject(fields: map<string, Value>)

  type Json = map<string, Value>

  /** `map.get(key)`: null for a missing key. */
  function Get(m: Json, key: string): (v: Value)
    ensures key !in m ==> v == VNull
  {
    if key in m then m[key] else VNull
  }

  /** `map.getOrDefault(key, d)`: the default only for a missing key, not a null value. */
  function GetOrDefault(m: Json, key: string, d: Value): (v: Value)
    ensures key in m ==> v == m[key]
    ensures key !in m ==> v == d
  {
    if key in m then m[key] else d
  }

  /** Stores a `String` reference: null becomes a null value. */
  function OfString(s: NString): (v: Value)
    ensures AsString(v) == Ok(s)
  {
    if s.Some? then VString(s.value) else VNull
  }

  /** `(String) v`. */
  function AsString(v: Value): (r: Result<NString>)
    ensures r.Ok? <==> v.VNull? || v.VString?
    ensures r.Thrown? ==> r.exception == ClassCast
  {
    match v
    case VNull => Ok(None)
    case VString(s) => Ok(Some(s))
    case _ => Thrown(ClassCast)
  }

  /** `(int) v`: unboxes an `Integer`; null is a NullPointerException. */
  function AsInt(v: Value): (r: Result<int>)
    ensures r.Ok? <==> v.VInt? && IsInt(v.n)
    ensures r.Ok? ==> r.value == v.n
    ensures v.VNull? ==> r == Thrown(NullPointer)
  {
    match v
    case VNull => Thrown(NullPointer)
    case VInt(n) => if IsInt(n) then Ok(n) else Thrown(ClassCast)
    case _ => Thrown(ClassCast)
  }

  /** `((Number) v).doubleValue()`; the conversion to `double` is taken as exact. */
  function AsNumber(v: Value): (r: Result<Decimal>)
    ensures r.Ok? <==> v.VInt? || v.VDouble?
    ensures v.VInt? ==> r == Ok(OfInt(v.n))
    ensures v.VDouble? ==> r == Ok(v.d)
    ensures v.VNull? ==> r == Thrown(NullPointer)
  {
    match v
    case VNull => Thrown(NullPointer)
    case VInt(n) => Ok(OfInt(n))
    case VDouble(d) => Ok(d)
    case _ => Thrown(ClassCast)
  }

  /** `(Map<String, Object>) v`; null passes the cast. */
  function AsMap(v: Value): (r: Result<Option<Json>>)
    ensures r.Ok? <==> v.VNull? || v.VObject?
    ensures v.VObject? ==> r == Ok(Some(v.fields))
  {
    match v
    case VNull => Ok(None)
    case VObject(m) => Ok(Some(m))
    case _ => Thrown(ClassCast)
  }

  /** `(List<...>) v`; null passes the cast. */
  function AsList(v: Value): (r: Result<Option<seq<Value>>>)
    ensures r.Ok? <==> v.VNull? || v.VList?
    ensures v.VList? ==> r == Ok(Some(v.elements))
  {
    match v
    case VNull => Ok(None)
    case VList(xs) => Ok(Some(xs))
    case _ => Thrown(ClassCast)
  }

  /**
   * `new BigDecimal(v.toString())` on a non-null value; `None` is the
   * NumberFormatException. A string is parsed; an integral number prints
   * its digits; a fractional number prints its decimal text; a boolean,
   * list or map prints text that is not a number.
   */
  function DecimalText(v: Value): (r: Option<Decimal>)
    requires !v.VNull?
    ensures v.VInt? ==> r == Some(OfInt(v.n))
    ensures v.VDouble? ==> r == Some(v.d)
    ensures v.VString? ==> r == ParseDecimal(v.s)
    ensures v.VBool? || v.VList? || v.VObject? ==> r.None?
  {
    match v
    case VString(s) => ParseDecimal(s)
    case VInt(n) => Some(OfInt(n))
    case VDouble(d) => Some(d)
    case _ => None
  }

  /**
   * `Integer.parseInt(v.toString())` on a non-null value; `None` is the
   * NumberFormatException. The text of a fractional number always holds a
   * '.' or an exponent, so it never parses.
   */
  function IntegerText(v: Value): (r: Option<int>)
    requires !v.VNull?
    ensures r.Some? ==> IsInt(r.value)
    ensures v.VInt? ==> (r.Some? <==> IsInt(v.n)) && (r.Some? ==> r.value == v.n)
    ensures v.VString? ==> r == ParseInt(v.s)
    ensures !v.VInt? && !v.VString? ==> r.None?
  {
    match v
    case VString(s) => ParseInt(s)
    case VInt(n) =>
      ParseIntOfToString(n);
      ParseInt(IntToString(n))
    case _ => None
  }
}
