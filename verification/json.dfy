/**
 * JSON values as the org.json and LoganSquare libraries hand them to the
 * client once parsed, and the getters the client reads them with, as the
 * Android platform's org.json implements them. Numbers are integers (a
 * number written with a fraction or an exponent is not a value here); an
 * object is a map from member names to values.
 */
module Json {
  import opened Common
  import opened Text

  datatype Json =
    | JNull
    | JBool(b: bool)
    | JNum(n: int)
    | JStr(s: string)
    | JArr(items: seq<Json>)
    | JObj(fields: map<string, Json>)

  /** A parsed JSON object (`JSONObject`). */
  type Object = map<string, Json>

  // ------------------------------------------------------ 32-bit integers

  const Int32Min := -0x8000_0000
  const Int32Max := 0x7FFF_FFFF

  /** The range of a Java `int`. */
  predicate InInt(n: int) {
    Int32Min <= n <= Int32Max
  }

  /** The range of a Java `long`, the widest integer the parser produces. */
  predicate InLong(n: int) {
    -0x8000_0000_0000_0000 <= n < 0x8000_0000_0000_0000
  }

  /** `Long.intValue`: the low 32 bits, read as a two's-complement `int`. */
  function Wrap32(n: int): (r: int)
    ensures InInt(r)
    ensures InInt(n) ==> r == n
    ensures (r - n) % 0x1_0000_0000 == 0
  {
    (n - Int32Min) % 0x1_0000_0000 + Int32Min
  }

  /** The `(int)` cast of a `double` holding an integer: values out of range saturate. */
  function Clamp32(n: int): (r: int)
    ensures InInt(r)
    ensures InInt(n) ==> r == n
  {
    if n < Int32Min then Int32Min else if n > Int32Max then Int32Max else n
  }

  // ------------------------------------------------------ integer texts

  /** `Long.toString(n)`: an optional '-' followed by the decimal digits of the magnitude. */
  function SignedDecimal(n: int): (r: string)
    ensures r != [] && (n < 0 <==> r[0] == '-')
  {
    if n < 0 then "-" + DecimalString(-n) else DecimalString(n)
  }

  /** The digits of an integer text, after its sign if it has one. */
  function Magnitude(s: string): (r: string)
    ensures r == s || (s != [] && r == s[1..] && (s[0] == '-' || s[0] == '+'))
  {
    if s != [] && (s[0] == '-' || s[0] == '+') then s[1..] else s
  }

  /**
   * The texts `Double.parseDouble` reads as an integer that this model
   * covers: an optional sign followed by decimal digits.
   */
  predicate IsIntegerText(s: string) {
    IsDecimal(Magnitude(s))
  }

  function IntegerValue(s: string): int
    requires IsIntegerText(s)
  {
    var m: int := DecimalValue(Magnitude(s));
    if s[0] == '-' then -m else m
  }

  /** Reading back the text of an integer gives the integer. */
  lemma SignedDecimalRoundTrip(n: int)
    ensures IsIntegerText(SignedDecimal(n)) && IntegerValue(SignedDecimal(n)) == n
  {
    if n < 0 {
      assert Magnitude(SignedDecimal(n)) == DecimalString(-n);
      DecimalRoundTrip(-n);
    } else {
      DecimalRoundTrip(n);
    }
  }

  // ------------------------------------------------------- org.json getters

  /**
   * `getInt` (`JSON.toInteger`): a number that fits a `long` is cut to its
   * low 32 bits, a larger one (parsed as a `double`) saturates; a string is
   * read through `(int) Double.parseDouble`. A null, a boolean, an object,
   * an array or a text that is not a number makes the getter throw.
   */
  function AsInt(v: Json): (r: Option<int>)
    ensures r.Some? ==> InInt(r.value)
    ensures v.JNum? && InInt(v.n) ==> r == Some(v.n)
    ensures v.JStr? && IsIntegerText(v.s) && InInt(IntegerValue(v.s)) ==> r == Some(IntegerValue(v.s))
    ensures v.JNull? || v.JBool? || v.JArr? || v.JObj? ==> r.None?
  {
    match v
    case JNum(n) => Some(if InLong(n) then Wrap32(n) else Clamp32(n))
    case JStr(s) => if IsIntegerText(s) then Some(Clamp32(IntegerValue(s))) else None
    case _ => None
  }

  /**
   * `getString` (`JSON.toString`): a string as it is and any other value
   * as its text, "null" for JSON null, so a member that is present is
   * always read. `printed` is the JSON text of an object or an array (and of
   * a number too large for a `long`, printed as a `double`): the order of
   * an object's members, which that text keeps, is not part of a map.
   */
  function AsString(v: Json, printed: Json -> string): (r: string)
    ensures v.JStr? ==> r == v.s
    ensures v.JNull? ==> r == "null"
    ensures v.JBool? ==> r == (if v.b then "true" else "false")
    ensures v.JNum? && InLong(v.n) ==> r == SignedDecimal(v.n)
  {
    match v
    case JStr(s) => s
    case JNull => "null"
    case JBool(b) => if b then "true" else "false"
    case JNum(n) => if InLong(n) then SignedDecimal(n) else printed(v)
    case _ => printed(v)
  }

  /**
   * An `int` and its text read alike through `getInt`, and `getString`
   * of the number is that text.
   */
  lemma NumberTextReadsBack(n: int, printed: Json -> string)
    requires InInt(n)
    ensures AsInt(JStr(AsString(JNum(n), printed))) == AsInt(JNum(n)) == Some(n)
  {
    SignedDecimalRoundTrip(n);
  }

  /**
   * A `String` field read by LoganSquare: the member's string value, or
   * null when the member is absent or is not a string.
   */
  function StringField(o: Object, name: string): Option<string> {
    if name in o && o[name].JStr? then Some(o[name].s) else None
  }

  /**
   * A `Map<String, String>` field read by LoganSquare: the string-valued
   * members of a nested object, or null when the member is absent or is
   * not an object.
   */
  function StringMapField(o: Object, name: string): Option<map<string, string>> {
    if name in o && o[name].JObj? then
      var f := o[name].fields;
      Some(map k | k in f && f[k].JStr? :: f[k].s)
    else None
  }

  /** The objects of an array whose elements are all objects, in array order. */
  function ObjectsOf(items: seq<Json>): (r: seq<Object>)
    requires forall i :: 0 <= i < |items| ==> items[i].JObj?
    ensures |r| == |items| && forall i :: 0 <= i < |r| ==> items[i] == JObj(r[i])
  {
    seq(|items|, i requires 0 <= i < |items| => items[i].fields)
  }
}
