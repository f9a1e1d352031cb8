/** The small stock Option type the rest of the model uses. */
module Wrappers {
  datatype Option<+T> = None | Some(value: T)
}

/**
 * The JSON-serialisable JavaScript values that travel through the provider:
 * request parameters, response bodies and cached data. Numbers are integers
 * and strings are sequences of Unicode scalar values; values `JSON.stringify`
 * rejects (BigInt, cycles) are not representable (see README).
 */
module Json {
  import opened Wrappers

  datatype Value =
    | Undefined
    | Null
    | Bool(b: bool)
    | Num(n: int)
    | Str(s: string)
    | Arr(items: seq<Value>)
    | Obj(members: seq<Member>)

  /**
   * One own property of an object. An object lists its members in the order
   * JavaScript enumerates them, which is what `EnumerationOrder` states.
   */
  datatype Member = Member(name: string, value: Value)

  /** JavaScript truthiness, as used by `if (data)` and `!res.result`. */
  predicate Truthy(v: Value) {
    match v
    case Undefined => false
    case Null => false
    case Bool(b) => b
    case Num(n) => n != 0
    case Str(s) => s != ""
    case Arr(_) => true
    case Obj(_) => true
  }

  /** Truthiness of an optional string argument (`mode` in setKey). */
  predicate TruthyText(s: Option<string>) {
    s.Some? && s.value != ""
  }

  /** Truthiness of an optional number argument (`duration` in setKey). */
  predicate TruthyNumber(n: Option<int>) {
    n.Some? && n.value != 0
  }

  function Digit(d: nat): (c: char)
    requires d < 10
    ensures '0' <= c <= '9'
  {
    "0123456789"[d]
  }

  predicate IsDigits(s: string) {
    forall i :: 0 <= i < |s| ==> '0' <= s[i] <= '9'
  }

  /** Decimal text of a natural number, most significant digit first. */
  function NatText(n: nat): (r: string)
    ensures r != [] && IsDigits(r)
    ensures n >= 10 ==> r[0] != '0'
  {
    if n < 10 then [Digit(n)] else NatText(n / 10) + [Digit(n % 10)]
  }

  /** `String(n)` for an integer `n`. */
  function IntText(n: int): (r: string)
    ensures r != []
    ensures n >= 0 ==> IsDigits(r)
    ensures n < 0 ==> r[0] == '-' && IsDigits(r[1..])
  {
    if n < 0 then "-" + NatText(-n) else NatText(n)
  }

  /** The number a string of decimal digits denotes. */
  function DigitsValue(s: string): int {
    if s == [] then 0 else DigitsValue(s[..|s| - 1]) * 10 + (s[|s| - 1] as int - '0' as int)
  }

  /** A property name that is an array index: canonical decimal text below 2^32 - 1. */
  predicate IndexName(name: string) {
    name != [] && IsDigits(name) && (name == "0" || name[0] != '0') && DigitsValue(name) < 0xFFFF_FFFF
  }

  /**
   * The order in which a JavaScript object enumerates its own properties:
   * names are distinct, and array-index names come first, in ascending
   * numeric order; the remaining names follow in insertion order.
   */
  predicate EnumerationOrder(ms: seq<Member>) {
    && (forall i, j :: 0 <= i < j < |ms| ==> ms[i].name != ms[j].name)
    && (forall i, j :: 0 <= i < j < |ms| && IndexName(ms[j].name) ==>
          IndexName(ms[i].name) && DigitsValue(ms[i].name) < DigitsValue(ms[j].name))
  }

  /** A value some JavaScript value can be: every object in it lists its members in enumeration order. */
  predicate WellFormed(v: Value)
    decreases v
  {
    match v
    case Arr(items) => forall i :: 0 <= i < |items| ==> WellFormed(items[i])
    case Obj(ms) => EnumerationOrder(ms) && forall i :: 0 <= i < |ms| ==> WellFormed(ms[i].value)
    case _ => true
  }

  /**
   * An index name never follows an ordinary one: `{b: null, "1": null}` is
   * not a JavaScript object (it enumerates as `{"1": null, b: null}`).
   */
  lemma IndexNamesComeFirst()
    ensures !WellFormed(Obj([Member("b", Null), Member("1", Null)]))
    ensures WellFormed(Obj([Member("1", Null), Member("b", Null)]))
  {
    assert DigitsValue("1") == 1 by { assert "1"[..0] == []; }
    assert IndexName("1");
    assert !IndexName("b");
    var bad := [Member("b", Null), Member("1", Null)];
    assert IndexName(bad[1].name) && !IndexName(bad[0].name);
    assert !EnumerationOrder(bad);
    var ms := [Member("1", Null), Member("b", Null)];
    assert ms[0].name != ms[1].name by { assert ms[0].name[0] != ms[1].name[0]; }
  }

  /** Two distinct ordinary names, in either order, make a JavaScript object. */
  lemma OrdinaryPairIsObject(x: string, y: string)
    requires x != y && !IndexName(x) && !IndexName(y)
    ensures WellFormed(Obj([Member(x, Null), Member(y, Null)]))
  {
    var ms := [Member(x, Null), Member(y, Null)];
    assert EnumerationOrder(ms);
  }

  function HexDigit(d: nat): char
    requires d < 16
  {
    "0123456789abcdef"[d]
  }

  /** How JSON.stringify writes one character inside a string literal. */
  function EscapeChar(c: char): (r: string)
    ensures r != []
    ensures c != '"' && c != '\\' && c as int >= 0x20 ==> r == [c]
  {
    if c == '"' then "\\\""
    else if c == '\\' then "\\\\"
    else if c == '\n' then "\\n"
    else if c == '\r' then "\\r"
    else if c == '\t' then "\\t"
    else if c as int == 8 then "\\b"
    else if c as int == 12 then "\\f"
    else if c as int < 0x20 then "\\u00" + [HexDigit(c as int / 16), HexDigit(c as int % 16)]
    else [c]
  }

  function Escape(s: string): string {
    if s == [] then [] else EscapeChar(s[0]) + Escape(s[1..])
  }

  function Quote(s: string): (r: string)
    ensures |r| >= 2 && r[0] == '"' && r[|r| - 1] == '"'
  {
    "\"" + Escape(s) + "\""
  }

  /** Parts separated by commas. */
  function Join(parts: seq<string>): string {
    if |parts| == 0 then ""
    else if |parts| == 1 then parts[0]
    else parts[0] + "," + Join(parts[1..])
  }

  /** Array elements: an undefined element is written as null. */
  function ItemTexts(items: seq<Value>): seq<string>
    decreases items
  {
    if items == [] then []
    else [Text(items[0])] + ItemTexts(items[1..])
  }

  /** Object members: a member whose value is undefined is left out. */
  function MemberTexts(ms: seq<Member>): seq<string>
    decreases ms
  {
    if ms == [] then []
    else (if ms[0].value.Undefined? then [] else [Quote(ms[0].name) + ":" + Text(ms[0].value)])
         + MemberTexts(ms[1..])
  }

  /**
   * JSON text of a value nested in an array (where undefined reads as null);
   * objects are written member by member in enumeration order, as
   * JSON.stringify does. The first character tells strings, numbers, arrays
   * and objects apart.
   */
  function Text(v: Value): (r: string)
    decreases v
    ensures r != []
    ensures v.Str? <==> r[0] == '"'
    ensures v.Num? <==> r[0] == '-' || '0' <= r[0] <= '9'
    ensures v.Arr? <==> r[0] == '['
    ensures v.Obj? <==> r[0] == '{'
  {
    match v
    case Undefined => "null"
    case Null => "null"
    case Bool(b) => if b then "true" else "false"
    case Num(n) => IntText(n)
    case Str(s) => Quote(s)
    case Arr(items) => "[" + Join(ItemTexts(items)) + "]"
    case Obj(ms) => "{" + Join(MemberTexts(ms)) + "}"
  }

  /** `JSON.stringify(v)`: no string at all for undefined, otherwise non-empty JSON text. */
  function Stringify(v: Value): (r: Option<string>)
    ensures r.None? <==> v.Undefined?
    ensures r.Some? ==> r.value != []
  {
    if v.Undefined? then None else Some(Text(v))
  }

  /** A template literal `${x}` applied to the result of JSON.stringify. */
  function Interpolate(s: Option<string>): string {
    match s
    case None => "undefined"
    case Some(t) => t
  }
}
