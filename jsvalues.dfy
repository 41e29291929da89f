/** JSON values as `JSON.parse` produces them, with the JavaScript coercions the
    logger applies to them: truthiness (`!!v`), `String(v)` and
    `parseInt(v, 10)`. */
module JsValues {
  import opened Text
  import Levels

  /** `Number.MAX_SAFE_INTEGER`, 2^53 - 1. */
  const MaxSafeInteger: int := 9007199254740991

  /** The integers a JavaScript number holds exactly. Below 10^21 `String(n)`
      writes them in plain decimal. */
  type SafeInt = n: int | -MaxSafeInteger <= n <= MaxSafeInteger

  /** A parsed JSON value. Object members keep their enumeration order;
      numbers are safe integers. */
  datatype Json =
    | JNull
    | JBool(b: bool)
    | JNum(n: SafeInt)
    | JStr(s: string)
    | JArr(items: seq<Json>)
    | JObj(props: seq<(string, Json)>)

  /** `!!v`. */
  predicate Truthy(v: Json)
  {
    match v
    case JNull => false
    case JBool(b) => b
    case JNum(n) => n != 0
    case JStr(s) => s != ""
    case _ => true
  }

  /** `typeof v === 'object' && v !== null`. */
  predicate IsObject(v: Json)
  {
    v.JArr? || v.JObj?
  }

  /** Own property `key` of a parsed object (`v[key]` when it is defined). */
  function Get(v: Json, key: string): (r: Option<Json>)
    ensures r.Some? ==> v.JObj? && exists i :: 0 <= i < |v.props| && v.props[i] == (key, r.value)
  {
    if v.JObj? then Lookup(v.props, key) else None
  }

  function Lookup(props: seq<(string, Json)>, key: string): (r: Option<Json>)
    ensures r.Some? ==> exists i :: 0 <= i < |props| && props[i] == (key, r.value)
    ensures r.None? ==> forall i :: 0 <= i < |props| ==> props[i].0 != key
  {
    if props == [] then None
    else if props[0].0 == key then Some(props[0].1)
    else
      var r := Lookup(props[1..], key);
      if r.Some? then
        assert exists i :: 0 <= i < |props| - 1 && props[1..][i] == (key, r.value);
        var i :| 0 <= i < |props| - 1 && props[1..][i] == (key, r.value);
        assert props[i + 1] == (key, r.value);
        r
      else r
  }

  /** The keys a `for (k in v)` loop visits over a parsed value: member names of an
      object, index strings of an array. */
  function EnumKeys(v: Json): (ks: seq<(string, Json)>)
    ensures v.JArr? ==> |ks| == |v.items| && forall i :: 0 <= i < |ks| ==> ks[i] == (NatToString(i), v.items[i])
    ensures v.JObj? ==> ks == v.props
  {
    match v
    case JObj(props) => props
    case JArr(items) => seq(|items|, i requires 0 <= i < |items| => (NatToString(i), items[i]))
    case _ => []
  }

  /** `String(v)`. Arrays join their elements with commas, `null` elements
      becoming empty. */
  function JsString(v: Json): string
    decreases v, 1
  {
    match v
    case JNull => "null"
    case JBool(b) => if b then "true" else "false"
    case JNum(n) => IntToString(n)
    case JStr(s) => s
    case JArr(items) => ArrayString(v, items, 0)
    case JObj(_) => "[object Object]"
  }

  /** Whether `String(v)`, a string concatenation with `v` or a property
      lookup keyed by `v` throws. `JSON.parse` makes every member an own data
      property, so an object with its own `toString` member shadows the
      callable one with a value that cannot be called; `valueOf` then gives
      the object itself, no primitive, and the conversion throws a
      `TypeError`. An own `valueOf` alone does no harm, as the inherited
      `toString` still answers. An array converts by joining its elements,
      which throws when one of them does. */
  predicate StringThrows(v: Json)
  {
    match v
    case JObj(props) => exists i :: 0 <= i < |props| && props[i].0 == "toString"
    case JArr(items) => exists i :: 0 <= i < |items| && StringThrows(items[i])
    case _ => false
  }

  function ArrayString(whole: Json, items: seq<Json>, i: nat): string
    requires whole.JArr? && items == whole.items && i <= |items|
    decreases whole, 0, |items| - i
  {
    if i == |items| then ""
    else
      (if i > 0 then "," else "")
      + (if items[i].JNull? then "" else JsString(items[i]))
      + ArrayString(whole, items, i + 1)
  }

  // ---- parseInt(string, 10) ----

  /** StrWhiteSpaceChar of ECMAScript: what `parseInt` skips before the number. */
  predicate IsJsWhitespace(c: char)
  {
    c == '\t' || c == '\n' || c == '\r' || c == ' '
    || c == '\U{000B}' || c == '\U{000C}' || c == '\U{00A0}' || c == '\U{FEFF}'
    || c == '\U{1680}' || ('\U{2000}' <= c <= '\U{200A}')
    || c == '\U{2028}' || c == '\U{2029}' || c == '\U{202F}' || c == '\U{205F}' || c == '\U{3000}'
  }

  function TrimStart(s: string): (r: string)
    ensures |r| <= |s| && r == s[|s| - |r|..]
    ensures r == [] || !IsJsWhitespace(r[0])
  {
    if s != [] && IsJsWhitespace(s[0]) then TrimStart(s[1..]) else s
  }

  /** The longest prefix of decimal digits. */
  function DigitPrefix(s: string): (d: string)
    ensures |d| <= |s| && d == s[..|d|] && AllDigits(d)
    ensures |d| < |s| ==> !IsDigit(s[|d|])
  {
    if s != [] && IsDigit(s[0]) then [s[0]] + DigitPrefix(s[1..]) else []
  }

  /** `parseInt(s, 10)`: `None` stands for NaN. Leading blanks are skipped,
      one sign is read, then the longest run of digits. */
  function ParseInt(s: string): Option<int>
  {
    ParseSigned(TrimStart(s))
  }

  function ParseSigned(t: string): Option<int>
  {
    if t != [] && t[0] == '-' then Negate(ParseUnsigned(t[1..]))
    else if t != [] && t[0] == '+' then ParseUnsigned(t[1..])
    else ParseUnsigned(t)
  }

  function ParseUnsigned(b: string): Option<int>
  {
    var digits := DigitPrefix(b);
    if digits == [] then None else Some(DigitsValue(digits))
  }

  function Negate(o: Option<int>): Option<int>
  {
    if o.None? then None else Some(-o.value)
  }

  /** `parseInt(v, 10)` on any value: the value is first turned into text. */
  function ParseIntOf(v: Json): Option<int>
  {
    ParseInt(JsString(v))
  }

  lemma DigitPrefixOfDigits(d: string, rest: string)
    requires AllDigits(d) && (rest == [] || !IsDigit(rest[0]))
    ensures DigitPrefix(d + rest) == d
    decreases |d|
  {
    if d != [] {
      assert (d + rest)[1..] == d[1..] + rest;
      DigitPrefixOfDigits(d[1..], rest);
    } else {
      assert d + rest == rest;
    }
  }

  lemma ParseDigits(d: string)
    requires |d| > 0 && AllDigits(d)
    ensures ParseUnsigned(d) == Some(DigitsValue(d))
  {
    DigitPrefixOfDigits(d, []);
    assert d + [] == d;
  }

  /** Text starting with a digit is read without a sign. */
  lemma ParseFromDigit(s: string)
    requires |s| > 0 && IsDigit(s[0])
    ensures ParseInt(s) == ParseUnsigned(s)
  {
    assert !IsJsWhitespace(s[0]);
    assert TrimStart(s) == s;
  }

  /** Text starting with a minus sign is read as the negated rest. */
  lemma ParseFromMinus(s: string)
    requires |s| > 0 && s[0] == '-'
    ensures ParseInt(s) == Negate(ParseUnsigned(s[1..]))
  {
    assert !IsJsWhitespace(s[0]);
    assert TrimStart(s) == s;
  }

  /** `parseInt(String(n), 10) == n` for every integer the wire can carry. */
  lemma ParseIntRoundTrip(n: int)
    ensures ParseInt(IntToString(n)) == Some(n)
  {
    var m: nat := if n < 0 then -n else n;
    var d := NatToString(m);
    NatToStringRoundTrip(m);
    ParseDigits(d);
    if n < 0 {
      ParseFromMinus("-" + d);
      assert ("-" + d)[1..] == d;
    } else {
      ParseFromDigit(d);
    }
  }

  /** A number on the wire reads back as itself through `parseInt`. */
  lemma ParseIntOfNumber(n: SafeInt)
    ensures ParseIntOf(JNum(n)) == Some(n)
  {
    ParseIntRoundTrip(n);
  }

  /** Text whose first character is neither blank, a sign nor a digit has no
      `parseInt` value. */
  lemma NoLeadingNumber(s: string)
    requires |s| > 0 && !IsJsWhitespace(s[0]) && s[0] != '-' && s[0] != '+' && !IsDigit(s[0])
    ensures ParseInt(s) == None
  {
    assert TrimStart(s) == s;
    assert DigitPrefix(s) == [];
    assert ParseUnsigned(s) == None;
  }

  /** `null`, booleans and objects are NaN under `parseInt`. */
  lemma ParseIntOfNonNumeric(v: Json)
    requires v.JNull? || v.JBool? || v.JObj?
    ensures ParseIntOf(v) == None
  {
    var s := JsString(v);
    assert |s| > 0 && (s[0] == 'n' || s[0] == 't' || s[0] == 'f' || s[0] == '[') by {
      match v
      case JNull => assert s == "null";
      case JBool(b) => assert s == "true" || s == "false";
      case JObj(_) => assert s == "[object Object]";
    }
    NoLeadingNumber(s);
  }

  /** Index keys are never level names, so iterating an array never selects a
      level. */
  lemma ArrayKeysAreNoLevels(v: Json)
    requires v.JArr?
    ensures forall i :: 0 <= i < |EnumKeys(v)| ==> Levels.FromName(EnumKeys(v)[i].0) == None
  {
    forall i | 0 <= i < |EnumKeys(v)| ensures Levels.FromName(EnumKeys(v)[i].0) == None {
      Levels.DigitKeyIsNoLevel(NatToString(i));
    }
  }
}
