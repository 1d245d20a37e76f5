/**
 * The part of JavaScript's semantics that the front-end's modules rely on:
 * values, truthiness, `||` and `??`, property reads with and without optional
 * chaining, conversion to string, and the string built-ins the code calls
 * (`join`, `trim`, `charAt`, `toUpperCase`, `parseInt`).
 */
module Js {

  datatype Option<+T> = None | Some(value: T)

  /**
   * A JavaScript value. Numbers are integers (or NaN). An object keeps its
   * enumerable own keys, in insertion order, in `keys` (JavaScript would list
   * integer-like keys first, in ascending order; none of the objects built
   * here has such keys out of order); `fields` holds every
   * own property, so an Error's non-enumerable `message` lives in `fields`
   * only. A `JBlob` is an opaque binary body (a browser Blob).
   */
  datatype Value =
    | JUndef
    | JNull
    | JBool(b: bool)
    | JNum(n: int)
    | JNaN
    | JStr(s: string)
    | JArr(items: seq<Value>)
    | JObj(keys: seq<string>, fields: map<string, Value>)
    | JBlob(bytes: seq<bv8>)

  /** What evaluating a piece of code gives: a value, or a thrown value. */
  datatype Completion<+T> = Normal(value: T) | Throw(exception: Value)

  /**
   * What `JSON.parse` (after any reading of a body) gives: the parsed value,
   * or the error it throws. The parser itself is not modelled; functions that
   * parse take it as a parameter.
   */
  datatype Parsed = Parsed(value: Value) | Unparsable(error: Value)

  predicate Truthy(v: Value)
  {
    match v
    case JUndef => false
    case JNull => false
    case JBool(b) => b
    case JNum(n) => n != 0
    case JNaN => false
    case JStr(s) => s != ""
    case _ => true
  }

  predicate Nullish(v: Value)
  {
    v.JUndef? || v.JNull?
  }

  /** `a || b` */
  function Or(a: Value, b: Value): Value
  {
    if Truthy(a) then a else b
  }

  /** `a ?? b` */
  function Coalesce(a: Value, b: Value): Value
  {
    if Nullish(a) then b else a
  }

  /** A default parameter or default in destructuring: only `undefined` is replaced. */
  function Default(v: Value, d: Value): Value
  {
    if v == JUndef then d else v
  }

  /** `Boolean(v)` */
  function Boolean(v: Value): Value
  {
    JBool(Truthy(v))
  }

  /**
   * `v?.k`; also `v.k` once `v` is known not to be nullish. Arrays and strings
   * expose only `length` (the code never reads their other named properties).
   */
  function Get(v: Value, k: string): Value
  {
    match v
    case JObj(_, fields) => if k in fields then fields[k] else JUndef
    case JArr(items) => if k == "length" then JNum(|items|) else JUndef
    case JStr(s) => if k == "length" then JNum(|s|) else JUndef
    case _ => JUndef
  }

  /** `v?.[i]` */
  function At(v: Value, i: nat): Value
  {
    match v
    case JArr(items) => if i < |items| then items[i] else JUndef
    case JStr(s) => if i < |s| then JStr([s[i]]) else JUndef
    case JObj(_, _) => Get(v, NatToString(i))
    case _ => JUndef
  }

  /** The TypeError that reading a property of `null` or `undefined` throws. */
  const TYPE_ERROR: Value := ErrorValue("TypeError", TYPE_ERROR_MESSAGE)
  const TYPE_ERROR_MESSAGE := "Cannot read properties of null or undefined"

  /** `v.k` without optional chaining: throws a TypeError when `v` is nullish. */
  function Dot(v: Value, k: string): Completion<Value>
  {
    if Nullish(v) then Throw(TYPE_ERROR) else Normal(Get(v, k))
  }

  /** An Error object: `name` and `message` are properties, none of them enumerable. */
  function ErrorValue(name: string, message: string): Value
  {
    JObj([], map["name" := JStr(name), "message" := JStr(message)])
  }

  /** `new Error(x)` for a defined `x`: the message is `String(x)`. */
  function NewError(x: Value): Value
  {
    ErrorValue("Error", ToString(x))
  }

  /** The object has exactly the enumerable keys `ks`, in order, with the values `vs`. */
  ghost predicate ObjectIs(v: Value, ks: seq<string>, vs: seq<Value>)
  {
    && v.JObj?
    && v.keys == ks
    && |vs| == |ks|
    && (forall k :: k in v.fields <==> k in ks)
    && (forall i :: 0 <= i < |ks| ==> Get(v, ks[i]) == vs[i])
  }

  // ---------------------------------------------------------------------------
  // Conversion to string

  function Digit(d: nat): char
    requires d < 10
  {
    ('0' as int + d) as char
  }

  function NatToString(n: nat): string
  {
    if n < 10 then [Digit(n)] else NatToString(n / 10) + [Digit(n % 10)]
  }

  function IntToString(n: int): string
  {
    if n < 0 then "-" + NatToString(-n) else NatToString(n)
  }

  /** `parts.join(sep)` */
  function Join(parts: seq<string>, sep: string): string
  {
    if |parts| == 0 then ""
    else if |parts| == 1 then parts[0]
    else parts[0] + sep + Join(parts[1..], sep)
  }

  /** `String(v)`, as a template literal or `new Error(v)` converts its argument. */
  function ToString(v: Value): string
  {
    match v
    case JUndef => "undefined"
    case JNull => "null"
    case JBool(b) => if b then "true" else "false"
    case JNum(n) => IntToString(n)
    case JNaN => "NaN"
    case JStr(s) => s
    case JArr(items) =>
      Join(seq(|items|, i requires 0 <= i < |items| =>
             if Nullish(items[i]) then "" else ToString(items[i])), ",")
    case JObj(_, _) => "[object Object]"
    case JBlob(_) => "[object Blob]"
  }

  /** How `join` shows one array element: null and undefined as the empty string. */
  function ElementString(x: Value): string
  {
    if Nullish(x) then "" else ToString(x)
  }

  /** `items.join(sep)` on an array. */
  function ArrayJoin(items: seq<Value>, sep: string): string
  {
    Join(seq(|items|, i requires 0 <= i < |items| => ElementString(items[i])), sep)
  }

  // ---------------------------------------------------------------------------
  // String built-ins

  /** ECMAScript's WhiteSpace and LineTerminator code points, which `trim` and `parseInt` skip. */
  predicate IsSpace(c: char)
  {
    c == '\t' || c == '\n' || c == '\U{000B}' || c == '\U{000C}' || c == '\r' || c == ' '
    || c == '\U{00A0}' || c == '\U{1680}' || ('\U{2000}' <= c <= '\U{200A}')
    || c == '\U{2028}' || c == '\U{2029}' || c == '\U{202F}' || c == '\U{205F}'
    || c == '\U{3000}' || c == '\U{FEFF}'
  }

  function TrimStart(s: string): string
  {
    if |s| > 0 && IsSpace(s[0]) then TrimStart(s[1..]) else s
  }

  function TrimEnd(s: string): string
  {
    if |s| > 0 && IsSpace(s[|s| - 1]) then TrimEnd(s[..|s| - 1]) else s
  }

  /** `s.trim()` */
  function Trim(s: string): string
  {
    TrimEnd(TrimStart(s))
  }

  /**
   * One code point of `toUpperCase` on ASCII and Latin-1: the small letters,
   * including `ÿ` (capital U+0178) and `µ` (capital Greek Mu, U+039C), which
   * leave the range; `ß` has a two-letter capital and is not modelled.
   */
  function UpperChar(c: char): char
  {
    if 'a' <= c <= 'z' then (c as int - 32) as char
    else if '\U{00E0}' <= c <= '\U{00FE}' && c != '\U{00F7}' then (c as int - 32) as char
    else if c == '\U{00FF}' then '\U{0178}'
    else if c == '\U{00B5}' then '\U{039C}'
    else c
  }

  /** `s.toUpperCase()` */
  function Upper(s: string): string
  {
    seq(|s|, i requires 0 <= i < |s| => UpperChar(s[i]))
  }

  /** `v.charAt(0)`: strings have it; on any other value the call throws a TypeError. */
  function CharAt0(v: Value): Completion<string>
  {
    match v
    case JStr(s) => Normal(if |s| > 0 then [s[0]] else "")
    case _ => Throw(TYPE_ERROR)
  }

  predicate IsDigit(c: char)
  {
    '0' <= c <= '9'
  }

  function DigitValue(c: char): nat
    requires IsDigit(c)
  {
    c as int - '0' as int
  }

  predicate IsHexDigit(c: char)
  {
    IsDigit(c) || 'a' <= c <= 'f' || 'A' <= c <= 'F'
  }

  function HexDigitValue(c: char): nat
    requires IsHexDigit(c)
  {
    if IsDigit(c) then DigitValue(c)
    else if 'a' <= c <= 'f' then c as int - 'a' as int + 10
    else c as int - 'A' as int + 10
  }

  /** The longest prefix of `s` made of digits of the given radix (10 or 16). */
  function DigitPrefix(s: string, hex: bool): string
  {
    if |s| > 0 && (if hex then IsHexDigit(s[0]) else IsDigit(s[0]))
    then [s[0]] + DigitPrefix(s[1..], hex)
    else ""
  }

  /** The number a string of digits denotes, leading digit first. */
  function DigitsValue(ds: string, hex: bool): nat
    requires forall i :: 0 <= i < |ds| ==> (if hex then IsHexDigit(ds[i]) else IsDigit(ds[i]))
  {
    if |ds| == 0 then 0
    else
      DigitsValue(ds[..|ds| - 1], hex) * (if hex then 16 else 10)
      + (if hex then HexDigitValue(ds[|ds| - 1]) else DigitValue(ds[|ds| - 1]))
  }

  lemma DigitPrefixIsDigits(s: string, hex: bool)
    ensures |DigitPrefix(s, hex)| <= |s|
    ensures forall i :: 0 <= i < |DigitPrefix(s, hex)| ==>
              (if hex then IsHexDigit(DigitPrefix(s, hex)[i]) else IsDigit(DigitPrefix(s, hex)[i]))
  {
    if |s| > 0 && (if hex then IsHexDigit(s[0]) else IsDigit(s[0])) {
      DigitPrefixIsDigits(s[1..], hex);
    }
  }

  /**
   * `parseInt(v)` with no radix: convert to string, skip leading white space,
   * take an optional sign, switch to radix 16 after `0x`/`0X`, then read the
   * longest digit prefix; none at all gives NaN.
   */
  function ParseInt(v: Value): Value
  {
    var s := TrimStart(ToString(v));
    var neg := |s| > 0 && s[0] == '-';
    var unsigned := if |s| > 0 && (s[0] == '-' || s[0] == '+') then s[1..] else s;
    var hex := |unsigned| >= 2 && unsigned[0] == '0' && (unsigned[1] == 'x' || unsigned[1] == 'X');
    var body := if hex then unsigned[2..] else unsigned;
    var ds := DigitPrefix(body, hex);
    DigitPrefixIsDigits(body, hex);
    var value: int := if |ds| == 0 then 0 else DigitsValue(ds, hex);
    if |ds| == 0 then JNaN
    else JNum(if neg then -value else value)
  }

  // ---------------------------------------------------------------------------
  // Objects

  /** `Object.entries(v)` for a value that is not nullish. */
  function Entries(v: Value): seq<(string, Value)>
  {
    match v
    case JObj(keys, _) => seq(|keys|, i requires 0 <= i < |keys| => (keys[i], Get(v, keys[i])))
    case JArr(items) => seq(|items|, i requires 0 <= i < |items| => (NatToString(i), items[i]))
    case JStr(s) => seq(|s|, i requires 0 <= i < |s| => (NatToString(i), JStr([s[i]])))
    case _ => []
  }

  /** Adds or overwrites one property; a new key goes last, an existing one keeps its place. */
  function SetProp(o: Value, k: string, x: Value): Value
    requires o.JObj?
  {
    JObj(if k in o.keys then o.keys else o.keys + [k], o.fields[k := x])
  }

  /** Setting a key the object does not have appends it, and keeps every other property. */
  lemma SetPropAppends(o: Value, ks: seq<string>, vs: seq<Value>, k: string, x: Value)
    requires ObjectIs(o, ks, vs) && k !in ks
    ensures ObjectIs(SetProp(o, k, x), ks + [k], vs + [x])
  {
    var r := SetProp(o, k, x);
    forall i | 0 <= i < |ks + [k]|
      ensures Get(r, (ks + [k])[i]) == (vs + [x])[i]
    {
      if i < |ks| {
        assert (ks + [k])[i] == ks[i] && ks[i] != k;
        assert Get(o, ks[i]) == vs[i];
      }
    }
  }

  /** The object built from entries, later entries winning. */
  function FromEntries(es: seq<(string, Value)>): (o: Value)
    ensures o.JObj? && (forall k :: k in o.fields <==> k in o.keys)
  {
    if |es| == 0 then JObj([], map[])
    else SetProp(FromEntries(es[..|es| - 1]), es[|es| - 1].0, es[|es| - 1].1)
  }

  /** The keys of a list of entries, in order and with repetitions. */
  function EntryKeys(es: seq<(string, Value)>): (ks: seq<string>)
    ensures |ks| == |es| && forall i :: 0 <= i < |es| ==> ks[i] == es[i].0
  {
    seq(|es|, i requires 0 <= i < |es| => es[i].0)
  }

  /** No key is listed twice (as in an object's keys, or the query keys the code lists). */
  predicate DistinctKeys(ks: seq<string>)
  {
    forall i, j :: 0 <= i < j < |ks| ==> ks[i] != ks[j]
  }

  /** Appending a key not yet listed keeps a list free of repetitions. */
  lemma DistinctKeysAppend(ks: seq<string>, k: string)
    requires DistinctKeys(ks) && k !in ks
    ensures DistinctKeys(ks + [k])
  {
    forall a, b | 0 <= a < b < |ks + [k]| ensures (ks + [k])[a] != (ks + [k])[b] {
      assert (ks + [k])[a] == ks[a];
      if b == |ks| {
        assert ks[a] in ks;
      }
    }
  }

  /** Each key of some entry appears once in `FromEntries(es)`, and no other key does. */
  lemma {:induction false} FromEntriesKeys(es: seq<(string, Value)>)
    ensures var o := FromEntries(es);
            (forall k :: k in o.keys <==> k in EntryKeys(es)) && DistinctKeys(o.keys)
  {
    if |es| > 0 {
      var prefix := es[..|es| - 1];
      FromEntriesKeys(prefix);
      assert EntryKeys(es) == EntryKeys(prefix) + [es[|es| - 1].0];
      var p := FromEntries(prefix);
      var k := es[|es| - 1].0;
      if k !in p.keys {
        DistinctKeysAppend(p.keys, k);
      }
    }
  }

  /** The property of a key is the value of its last entry. */
  lemma {:induction false} FromEntriesLastWins(es: seq<(string, Value)>, i: nat)
    requires i < |es| && forall j :: i < j < |es| ==> es[j].0 != es[i].0
    ensures Get(FromEntries(es), es[i].0) == es[i].1
  {
    if i < |es| - 1 {
      var prefix := es[..|es| - 1];
      assert prefix[i] == es[i];
      FromEntriesLastWins(prefix, i);
    }
  }

  /**
   * The keys of `FromEntries(es)` come in the order of their first entries:
   * a key listed before another has an entry before any entry of the other.
   */
  lemma {:induction false} FromEntriesFirstOrder(es: seq<(string, Value)>, a: nat, b: nat)
    requires a < b < |FromEntries(es).keys|
    ensures exists i :: 0 <= i < |es| && es[i].0 == FromEntries(es).keys[a] && FromEntries(es).keys[b] !in EntryKeys(es[..i + 1])
  {
    var prefix := es[..|es| - 1];
    var last := es[|es| - 1];
    var p := FromEntries(prefix);
    var o := FromEntries(es);
    FromEntriesKeys(prefix);
    assert o.keys == if last.0 in p.keys then p.keys else p.keys + [last.0];
    assert o.keys[a] == p.keys[a];
    if b < |p.keys| {
      FromEntriesFirstOrder(prefix, a, b);
      var i :| 0 <= i < |prefix| && prefix[i].0 == p.keys[a] && p.keys[b] !in EntryKeys(prefix[..i + 1]);
      assert prefix[..i + 1] == es[..i + 1];
      assert es[i].0 == o.keys[a] && o.keys[b] == p.keys[b];
    } else {
      assert o.keys[b] == last.0 && last.0 !in EntryKeys(prefix);
      assert p.keys[a] in p.keys;
      var i :| 0 <= i < |prefix| && EntryKeys(prefix)[i] == p.keys[a];
      assert EntryKeys(es[..i + 1]) == EntryKeys(prefix)[..i + 1];
      assert es[i].0 == o.keys[a];
    }
  }

  /** `{...v}`: the enumerable own properties of `v`; nothing for null and undefined. */
  function Spread(v: Value): (o: Value)
    ensures o.JObj? && (forall k :: k in o.fields ==> k in o.keys)
    ensures Nullish(v) ==> o == JObj([], map[])
    ensures v.JObj? ==>
              && o.keys == v.keys
              && (forall k :: k in v.keys ==> Get(o, k) == Get(v, k))
              && (forall k :: k !in v.keys ==> Get(o, k) == JUndef)
    ensures (v.JArr? || v.JStr?) ==> o == FromEntries(Entries(v))
  {
    match v
    case JObj(keys, fields) => JObj(keys, map k | k in fields && k in keys :: fields[k])
    case _ => FromEntries(Entries(v))
  }

  // ---------------------------------------------------------------------------
  // Facts about the conversions

  lemma {:induction false} NatToStringDigits(n: nat)
    ensures |NatToString(n)| > 0
    ensures forall i :: 0 <= i < |NatToString(n)| ==> IsDigit(NatToString(n)[i])
    ensures DigitsValue(NatToString(n), false) == n
  {
    if n >= 10 {
      NatToStringDigits(n / 10);
      var s := NatToString(n);
      assert s[..|s| - 1] == NatToString(n / 10);
    }
  }

  lemma {:induction false} DigitPrefixOfDigits(s: string)
    requires forall i :: 0 <= i < |s| ==> IsDigit(s[i])
    ensures DigitPrefix(s, false) == s
  {
    if |s| > 0 {
      DigitPrefixOfDigits(s[1..]);
    }
  }

  /** `parseInt(String(n))` gives back the integer `n`. */
  lemma ParseIntOfNumber(n: int)
    ensures ParseInt(JNum(n)) == JNum(n)
  {
    var m: nat := if n < 0 then -n else n;
    NatToStringDigits(m);
    DigitPrefixOfDigits(NatToString(m));
    var t := IntToString(n);
    var digits := NatToString(m);
    assert t[0] == '-' || IsDigit(t[0]);
    assert TrimStart(t) == t;
    var unsigned := if t[0] == '-' then t[1..] else t;
    assert unsigned == digits by {
      if n < 0 {
        assert t[1..] == digits;
      }
    }
    assert !(|digits| >= 2 && digits[0] == '0' && (digits[1] == 'x' || digits[1] == 'X')) by {
      if |digits| >= 2 {
        assert IsDigit(digits[1]);
      }
    }
    assert DigitPrefix(unsigned, false) == digits;
  }

  /** Trimming leaves a string alone when neither end is white space. */
  lemma TrimUnspaced(s: string)
    requires |s| > 0 && !IsSpace(s[0]) && !IsSpace(s[|s| - 1])
    ensures Trim(s) == s
  {
  }
}
