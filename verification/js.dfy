/**
 * JavaScript values as the modelled backend handles them: request bodies,
 * database rows, parsed model output. An object is the ordered list of its
 * own enumerable keys with their values. Numbers are reals (NaN and the
 * infinities are not modelled).
 */
module Js {
  import Text

  datatype Option<T> = None | Some(value: T)

  datatype Json =
    | JUndefined
    | JNull
    | JBool(b: bool)
    | JNum(n: real)
    | JStr(s: string)
    | JArr(items: seq<Json>)
    | JObj(fields: seq<Field>)

  datatype Field = Field(key: string, val: Json)

  /** JavaScript truthiness: `undefined`, `null`, `false`, `0` and `""` are falsy. */
  predicate Truthy(v: Json)
  {
    match v
    case JUndefined => false
    case JNull => false
    case JBool(b) => b
    case JNum(n) => n != 0.0
    case JStr(s) => s != ""
    case JArr(_) => true
    case JObj(_) => true
  }

  /** `a || b`: the left operand when truthy, else the right one. */
  function Or(a: Json, b: Json): Json
  {
    if Truthy(a) then a else b
  }

  /** The keys of an object, in enumeration order. */
  function Keys(fields: seq<Field>): (r: seq<string>)
    ensures |r| == |fields|
    ensures forall i :: 0 <= i < |fields| ==> r[i] == fields[i].key
  {
    if |fields| == 0 then [] else [fields[0].key] + Keys(fields[1..])
  }

  /** An object's own keys are distinct. */
  predicate DistinctKeys(fields: seq<Field>)
  {
    forall i, j :: 0 <= i < j < |fields| ==> fields[i].key != fields[j].key
  }

  /** `obj[key]` on an object: the value stored under `key`, or `undefined`. */
  function Lookup(fields: seq<Field>, key: string): Json
  {
    if |fields| == 0 then JUndefined
    else if fields[0].key == key then fields[0].val
    else Lookup(fields[1..], key)
  }

  /** The value of a key is the value of its first field. */
  lemma {:induction false} LookupAt(fields: seq<Field>, i: nat)
    requires i < |fields|
    requires forall j :: 0 <= j < i ==> fields[j].key != fields[i].key
    ensures Lookup(fields, fields[i].key) == fields[i].val
  {
    if i > 0 {
      assert fields[1..][i - 1] == fields[i];
      LookupAt(fields[1..], i - 1);
    }
  }

  /** `null` or `undefined`: the values a property read throws on. */
  predicate Nullish(v: Json)
  {
    v.JUndefined? || v.JNull?
  }

  /**
   * `v.key` for a key that is not a built-in property of strings or arrays:
   * `None` is the TypeError raised on `null` and `undefined`; other
   * primitives and arrays give `undefined`.
   */
  function Prop(v: Json, key: string): (r: Option<Json>)
    ensures r.None? <==> Nullish(v)
  {
    match v
    case JUndefined => None
    case JNull => None
    case JObj(fields) => Some(Lookup(fields, key))
    case _ => Some(JUndefined)
  }

  /** `obj[key] = value`: an existing key keeps its position, a new key is appended. */
  function SetField(fields: seq<Field>, key: string, value: Json): (r: seq<Field>)
    ensures Lookup(r, key) == value
  {
    if |fields| == 0 then [Field(key, value)]
    else if fields[0].key == key then [Field(key, value)] + fields[1..]
    else [fields[0]] + SetField(fields[1..], key, value)
  }

  /** Setting one key leaves every other key's value as it was. */
  lemma {:induction false} SetFieldOther(fields: seq<Field>, key: string, value: Json, other: string)
    requires other != key
    ensures Lookup(SetField(fields, key, value), other) == Lookup(fields, other)
  {
    if |fields| > 0 && fields[0].key != key {
      SetFieldOther(fields[1..], key, value, other);
    }
  }

  /** Setting a key adds no field but the one set. */
  lemma {:induction false} SetFieldFrom(fields: seq<Field>, key: string, value: Json)
    ensures forall f :: f in SetField(fields, key, value) ==> f in fields || f == Field(key, value)
  {
    if |fields| > 0 && fields[0].key != key {
      SetFieldFrom(fields[1..], key, value);
      assert forall f :: f in fields[1..] ==> f in fields;
    }
  }

  /** Setting a key keeps the keys distinct. */
  lemma {:induction false} SetFieldDistinct(fields: seq<Field>, key: string, value: Json)
    requires DistinctKeys(fields)
    ensures DistinctKeys(SetField(fields, key, value))
  {
    if |fields| > 0 && fields[0].key != key {
      var rest := SetField(fields[1..], key, value);
      SetFieldDistinct(fields[1..], key, value);
      SetFieldFrom(fields[1..], key, value);
      forall j | 0 <= j < |rest| ensures rest[j].key != fields[0].key {
        assert rest[j] in rest;
        if rest[j] in fields[1..] {
          var i :| 0 <= i < |fields[1..]| && fields[1..][i] == rest[j];
          assert fields[i + 1] == rest[j];
        }
      }
    }
  }

  /** Setting a key the object does not have appends it. */
  lemma {:induction false} SetFieldNew(fields: seq<Field>, key: string, value: Json)
    requires forall i :: 0 <= i < |fields| ==> fields[i].key != key
    ensures SetField(fields, key, value) == fields + [Field(key, value)]
  {
    if |fields| > 0 {
      SetFieldNew(fields[1..], key, value);
      assert fields == [fields[0]] + fields[1..];
    }
  }

  /** Setting a key adds that key and no other. */
  lemma {:induction false} KeysSetField(fields: seq<Field>, key: string, value: Json)
    ensures forall k :: k in Keys(SetField(fields, key, value)) <==> k in Keys(fields) || k == key
  {
    if |fields| > 0 {
      KeysSetField(fields[1..], key, value);
    }
  }

  /** `map.delete(key)` / `delete obj[key]`: the fields without `key`. */
  function Remove(fields: seq<Field>, key: string): (r: seq<Field>)
    ensures |r| <= |fields|
  {
    if |fields| == 0 then []
    else if fields[0].key == key then Remove(fields[1..], key)
    else [fields[0]] + Remove(fields[1..], key)
  }

  /** Removing a key drops that key and keeps the others. */
  lemma {:induction false} KeysRemove(fields: seq<Field>, key: string)
    ensures forall k :: k in Keys(Remove(fields, key)) <==> k in Keys(fields) && k != key
  {
    if |fields| > 0 {
      KeysRemove(fields[1..], key);
    }
  }

  /** `Object.assign({...base}, extra)`: the keys of `extra` are set one by one, in order. */
  function Assign(base: seq<Field>, extra: seq<Field>): seq<Field>
    decreases |extra|
  {
    if |extra| == 0 then base
    else Assign(SetField(base, extra[0].key, extra[0].val), extra[1..])
  }

  /**
   * Every field an assignment leaves comes from the base or from the
   * assigned fields; the keys stay distinct; and fields with new, distinct
   * keys are simply appended.
   */
  lemma {:induction false} AssignShape(base: seq<Field>, extra: seq<Field>)
    ensures forall f :: f in Assign(base, extra) ==> f in base || f in extra
    ensures DistinctKeys(base) ==> DistinctKeys(Assign(base, extra))
    ensures DistinctKeys(base + extra) ==> Assign(base, extra) == base + extra
    decreases |extra|
  {
    if |extra| > 0 {
      var next := SetField(base, extra[0].key, extra[0].val);
      SetFieldFrom(base, extra[0].key, extra[0].val);
      if DistinctKeys(base) {
        SetFieldDistinct(base, extra[0].key, extra[0].val);
      }
      if DistinctKeys(base + extra) {
        forall i | 0 <= i < |base| ensures base[i].key != extra[0].key {
          assert base[i] == (base + extra)[i] && extra[0] == (base + extra)[|base|];
        }
        SetFieldNew(base, extra[0].key, extra[0].val);
        assert next + extra[1..] == base + extra;
      }
      AssignShape(next, extra[1..]);
      assert forall f :: f in extra[1..] ==> f in extra;
    }
  }

  /**
   * After an assignment, a key the assigned fields do not hold keeps its
   * value from the base, and, when the assigned fields have distinct
   * keys, every key they hold takes their value.
   */
  lemma {:induction false} AssignLookup(base: seq<Field>, extra: seq<Field>)
    ensures forall k :: k !in Keys(extra) ==> Lookup(Assign(base, extra), k) == Lookup(base, k)
    ensures DistinctKeys(extra) ==> forall k :: k in Keys(extra) ==> Lookup(Assign(base, extra), k) == Lookup(extra, k)
    decreases |extra|
  {
    if |extra| > 0 {
      var key := extra[0].key;
      var rest := extra[1..];
      var next := SetField(base, key, extra[0].val);
      AssignLookup(next, rest);
      assert Keys(extra) == [key] + Keys(rest);
      forall k | k != key ensures Lookup(next, k) == Lookup(base, k) {
        SetFieldOther(base, key, extra[0].val, k);
      }
      if DistinctKeys(extra) {
        assert DistinctKeys(rest) by {
          forall i, j | 0 <= i < j < |rest| ensures rest[i].key != rest[j].key {
            assert rest[i] == extra[i + 1] && rest[j] == extra[j + 1];
          }
        }
        forall j | 0 <= j < |rest| ensures Keys(rest)[j] != key {
          assert rest[j] == extra[j + 1];
        }
      }
    }
  }

  /** Index-keyed fields `"0"`, `"1"`, ... for the elements of a list. */
  function IndexFields(items: seq<Json>): (r: seq<Field>)
    ensures |r| == |items|
  {
    seq(|items|, k requires 0 <= k < |items| => Field(Text.NatToString(k), items[k]))
  }

  /** The characters of a string, each as a one-character string. */
  function Chars(s: string): (r: seq<Json>)
    ensures |r| == |s|
  {
    seq(|s|, k requires 0 <= k < |s| => JStr([s[k]]))
  }

  /**
   * The own enumerable properties that object spread `{...v}` copies:
   * an object's fields, the indices of an array or a string, nothing for
   * other values (including `null` and `undefined`).
   */
  function Spread(v: Json): seq<Field>
  {
    match v
    case JObj(fields) => fields
    case JArr(items) => IndexFields(items)
    case JStr(s) => IndexFields(Chars(s))
    case _ => []
  }

  /** `v.length` where it is a number: arrays and strings. */
  function Length(v: Json): Option<nat>
  {
    match v
    case JArr(items) => Some(|items|)
    case JStr(s) => Some(|s|)
    case _ => None
  }

  /**
   * The elements `for (const x of v)` visits: an array's items or a
   * string's characters; `None` is the TypeError for values that are not
   * iterable.
   */
  function Elements(v: Json): Option<seq<Json>>
  {
    match v
    case JArr(items) => Some(items)
    case JStr(s) => Some(Chars(s))
    case _ => None
  }

  /**
   * The property read `v.length`: arrays and strings give their length,
   * objects their `length` field, other primitives `undefined`; `None` is
   * the TypeError on `null` and `undefined`.
   */
  function LengthProp(v: Json): (r: Option<Json>)
    ensures r.None? <==> v.JUndefined? || v.JNull?
    ensures v.JArr? ==> r == Some(JNum(|v.items| as real))
  {
    match v
    case JUndefined => None
    case JNull => None
    case JArr(items) => Some(JNum(|items| as real))
    case JStr(s) => Some(JNum(|s| as real))
    case JObj(fields) => Some(Lookup(fields, "length"))
    case _ => Some(JUndefined)
  }

  /**
   * `String(v)`, as `+=` on a string applies it: a string is itself, an
   * array joins its elements' texts with `,` (`null` and `undefined`
   * elements giving `""`), any other object is `[object Object]`.
   */
  function JsString(v: Json): string
    decreases v
  {
    match v
    case JUndefined => "undefined"
    case JNull => "null"
    case JBool(b) => if b then "true" else "false"
    case JNum(n) => Text.IntToString(n.Floor)
    case JStr(s) => s
    case JArr(items) =>
      Text.Join(seq(|items|, i requires 0 <= i < |items| => if Nullish(items[i]) then "" else JsString(items[i])), ",")
    case JObj(_) => "[object Object]"
  }

  /** A character of a decimal literal's digits. */
  predicate IsDecimalDigit(c: char)
  {
    '0' <= c <= '9'
  }

  /** Every character is a decimal digit. */
  predicate AllDecimalDigits(s: string)
  {
    forall i :: 0 <= i < |s| ==> IsDecimalDigit(s[i])
  }

  /** Some character is a digit other than `0`. */
  predicate HasNonZeroDigit(s: string)
  {
    exists i :: 0 <= i < |s| && '1' <= s[i] <= '9'
  }

  /** A digit of a `0x`, `0o` or `0b` literal, by its (lower-cased) prefix letter. */
  predicate IsRadixDigit(prefix: char, c: char)
  {
    if prefix == 'x' then IsDecimalDigit(c) || 'a' <= c <= 'f' || 'A' <= c <= 'F'
    else if prefix == 'o' then '0' <= c <= '7'
    else '0' <= c <= '1'
  }

  /** The mantissa of a decimal literal: `d`, `d.`, `d.d` or `.d`, with `d` one or more digits. */
  predicate Mantissa(m: string)
  {
    (|m| > 0 && AllDecimalDigits(m))
    || (|m| > 1 && exists k :: 0 <= k < |m| && m[k] == '.' && AllDecimalDigits(m[..k]) && AllDecimalDigits(m[k + 1..]))
  }

  /** An exponent's digits with an optional sign. */
  predicate SignedDigits(x: string)
  {
    if |x| > 0 && (x[0] == '+' || x[0] == '-') then |x| > 1 && AllDecimalDigits(x[1..])
    else |x| > 0 && AllDecimalDigits(x)
  }

  /** An unsigned decimal literal: a mantissa, then possibly `e` or `E` and an exponent. */
  predicate DecimalLiteral(s: string)
  {
    Mantissa(s)
    || exists k :: 0 <= k < |s| && (s[k] == 'e' || s[k] == 'E') && Mantissa(s[..k]) && SignedDigits(s[k + 1..])
  }

  /** The part of `s` before its first `e` or `E`. */
  function BeforeExponent(s: string): (r: string)
    ensures |r| <= |s| && r == s[..|r|]
    ensures forall i :: 0 <= i < |r| ==> s[i] != 'e' && s[i] != 'E'
    ensures |r| < |s| ==> s[|r|] == 'e' || s[|r|] == 'E'
  {
    if |s| == 0 || s[0] == 'e' || s[0] == 'E' then "" else [s[0]] + BeforeExponent(s[1..])
  }

  /**
   * An unsigned decimal literal whose value is above zero: its mantissa
   * has a digit other than `0` (a literal so small that it rounds to zero
   * is not distinguished).
   */
  predicate DecimalPositive(s: string)
  {
    DecimalLiteral(s) && HasNonZeroDigit(BeforeExponent(s))
  }

  /**
   * `Number(s) > 0` for a string: the surrounding white space is dropped;
   * a `0x`, `0o` or `0b` literal (no sign allowed) is above zero when one
   * of its digits is not `0`; otherwise an optional `+` and either
   * `Infinity` or a decimal literal with a digit other than `0`. A `-`
   * sign, the empty string and anything that is not a numeric literal
   * (`NaN`) are not above zero.
   */
  predicate StringPositive(s: string)
  {
    var t := Text.Trim(s);
    if |t| >= 2 && t[0] == '0' && (t[1] in "xXoObB") then
      var prefix := if t[1] in "xX" then 'x' else if t[1] in "oO" then 'o' else 'b';
      var digits := t[2..];
      |digits| > 0 && (forall i :: 0 <= i < |digits| ==> IsRadixDigit(prefix, digits[i]))
      && exists i :: 0 <= i < |digits| && digits[i] != '0'
    else if |t| > 0 && t[0] == '-' then false
    else
      var u := if |t| > 0 && t[0] == '+' then t[1..] else t;
      u == "Infinity" || DecimalPositive(u)
  }

  /**
   * `x > 0` as JavaScript compares a value with a number: the value is
   * converted with `Number(x)`. `undefined` and objects are `NaN`, `null`
   * is 0, a boolean is 0 or 1, a string is parsed, and an array is
   * compared through its `String(x)` text.
   */
  predicate Positive(v: Json)
  {
    match v
    case JUndefined => false
    case JNull => false
    case JBool(b) => b
    case JNum(n) => n > 0.0
    case JStr(s) => StringPositive(s)
    case JArr(_) => StringPositive(JsString(v))
    case JObj(_) => false
  }

  /** A string of digits has no `e` or `E`, so it is all mantissa. */
  lemma {:induction false} BeforeExponentDigits(s: string)
    requires AllDecimalDigits(s)
    ensures BeforeExponent(s) == s
  {
    if |s| > 0 {
      assert IsDecimalDigit(s[0]);
      BeforeExponentDigits(s[1..]);
    }
  }

  /**
   * A string of decimal digits is above zero exactly when one of them is
   * not `0`: `"5" > 0` and `"007" > 0`, but not `"000"` or `""`.
   */
  lemma DigitStringPositive(s: string)
    requires AllDecimalDigits(s)
    ensures StringPositive(s) <==> HasNonZeroDigit(s)
  {
    if |s| > 0 {
      assert IsDecimalDigit(s[0]) && IsDecimalDigit(s[|s| - 1]);
    }
    Text.TrimUntouched(s);
    BeforeExponentDigits(s);
    if |s| >= 2 {
      assert IsDecimalDigit(s[1]);
    }
    assert !IsDecimalDigit("Infinity"[0]);
    if s == "" {
      assert !Mantissa(s);
    }
  }

  /** A value whose `Number(x)` would be negative, `NaN` or zero is never above zero: a `-` sign, `null`, `undefined`, an object. */
  lemma NotPositive(v: Json)
    requires v.JNull? || v.JUndefined? || v.JObj? || (v.JStr? && |v.s| > 0 && v.s[0] == '-')
    ensures !Positive(v)
  {
    if v.JStr? {
      Text.TrimKeepsFirst(v.s);
    }
  }

  /** `v.length > 0` on a value that is not `null` or `undefined`. */
  predicate NonEmpty(v: Json)
  {
    LengthProp(v).Some? && Positive(LengthProp(v).value)
  }
}
