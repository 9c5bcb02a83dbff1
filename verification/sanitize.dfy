/**
 * The request-logging redactor: a copy of the request body in which every
 * value stored under a sensitive key, at any depth, is replaced by
 * `"[REDACTED]"`.
 */
module Sanitize {
  import opened Js

  /** The keys whose values are never logged; matched exactly, case included. */
  const SensitiveKeys: set<string> :=
    {"password", "currentPassword", "newPassword", "confirmPassword", "salt", "token", "secret"}

  const Redacted: string := "[REDACTED]"

  /** `typeof v === "object"`: `null`, arrays and objects. */
  predicate TypeofObject(v: Json)
  {
    v.JNull? || v.JArr? || v.JObj?
  }

  /**
   * `sanitize(data)`: falsy values and primitives come back as they are;
   * an array is mapped element by element; an object is rebuilt key by
   * key, in enumeration order, each key set to the redaction marker or to
   * its sanitized value.
   */
  function Sanitize(v: Json): (r: Json)
    ensures !Truthy(v) || !TypeofObject(v) ==> r == v
    ensures v.JArr? ==> r.JArr? && |r.items| == |v.items|
    ensures v.JObj? ==> r.JObj?
    decreases v
  {
    match v
    case JArr(items) => JArr(seq(|items|, i requires 0 <= i < |items| => Sanitize(items[i])))
    case JObj(fields) => JObj(Assign([], SanitizeFields(fields)))
    case _ => v
  }

  /** The value one field is set to in the copy, paired with its key. */
  function SanitizeField(f: Field): (r: Field)
    ensures r.key == f.key
    ensures f.key in SensitiveKeys ==> r.val == JStr(Redacted)
    ensures f.key !in SensitiveKeys ==> r.val == Sanitize(f.val)
    decreases f, 1
  {
    Field(f.key, if f.key in SensitiveKeys then JStr(Redacted) else Sanitize(f.val))
  }

  /** The assignments the for-in loop makes, in order. */
  function SanitizeFields(fields: seq<Field>): (r: seq<Field>)
    ensures |r| == |fields|
    ensures forall i :: 0 <= i < |fields| ==> r[i].key == fields[i].key
    decreases fields
  {
    seq(|fields|, i requires 0 <= i < |fields| => SanitizeField(fields[i]))
  }

  /**
   * `sanitize` as the source runs it: recursion on the structure, with the
   * array handled element by element and the object filled key by key.
   */
  method SanitizeData(data: Json) returns (r: Json)
    ensures r == Sanitize(data)
    decreases data
  {
    if !Truthy(data) || !TypeofObject(data) {
      return data;
    }
    if data.JArr? {
      var items: seq<Json> := [];
      for i := 0 to |data.items|
        invariant items == seq(i, k requires 0 <= k < i => Sanitize(data.items[k]))
      {
        var x := SanitizeData(data.items[i]);
        items := items + [x];
      }
      return JArr(items);
    }
    var fields := data.fields;
    ghost var settings := SanitizeFields(fields);
    var sanitized: seq<Field> := [];
    for i := 0 to |fields|
      invariant Assign(sanitized, settings[i..]) == Assign([], settings)
    {
      var key := fields[i].key;
      assert settings[i..][0] == settings[i] && settings[i..][1..] == settings[i + 1..];
      if key in SensitiveKeys {
        sanitized := SetField(sanitized, key, JStr(Redacted));
      } else {
        assert fields[i] in fields;
        var x := SanitizeData(fields[i].val);
        sanitized := SetField(sanitized, key, x);
      }
    }
    assert settings[|fields|..] == [];
    return JObj(sanitized);
  }

  /** Every object, at any depth, has distinct keys, as JavaScript objects do. */
  predicate WellKeyed(v: Json)
    decreases v
  {
    match v
    case JArr(items) => forall i :: 0 <= i < |items| ==> WellKeyed(items[i])
    case JObj(fields) => DistinctKeys(fields) && forall i :: 0 <= i < |fields| ==> WellKeyed(fields[i].val)
    case _ => true
  }

  /** No sensitive key, at any depth, holds anything but the redaction marker. */
  predicate Clean(v: Json)
    decreases v
  {
    match v
    case JArr(items) => forall i :: 0 <= i < |items| ==> Clean(items[i])
    case JObj(fields) =>
      forall i :: 0 <= i < |fields| ==>
        (fields[i].key in SensitiveKeys ==> fields[i].val == JStr(Redacted)) && Clean(fields[i].val)
    case _ => true
  }

  /**
   * For an object with distinct keys the copy has the same keys in the
   * same order, each sensitive one redacted and each other one sanitized.
   */
  lemma ObjectShape(fields: seq<Field>)
    requires DistinctKeys(fields)
    ensures Sanitize(JObj(fields)) == JObj(SanitizeFields(fields))
    ensures Keys(Sanitize(JObj(fields)).fields) == Keys(fields)
  {
    var m := SanitizeFields(fields);
    assert DistinctKeys(m) by {
      forall i, j | 0 <= i < j < |m| ensures m[i].key != m[j].key {
        assert m[i].key == fields[i].key && m[j].key == fields[j].key;
      }
    }
    AssignShape([], m);
    assert [] + m == m;
    assert Keys(m) == Keys(fields);
  }

  /** The copy is clean and well keyed, whatever the input. */
  lemma {:induction false} SanitizeCleans(v: Json)
    ensures Clean(Sanitize(v)) && WellKeyed(Sanitize(v))
    decreases v
  {
    match v
    case JArr(items) =>
      forall i | 0 <= i < |items| ensures Clean(Sanitize(items[i])) && WellKeyed(Sanitize(items[i])) {
        SanitizeCleans(items[i]);
      }
    case JObj(fields) =>
      var m := SanitizeFields(fields);
      var r := Assign([], m);
      AssignShape([], m);
      forall i | 0 <= i < |r|
        ensures (r[i].key in SensitiveKeys ==> r[i].val == JStr(Redacted))
        ensures Clean(r[i].val) && WellKeyed(r[i].val)
      {
        assert r[i] in r;
        var j :| 0 <= j < |m| && m[j] == r[i];
        assert fields[j] in fields;
        if fields[j].key !in SensitiveKeys {
          SanitizeCleans(fields[j].val);
        }
      }
    case _ =>
  }

  /** A clean, well-keyed value is its own copy. */
  lemma {:induction false} CleanIsFixed(v: Json)
    requires Clean(v) && WellKeyed(v)
    ensures Sanitize(v) == v
    decreases v
  {
    match v
    case JArr(items) =>
      forall i | 0 <= i < |items| ensures Sanitize(items[i]) == items[i] {
        CleanIsFixed(items[i]);
      }
    case JObj(fields) =>
      forall i | 0 <= i < |fields| ensures SanitizeField(fields[i]) == fields[i] {
        if fields[i].key !in SensitiveKeys {
          assert fields[i] in fields;
          CleanIsFixed(fields[i].val);
        }
      }
      ObjectShape(fields);
    case _ =>
  }

  /**
   * The values the redactor leaves unchanged are exactly the clean,
   * well-keyed ones.
   */
  lemma FixedPoints(v: Json)
    ensures Sanitize(v) == v <==> Clean(v) && WellKeyed(v)
  {
    SanitizeCleans(v);
    if Clean(v) && WellKeyed(v) {
      CleanIsFixed(v);
    }
  }

  /** Sanitizing twice gives the same as sanitizing once. */
  lemma Idempotent(v: Json)
    ensures Sanitize(Sanitize(v)) == Sanitize(v)
  {
    SanitizeCleans(v);
    CleanIsFixed(Sanitize(v));
  }

  /** Key matching is case-sensitive: `Password` is copied as it is. */
  lemma CaseSensitive(x: Json)
    requires !TypeofObject(x)
    ensures Sanitize(JObj([Field("Password", x)])) == JObj([Field("Password", x)])
  {
    assert "Password" !in SensitiveKeys by {
      assert "Password"[0] != "password"[0];
    }
    ObjectShape([Field("Password", x)]);
  }

  /** The request as the middleware sees it; `sanitizedBody` is `None` while unset. */
  class Request {
    var body: Json
    var sanitizedBody: Option<Json>

    constructor(body: Json)
      ensures this.body == body && sanitizedBody.None?
    {
      this.body := body;
      sanitizedBody := None;
    }
  }

  /**
   * The middleware: a truthy body gets its sanitized copy, or `null` when
   * sanitizing throws (`throws` stands for the exceptions a getter or a
   * cyclic body raise); a falsy body leaves `sanitizedBody` unset. The body
   * itself is not touched.
   */
  method SanitizeRequest(req: Request, throws: bool)
    modifies req
    ensures req.body == old(req.body)
    ensures !Truthy(req.body) ==> req.sanitizedBody == old(req.sanitizedBody)
    ensures Truthy(req.body) && !throws ==> req.sanitizedBody == Some(Sanitize(req.body))
    ensures Truthy(req.body) && throws ==> req.sanitizedBody == Some(JNull)
  {
    if Truthy(req.body) {
      if throws {
        req.sanitizedBody := Some(JNull);
      } else {
        var copy := SanitizeData(req.body);
        req.sanitizedBody := Some(copy);
      }
    }
  }
}
