/**
  Conversion between the trees of Go's JSON decoder and Starlark values. Cyclic Starlark
  values, and the decoding and encoding of JSON text, are not part of this model.
 */
module Conversion {
  import opened Basics
  import opened StarlarkValues

  /** A tree of `interface{}` values; `JBytes` stands for a `[]byte`, which JSON text never decodes to. */
  datatype Json =
    | JNull
    | JBool(b: bool)
    | JNumber(f: Float64)
    | JString(s: string)
    | JBytes(bs: string)
    | JList(elems: seq<Json>)
    | JObject(fields: map<string, Json>)

  /* ---------- JSON to Starlark ---------- */

  /** Without nulls and byte strings, at any depth. */
  predicate Convertible(j: Json) {
    match j
    case JNull => false
    case JBytes(_) => false
    case JList(elems) => forall i :: 0 <= i < |elems| ==> Convertible(elems[i])
    case JObject(fields) => forall k :: k in fields ==> Convertible(fields[k])
    case _ => true
  }

  /** The dictionary holds a field of that name, and in no other place. */
  ghost predicate HoldsAt(entries: seq<(Value, Value)>, i: int, k: string) {
    0 <= i < |entries| && entries[i].0 == String(k) && forall j :: 0 <= j < |entries| && entries[j].0 == String(k) ==> j == i
  }

  /** The Starlark value says the same as the tree, with the fields of objects in any order. */
  ghost predicate Means(j: Json, v: Value) {
    match j
    case JBool(b) => v == Bool(b)
    case JNumber(f) => v == Float(f)
    case JString(s) => v == String(s)
    case JList(elems) => v.List? && |v.elems| == |elems| && forall i :: 0 <= i < |elems| ==> Means(elems[i], v.elems[i])
    case JObject(fields) =>
      && v.Dict?
      && (forall i :: 0 <= i < |v.entries| ==> v.entries[i].0.String? && v.entries[i].0.s in fields)
      && (forall k :: k in fields ==> exists i :: HoldsAt(v.entries, i, k) && Means(fields[k], v.entries[i].1))
    case _ => false
  }

  method ConvertJSONToValue(j: Json) returns (r: Option<Value>)
    ensures r.Some? <==> Convertible(j)
    ensures r.Some? ==> Means(j, r.value)
    decreases j, 1
  {
    match j {
      case JBool(b) => return Some(Bool(b));
      case JNumber(f) => return Some(Float(f));
      case JString(s) => return Some(String(s));
      case JList(elems) => r := ConvertJSONListToValue(elems, j);
      case JObject(fields) => r := ConvertJSONDictToValue(fields, j);
      case _ => return None;
    }
  }

  method ConvertJSONListToValue(iv: seq<Json>, ghost all: Json) returns (r: Option<Value>)
    requires all == JList(iv)
    ensures r.Some? <==> Convertible(all)
    ensures r.Some? ==> Means(all, r.value)
    decreases all, 0
  {
    var res: seq<Value> := [];
    for i := 0 to |iv|
      invariant |res| == i && forall k :: 0 <= k < i ==> Convertible(iv[k]) && Means(iv[k], res[k])
    {
      var sv := ConvertJSONToValue(iv[i]);
      if sv.None? {
        return None;
      }
      res := res + [sv.value];
    }
    return Some(List(res));
  }

  /** The part of a dictionary made from some of the fields. */
  ghost predicate Filled(entries: seq<(Value, Value)>, fields: map<string, Json>, done: set<string>) {
    && done <= fields.Keys
    && (forall i :: 0 <= i < |entries| ==> entries[i].0.String? && entries[i].0.s in done)
    && (forall k :: k in done ==> Convertible(fields[k]) && exists i :: HoldsAt(entries, i, k) && Means(fields[k], entries[i].1))
  }

  lemma FillOne(entries: seq<(Value, Value)>, fields: map<string, Json>, done: set<string>, k: string, v: Value)
    requires Filled(entries, fields, done) && k in fields && k !in done && Convertible(fields[k]) && Means(fields[k], v)
    ensures Filled(entries + [(String(k), v)], fields, done + {k})
  {
    var entries' := entries + [(String(k), v)];
    forall q | q in done + {k}
      ensures Convertible(fields[q]) && exists i :: HoldsAt(entries', i, q) && Means(fields[q], entries'[i].1)
    {
      if q == k {
        assert HoldsAt(entries', |entries|, k) && Means(fields[k], entries'[|entries|].1);
      } else {
        var i :| HoldsAt(entries, i, q) && Means(fields[q], entries[i].1);
        assert HoldsAt(entries', i, q) && Means(fields[q], entries'[i].1);
      }
    }
  }

  method ConvertJSONDictToValue(iv: map<string, Json>, ghost all: Json) returns (r: Option<Value>)
    requires all == JObject(iv)
    ensures r.Some? <==> Convertible(all)
    ensures r.Some? ==> Means(all, r.value)
    decreases all, 0
  {
    var entries: seq<(Value, Value)> := [];
    var todo := iv.Keys;
    while todo != {}
      invariant todo <= iv.Keys && Filled(entries, iv, iv.Keys - todo)
      decreases |todo|
    {
      var k :| k in todo;
      assert iv[k] in iv.Values;
      var sv := ConvertJSONToValue(iv[k]);
      if sv.None? {
        return None;
      }
      FillOne(entries, iv, iv.Keys - todo, k, sv.value);
      assert iv.Keys - (todo - {k}) == iv.Keys - todo + {k};
      entries := entries + [(String(k), sv.value)];
      todo := todo - {k};
    }
    assert iv.Keys - todo == iv.Keys;
    return Some(Dict(entries));
  }

  /* ---------- Starlark to JSON ---------- */

  datatype Outcome = JOk(j: Json) | JErr | JPanic

  /** `toFloat` is Starlark's conversion of integers, which this model does not look into. */
  function ToJson(v: Value, toFloat: int -> Float64): Outcome
    decreases v, 1, 0
  {
    match v
    case Dict(entries) =>
      var fields := ToFields(v, |entries|, toFloat);
      if fields.Some? then JOk(JObject(fields.value)) else JPanic
    case String(s) => JOk(JString(s))
    case Bytes(bs) => JOk(JBytes(bs))
    case Bool(b) => JOk(JBool(b))
    case Int(n) => JOk(JNumber(toFloat(n)))
    case Float(f) => JOk(JNumber(f))
    case List(elems) => ToElems(v, 0, [], toFloat)
    case NoneValue => JOk(JNull)
    case Builtin => JOk(JNull)
    case Other(_) => JErr
  }

  /** The list from the `i`-th element on, after `done`: the first failure decides. */
  function ToElems(v: Value, i: nat, done: seq<Json>, toFloat: int -> Float64): Outcome
    requires v.List? && i <= |v.elems|
    decreases v, 0, |v.elems| - i
  {
    if i == |v.elems| then JOk(JList(done))
    else
      var e := ToJson(v.elems[i], toFloat);
      if e.JOk? then ToElems(v, i + 1, done + [e.j], toFloat) else e
  }

  /** The fields from the first `n` entries; nothing if one of their values cannot be converted. */
  function ToFields(v: Value, n: nat, toFloat: int -> Float64): Option<map<string, Json>>
    requires v.Dict? && n <= |v.entries|
    decreases v, 0, n
  {
    if n == 0 then Some(map[])
    else
      var before, (key, value) := ToFields(v, n - 1, toFloat), v.entries[n - 1];
      var jv := ToJson(value, toFloat);
      if before.None? || !jv.JOk? then None
      else if key.String? then Some(before.value[key.s := jv.j])
      else before
  }

  method ConvertValueToJSON(v: Value, toFloat: int -> Float64) returns (r: Outcome)
    ensures r == ToJson(v, toFloat)
    ensures r.JOk? <==> Supported(v)
    ensures r.JOk? ==> Says(v, r.j, toFloat)
    ensures r == JPanic <==> Panicking(v)
    decreases v, 1
  {
    ConvertsExactly(v, toFloat);
    ConversionIs(v, toFloat);
    match v {
      case Dict(entries) => r := ConvertDictToJSON(entries, v, toFloat);
      case String(s) => return JOk(JString(s));
      case Bytes(bs) => return JOk(JBytes(bs));
      case Bool(b) => return JOk(JBool(b));
      case Int(n) => return JOk(JNumber(toFloat(n)));
      case Float(f) => return JOk(JNumber(f));
      case List(elems) => r := ConvertListToJSON(elems, v, toFloat);
      case NoneValue => return JOk(JNull);
      case Builtin => return JOk(JNull);
      case Other(_) => return JErr;
    }
  }

  method ConvertListToJSON(l: seq<Value>, ghost all: Value, toFloat: int -> Float64) returns (r: Outcome)
    requires all == List(l)
    ensures r == ToJson(all, toFloat)
    decreases all, 0
  {
    var res: seq<Json> := [];
    for i := 0 to |l|
      invariant ToJson(all, toFloat) == ToElems(all, i, res, toFloat)
    {
      var e := ConvertValueToJSON(l[i], toFloat);
      if !e.JOk? {
        return e;
      }
      res := res + [e.j];
    }
    return JOk(JList(res));
  }

  /** Looking up a key of the dictionary finds its entry. */
  method ConvertDictToJSON(entries: seq<(Value, Value)>, ghost all: Value, toFloat: int -> Float64) returns (r: Outcome)
    requires all == Dict(entries)
    ensures r == ToJson(all, toFloat)
    decreases all, 0
  {
    var res: map<string, Json> := map[];
    for i := 0 to |entries|
      invariant ToFields(all, i, toFloat) == Some(res)
    {
      var (knv, kv) := entries[i];
      var jv := ConvertValueToJSON(kv, toFloat);
      if !jv.JOk? {
        NeverRecovers(all, i + 1, |entries|, toFloat);
        return JPanic;
      }
      if !knv.String? {
        continue;
      }
      res := res[knv.s := jv.j];
    }
    return JOk(JObject(res));
  }

  lemma {:induction false} NeverRecovers(v: Value, i: nat, n: nat, toFloat: int -> Float64)
    requires v.Dict? && i <= n <= |v.entries| && ToFields(v, i, toFloat).None?
    ensures ToFields(v, n, toFloat).None?
  {
    if i < n { NeverRecovers(v, i, n - 1, toFloat); }
  }

  /* ---------- round trip ---------- */

  lemma {:induction false} ListRoundTrip(elems: seq<Json>, v: Value, i: nat, toFloat: int -> Float64)
    requires v.List? && |v.elems| == |elems| && i <= |elems|
    requires forall k :: 0 <= k < |elems| ==> ToJson(v.elems[k], toFloat) == JOk(elems[k])
    ensures ToElems(v, i, elems[..i], toFloat) == JOk(JList(elems))
    decreases |elems| - i
  {
    if i == |elems| {
      assert elems[..i] == elems;
    } else {
      assert elems[..i] + [elems[i]] == elems[..i + 1];
      ListRoundTrip(elems, v, i + 1, toFloat);
    }
  }

  /** The fields of the first `n` entries, if their keys are strings and their values convert. */
  lemma {:induction false} FieldsOf(v: Value, n: nat, toFloat: int -> Float64)
    requires v.Dict? && n <= |v.entries|
    requires forall i :: 0 <= i < n ==> ToJson(v.entries[i].1, toFloat).JOk?
    ensures ToFields(v, n, toFloat).Some?
    ensures forall k :: k in ToFields(v, n, toFloat).value ==> exists i :: 0 <= i < n && v.entries[i].0 == String(k)
    ensures forall i, k :: HoldsAt(v.entries, i, k) && i < n ==>
      k in ToFields(v, n, toFloat).value && JOk(ToFields(v, n, toFloat).value[k]) == ToJson(v.entries[i].1, toFloat)
  {
    if n > 0 {
      FieldsOf(v, n - 1, toFloat);
      var before, key := ToFields(v, n - 1, toFloat).value, v.entries[n - 1].0;
      forall k | k in ToFields(v, n, toFloat).value ensures exists i :: 0 <= i < n && v.entries[i].0 == String(k) {
        if k in before {
          var i :| 0 <= i < n - 1 && v.entries[i].0 == String(k);
          assert v.entries[i].0 == String(k);
        } else {
          assert v.entries[n - 1].0 == String(k);
        }
      }
    }
  }

  /** A tree that was turned into a Starlark value, in any order of its fields, comes back unchanged. */
  lemma {:induction false} RoundTrip(j: Json, v: Value, toFloat: int -> Float64)
    requires Means(j, v)
    ensures ToJson(v, toFloat) == JOk(j)
    decreases j
  {
    match j
    case JList(elems) =>
      forall i | 0 <= i < |elems| ensures ToJson(v.elems[i], toFloat) == JOk(elems[i]) {
        RoundTrip(elems[i], v.elems[i], toFloat);
      }
      ListRoundTrip(elems, v, 0, toFloat);
    case JObject(fields) =>
      forall k | k in fields ensures exists i :: HoldsAt(v.entries, i, k) && ToJson(v.entries[i].1, toFloat) == JOk(fields[k]) {
        var i :| HoldsAt(v.entries, i, k) && Means(fields[k], v.entries[i].1);
        assert fields[k] in fields.Values;
        RoundTrip(fields[k], v.entries[i].1, toFloat);
      }
      ObjectRoundTrip(fields, v, toFloat);
    case _ =>
  }

  lemma ObjectRoundTrip(fields: map<string, Json>, v: Value, toFloat: int -> Float64)
    requires v.Dict? && forall i :: 0 <= i < |v.entries| ==> v.entries[i].0.String? && v.entries[i].0.s in fields
    requires forall k :: k in fields ==> exists i :: HoldsAt(v.entries, i, k) && ToJson(v.entries[i].1, toFloat) == JOk(fields[k])
    ensures ToJson(v, toFloat) == JOk(JObject(fields))
  {
    forall i | 0 <= i < |v.entries| ensures ToJson(v.entries[i].1, toFloat).JOk? {
      var k := v.entries[i].0.s;
      var j :| HoldsAt(v.entries, j, k) && ToJson(v.entries[j].1, toFloat) == JOk(fields[k]);
      assert j == i;
    }
    FieldsOf(v, |v.entries|, toFloat);
    var got := ToFields(v, |v.entries|, toFloat).value;
    assert got.Keys == fields.Keys;
    assert got == fields;
  }

  /* ---------- what survives the way to JSON ---------- */

  /** Every value in it, at any depth and under any key, is of a kind the conversion knows. */
  predicate Supported(v: Value) {
    match v
    case List(elems) => forall i :: 0 <= i < |elems| ==> Supported(elems[i])
    case Dict(entries) => forall i :: 0 <= i < |entries| ==> Supported(entries[i].1)
    case Other(_) => false
    case _ => true
  }

  lemma {:induction false} ElemsConvert(v: Value, i: nat, done: seq<Json>, toFloat: int -> Float64)
    requires v.List? && i <= |v.elems|
    ensures ToElems(v, i, done, toFloat).JOk? <==> forall k :: i <= k < |v.elems| ==> ToJson(v.elems[k], toFloat).JOk?
    decreases |v.elems| - i
  {
    if i < |v.elems| && ToJson(v.elems[i], toFloat).JOk? {
      ElemsConvert(v, i + 1, done + [ToJson(v.elems[i], toFloat).j], toFloat);
    }
  }

  lemma {:induction false} FieldsConvert(v: Value, n: nat, toFloat: int -> Float64)
    requires v.Dict? && n <= |v.entries|
    ensures ToFields(v, n, toFloat).Some? <==> forall i :: 0 <= i < n ==> ToJson(v.entries[i].1, toFloat).JOk?
  {
    if n > 0 { FieldsConvert(v, n - 1, toFloat); }
  }

  /**
    A value converts if and only if everything in it is supported. A dictionary never
    reports an error: with anything unsupported in it the conversion panics.
   */
  lemma {:induction false} ConvertsExactly(v: Value, toFloat: int -> Float64)
    ensures ToJson(v, toFloat).JOk? <==> Supported(v)
    ensures v.Dict? ==> (ToJson(v, toFloat) == JPanic <==> !Supported(v))
    decreases v
  {
    match v
    case List(elems) =>
      forall i | 0 <= i < |elems| ensures ToJson(elems[i], toFloat).JOk? <==> Supported(elems[i]) {
        ConvertsExactly(elems[i], toFloat);
      }
      ElemsConvert(v, 0, [], toFloat);
    case Dict(entries) =>
      forall i | 0 <= i < |entries| ensures ToJson(entries[i].1, toFloat).JOk? <==> Supported(entries[i].1) {
        ConvertsExactly(entries[i].1, toFloat);
      }
      FieldsConvert(v, |entries|, toFloat);
    case _ =>
  }

  /* ---------- what a Starlark value says as JSON ---------- */

  /** The last entry of a dictionary under a string key. */
  predicate LastUnder(entries: seq<(Value, Value)>, i: int, k: string) {
    0 <= i < |entries| && entries[i].0 == String(k) && forall j :: i < j < |entries| ==> entries[j].0 != String(k)
  }

  /**
    The tree says the same as the value: numbers by their floating-point value, `None` and
    functions as null, bytes as they are, and of a dictionary what is under its string keys.
   */
  ghost predicate Says(v: Value, j: Json, toFloat: int -> Float64)
    decreases v
  {
    match v
    case NoneValue => j == JNull
    case Builtin => j == JNull
    case Bool(b) => j == JBool(b)
    case Int(n) => j == JNumber(toFloat(n))
    case Float(f) => j == JNumber(f)
    case String(s) => j == JString(s)
    case Bytes(bs) => j == JBytes(bs)
    case List(elems) =>
      j.JList? && |j.elems| == |elems| && forall i :: 0 <= i < |elems| ==> Says(elems[i], j.elems[i], toFloat)
    case Dict(entries) =>
      && j.JObject?
      && (forall k :: k in j.fields ==> exists i :: LastUnder(entries, i, k))
      && (forall i, k :: LastUnder(entries, i, k) ==> k in j.fields && Says(entries[i].1, j.fields[k], toFloat))
    case Other(_) => false
  }

  /** The element that decides a list is, or has in it, a dictionary with something unsupported. */
  ghost predicate Panicking(v: Value) {
    match v
    case Dict(entries) => !Supported(v)
    case List(elems) => exists i :: 0 <= i < |elems| && Panicking(elems[i]) && forall j :: 0 <= j < i ==> Supported(elems[j])
    case _ => false
  }

  /** What a list converts to, if all its elements convert. */
  lemma {:induction false} ElemsAre(v: Value, i: nat, done: seq<Json>, toFloat: int -> Float64)
    requires v.List? && i <= |v.elems| && forall k :: i <= k < |v.elems| ==> ToJson(v.elems[k], toFloat).JOk?
    ensures var r := ToElems(v, i, done, toFloat);
      && r.JOk? && r.j.JList? && |r.j.elems| == |done| + |v.elems| - i
      && (forall k :: 0 <= k < |done| ==> r.j.elems[k] == done[k])
      && (forall k :: i <= k < |v.elems| ==> JOk(r.j.elems[|done| + k - i]) == ToJson(v.elems[k], toFloat))
    decreases |v.elems| - i
  {
    if i < |v.elems| {
      var e := ToJson(v.elems[i], toFloat).j;
      ElemsAre(v, i + 1, done + [e], toFloat);
      var r := ToElems(v, i, done, toFloat);
      forall k | 0 <= k < |done| ensures r.j.elems[k] == done[k] { assert (done + [e])[k] == done[k]; }
      assert (done + [e])[|done|] == e;
    }
  }

  /** The last entry under a key decides. */
  lemma {:induction false} FieldsAre(v: Value, n: nat, toFloat: int -> Float64)
    requires v.Dict? && n <= |v.entries| && forall i :: 0 <= i < n ==> ToJson(v.entries[i].1, toFloat).JOk?
    ensures ToFields(v, n, toFloat).Some?
    ensures forall k :: k in ToFields(v, n, toFloat).value ==> exists i :: LastUnder(v.entries[..n], i, k)
    ensures forall i, k :: LastUnder(v.entries[..n], i, k) ==>
      k in ToFields(v, n, toFloat).value && JOk(ToFields(v, n, toFloat).value[k]) == ToJson(v.entries[i].1, toFloat)
  {
    if n > 0 {
      FieldsAre(v, n - 1, toFloat);
      var es, before := v.entries[..n], v.entries[..n - 1];
      assert es == before + [v.entries[n - 1]];
      forall k | k in ToFields(v, n, toFloat).value ensures exists i :: LastUnder(es, i, k) {
        if v.entries[n - 1].0 == String(k) {
          assert LastUnder(es, n - 1, k);
        } else {
          var i :| LastUnder(before, i, k);
          assert LastUnder(es, i, k);
        }
      }
      forall i, k | LastUnder(es, i, k)
        ensures k in ToFields(v, n, toFloat).value && JOk(ToFields(v, n, toFloat).value[k]) == ToJson(v.entries[i].1, toFloat)
      {
        if i < n - 1 { assert LastUnder(before, i, k) && es[n - 1].0 != String(k); }
      }
    }
  }

  /** Some entry is the last one under a key that is there. */
  lemma {:induction false} SomeLast(entries: seq<(Value, Value)>, i: nat, k: string) returns (last: nat)
    requires i < |entries| && entries[i].0 == String(k)
    ensures LastUnder(entries, last, k)
    decreases |entries| - i
  {
    if j :| i < j < |entries| && entries[j].0 == String(k) { last := SomeLast(entries, j, k); } else { last := i; }
  }

  /** No two trees say the same of one value. */
  lemma {:induction false} SaysOneThing(v: Value, a: Json, b: Json, toFloat: int -> Float64)
    requires Says(v, a, toFloat) && Says(v, b, toFloat)
    ensures a == b
    decreases v
  {
    match v
    case List(elems) =>
      forall i | 0 <= i < |elems| ensures a.elems[i] == b.elems[i] { SaysOneThing(elems[i], a.elems[i], b.elems[i], toFloat); }
      assert a.elems == b.elems;
    case Dict(entries) =>
      forall k ensures k in a.fields <==> k in b.fields {
        if k in a.fields { var i :| LastUnder(entries, i, k); }
        if k in b.fields { var i :| LastUnder(entries, i, k); }
      }
      forall k | k in a.fields ensures a.fields[k] == b.fields[k] {
        var i :| LastUnder(entries, i, k);
        SaysOneThing(entries[i].1, a.fields[k], b.fields[k], toFloat);
      }
      assert a.fields == b.fields;
    case _ =>
  }

  lemma {:induction false} SaysWhatItIs(v: Value, toFloat: int -> Float64)
    requires Supported(v)
    ensures ToJson(v, toFloat).JOk? && Says(v, ToJson(v, toFloat).j, toFloat)
    decreases v
  {
    match v
    case List(elems) =>
      forall i | 0 <= i < |elems| ensures ToJson(elems[i], toFloat).JOk? && Says(elems[i], ToJson(elems[i], toFloat).j, toFloat) {
        SaysWhatItIs(elems[i], toFloat);
      }
      ElemsAre(v, 0, [], toFloat);
    case Dict(entries) =>
      forall i | 0 <= i < |entries|
        ensures ToJson(entries[i].1, toFloat).JOk? && Says(entries[i].1, ToJson(entries[i].1, toFloat).j, toFloat)
      {
        SaysWhatItIs(entries[i].1, toFloat);
      }
      FieldsAre(v, |entries|, toFloat);
      assert entries[..|entries|] == entries;
    case _ =>
  }

  /** A conversion gives a tree exactly if the value is supported and the tree says the same; and it panics exactly when. */
  lemma {:induction false} ConversionIs(v: Value, toFloat: int -> Float64)
    ensures forall j :: ToJson(v, toFloat) == JOk(j) <==> Supported(v) && Says(v, j, toFloat)
    ensures ToJson(v, toFloat) == JPanic <==> Panicking(v)
    decreases v
  {
    ConvertsExactly(v, toFloat);
    if Supported(v) {
      SaysWhatItIs(v, toFloat);
      forall j | Says(v, j, toFloat) ensures ToJson(v, toFloat) == JOk(j) {
        SaysOneThing(v, j, ToJson(v, toFloat).j, toFloat);
      }
    }
    if v.List? { ListPanics(v, toFloat); }
  }

  lemma {:induction false} ListPanics(v: Value, toFloat: int -> Float64)
    requires v.List?
    ensures ToJson(v, toFloat) == JPanic <==> Panicking(v)
    decreases v, 0
  {
    forall i | 0 <= i < |v.elems|
      ensures ToJson(v.elems[i], toFloat) == JPanic <==> Panicking(v.elems[i])
      ensures ToJson(v.elems[i], toFloat).JOk? <==> Supported(v.elems[i])
    {
      ConversionIs(v.elems[i], toFloat);
      ConvertsExactly(v.elems[i], toFloat);
    }
    FirstFailure(v, 0, [], toFloat);
  }

  lemma {:induction false} FirstFailure(v: Value, i: nat, done: seq<Json>, toFloat: int -> Float64)
    requires v.List? && i <= |v.elems|
    ensures ToElems(v, i, done, toFloat) == JPanic <==>
      exists k :: i <= k < |v.elems| && ToJson(v.elems[k], toFloat) == JPanic
                  && forall j :: i <= j < k ==> ToJson(v.elems[j], toFloat).JOk?
    decreases |v.elems| - i
  {
    if i < |v.elems| && ToJson(v.elems[i], toFloat).JOk? {
      FirstFailure(v, i + 1, done + [ToJson(v.elems[i], toFloat).j], toFloat);
    }
  }

  ghost predicate DistinctKeys(entries: seq<(Value, Value)>) {
    forall i, j :: 0 <= i < j < |entries| ==> entries[i].0 != entries[j].0
  }

  /** Of a supported dictionary exactly the entries with string keys are kept, each with the conversion of its value. */
  lemma {:induction false} KeepsExactlyStringKeys(entries: seq<(Value, Value)>, toFloat: int -> Float64)
    requires DistinctKeys(entries) && Supported(Dict(entries))
    ensures var r := ToJson(Dict(entries), toFloat);
      && r.JOk? && r.j.JObject?
      && (forall k :: k in r.j.fields <==> exists i :: 0 <= i < |entries| && entries[i].0 == String(k))
      && (forall i :: 0 <= i < |entries| && entries[i].0.String? && entries[i].0.s in r.j.fields ==>
            ToJson(entries[i].1, toFloat) == JOk(r.j.fields[entries[i].0.s]))
  {
    var v := Dict(entries);
    forall i | 0 <= i < |entries| ensures ToJson(v.entries[i].1, toFloat).JOk? {
      ConvertsExactly(entries[i].1, toFloat);
    }
    FieldsOf(v, |entries|, toFloat);
    forall i | 0 <= i < |entries| && entries[i].0.String? ensures HoldsAt(entries, i, entries[i].0.s) {}
  }
}
