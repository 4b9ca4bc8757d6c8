/** What the storefront's API calls (host-client/src/app/_api/) share: the
    query-string builder `URLSearchParams`, the URL a call requests, the
    request it sends, and field-level readings of the Zod schemas they check
    bodies and responses against. Endpoints are parameters, since they come
    from the environment. */
module Storefront {
  import opened Wrappers
  import opened Json
  import opened Zod
  import Text

  const ResponseValidationFailed := "Response validation failed"
  const RequestValidationFailed := "Request validation failed"
  const ValidationFailed := "Validation failed"

  // ---------------------------------------------------------------------------
  // Query strings

  /** A parameter value: a string, or a number rendered by `toString()`. */
  datatype ParamValue = Text(s: string) | Number(x: real)
  datatype Param = Param(key: string, value: ParamValue)

  /** `new URLSearchParams()`: the key/value pairs appended so far. */
  class SearchParams {
    var pairs: seq<Param>

    constructor ()
      ensures pairs == []
    {
      pairs := [];
    }

    /** `params.append(key, value)`. */
    method Append(key: string, value: ParamValue)
      modifies this
      ensures pairs == old(pairs) + [Param(key, value)]
    {
      pairs := pairs + [Param(key, value)];
    }
  }

  /** A string filter's value when it is truthy, that is present and not empty. */
  function TextIfTruthy(s: Option<string>): (v: Option<ParamValue>)
    ensures v.Some? <==> s.Some? && s.value != ""
    ensures v.Some? ==> v.value == Text(s.value)
  {
    if s.Some? && s.value != "" then Some(Text(s.value)) else None
  }

  /** A number filter's value whenever it is defined, 0 included. */
  function NumberIfDefined(x: Option<real>): (v: Option<ParamValue>)
    ensures v.Some? <==> x.Some?
    ensures v.Some? ==> v.value == Number(x.value)
  {
    if x.Some? then Some(Number(x.value)) else None
  }

  /** The parameters a run of guarded `append` calls produces: key `keys[i]`
      with value `values[i]` for each defined value, in that order. */
  function Chosen(keys: seq<string>, values: seq<Option<ParamValue>>): (ps: seq<Param>)
    requires |keys| == |values|
    ensures |ps| <= |keys|
    decreases |keys|
  {
    if |keys| == 0 then []
    else (if values[0].Some? then [Param(keys[0], values[0].value)] else []) + Chosen(keys[1..], values[1..])
  }

  function KeysOf(ps: seq<Param>): (ks: seq<string>)
    ensures |ks| == |ps| && forall i :: 0 <= i < |ps| ==> ks[i] == ps[i].key
  {
    seq(|ps|, i requires 0 <= i < |ps| => ps[i].key)
  }

  /** `params.get(key)`: the value of the first pair with that key. */
  function ValueOf(ps: seq<Param>, key: string): (v: Option<ParamValue>)
    ensures v.Some? ==> exists i :: 0 <= i < |ps| && ps[i] == Param(key, v.value)
    ensures v.None? ==> forall i :: 0 <= i < |ps| ==> ps[i].key != key
    decreases |ps|
  {
    if |ps| == 0 then None
    else if ps[0].key == key then Some(ps[0].value)
    else ValueOf(ps[1..], key)
  }

  /** `xs` is `ys` with some elements left out, the rest in their order. */
  predicate SubsequenceOf(xs: seq<string>, ys: seq<string>)
    decreases |ys|
  {
    |xs| == 0 || (|ys| > 0 && if xs[0] == ys[0] then SubsequenceOf(xs[1..], ys[1..]) else SubsequenceOf(xs, ys[1..]))
  }

  predicate Distinct(keys: seq<string>) {
    forall i, j :: 0 <= i < j < |keys| ==> keys[i] != keys[j]
  }

  /** The chosen parameters keep the keys' order and leave out exactly the
      undefined values: each key carries its own value or is absent, and
      none is chosen only when no value is defined. */
  lemma ChosenFollowsKeys(keys: seq<string>, values: seq<Option<ParamValue>>)
    requires |keys| == |values| && Distinct(keys)
    ensures SubsequenceOf(KeysOf(Chosen(keys, values)), keys)
    ensures forall i :: 0 <= i < |keys| ==> ValueOf(Chosen(keys, values), keys[i]) == values[i]
    ensures Chosen(keys, values) == [] <==> forall i :: 0 <= i < |values| ==> values[i].None?
  {
    ChosenInOrder(keys, values);
    forall i | 0 <= i < |keys| ensures ValueOf(Chosen(keys, values), keys[i]) == values[i] {
      ChosenValue(keys, values, i);
    }
    ChosenEmpty(keys, values);
  }

  lemma {:induction false} ChosenInOrder(keys: seq<string>, values: seq<Option<ParamValue>>)
    requires |keys| == |values| && Distinct(keys)
    ensures SubsequenceOf(KeysOf(Chosen(keys, values)), keys)
    decreases |keys|
  {
    if |keys| > 0 {
      var rest := Chosen(keys[1..], values[1..]);
      ChosenInOrder(keys[1..], values[1..]);
      if values[0].Some? {
        var ps := [Param(keys[0], values[0].value)] + rest;
        assert KeysOf(ps)[1..] == KeysOf(rest);
      } else if rest != [] {
        ChosenKeysAmong(keys[1..], values[1..]);
        assert rest[0].key in keys[1..];
        assert keys[0] !in keys[1..];
        assert Chosen(keys, values) == rest;
        assert KeysOf(rest)[0] != keys[0];
      }
    }
  }

  lemma {:induction false} ChosenValue(keys: seq<string>, values: seq<Option<ParamValue>>, i: nat)
    requires |keys| == |values| && Distinct(keys) && i < |keys|
    ensures ValueOf(Chosen(keys, values), keys[i]) == values[i]
    decreases |keys|
  {
    var rest := Chosen(keys[1..], values[1..]);
    if i == 0 {
      if values[0].None? {
        ChosenKeysAmong(keys[1..], values[1..]);
        assert keys[0] !in keys[1..];
        assert forall k :: 0 <= k < |rest| ==> rest[k].key != keys[0];
        ValueOfAbsent(rest, keys[0]);
      }
    } else {
      ChosenValue(keys[1..], values[1..], i - 1);
      assert keys[1..][i - 1] == keys[i];
      assert keys[0] != keys[i];
      if values[0].Some? {
        assert ([Param(keys[0], values[0].value)] + rest)[1..] == rest;
      } else {
        assert Chosen(keys, values) == rest;
      }
    }
  }

  lemma ValueOfAbsent(ps: seq<Param>, key: string)
    requires forall k :: 0 <= k < |ps| ==> ps[k].key != key
    ensures ValueOf(ps, key).None?
  {
  }

  lemma {:induction false} ChosenEmpty(keys: seq<string>, values: seq<Option<ParamValue>>)
    requires |keys| == |values|
    ensures Chosen(keys, values) == [] <==> forall i :: 0 <= i < |values| ==> values[i].None?
    decreases |keys|
  {
    if |keys| > 0 {
      ChosenEmpty(keys[1..], values[1..]);
      assert forall i :: 1 <= i < |values| ==> values[1..][i - 1] == values[i];
    }
  }

  lemma {:induction false} ChosenKeysAmong(keys: seq<string>, values: seq<Option<ParamValue>>)
    requires |keys| == |values|
    ensures forall i :: 0 <= i < |Chosen(keys, values)| ==> Chosen(keys, values)[i].key in keys
    decreases |keys|
  {
    if |keys| > 0 {
      ChosenKeysAmong(keys[1..], values[1..]);
    }
  }

  /** `key=value`, with numbers rendered by `show`; percent-encoding is not
      modelled. */
  function Render(p: Param, show: real -> string): (text: string)
    ensures '=' in text
  {
    var v := match p.value case Text(s) => s case Number(x) => show(x);
    assert (p.key + "=" + v)[|p.key|] == '=';
    p.key + "=" + v
  }

  /** `params.toString()`. */
  function QueryString(ps: seq<Param>, show: real -> string): (q: string)
    ensures q == "" <==> ps == []
  {
    var parts := seq(|ps|, i requires 0 <= i < |ps| => Render(ps[i], show));
    if |parts| > 0 then
      Text.JoinStartsWithFirst(parts, "&");
      Text.Join(parts, "&")
    else Text.Join(parts, "&")
  }

  /** `queryParams ? endpoint + '?' + queryParams : endpoint`. */
  function UrlWithQuery(endpoint: string, ps: seq<Param>, show: real -> string): (url: string)
    ensures ps == [] ==> url == endpoint
    ensures ps != [] ==> url == endpoint + "?" + QueryString(ps, show) && url != endpoint
  {
    var q := QueryString(ps, show);
    if q != "" then endpoint + "?" + q else endpoint
  }

  /** `${endpoint}/${id}`. */
  function ItemUrl(endpoint: string, id: string): (url: string)
    ensures |url| == |endpoint| + 1 + |id|
    ensures url[..|endpoint|] == endpoint && url[|endpoint|] == '/' && url[|endpoint| + 1..] == id
  {
    endpoint + "/" + id
  }

  // ---------------------------------------------------------------------------
  // Requests

  /** A form field as `formData.get` returns it, in a request body: its
      string, or `null` when the form does not carry the field (`None`). */
  function FormText(v: Option<string>): (j: Json)
    ensures j.JStr? <==> v.Some?
    ensures v.Some? ==> j.s == v.value
    ensures v.None? ==> j == JNull
  {
    if v.Some? then JStr(v.value) else JNull
  }

  datatype Verb = Get | Post | Patch

  /** The request `apiFetch` is asked to send. */
  datatype Request = Request(verb: Verb, url: string, body: Option<Json>)

  /** A body check followed by the request: the error thrown before any
      request, or the request sent with the body as the caller gave it. */
  function SendChecked(s: Schema, body: Json, fallback: string, verb: Verb, url: string): (r: Result<Request>)
    ensures r.Ok? <==> Accepts(s, body)
    ensures r.Ok? ==> r.value == Request(verb, url, Some(body))
    ensures r.Err? ==> r.message == ErrorText(Parse(s, body, []).issues, fallback)
  {
    var checked := Validate(s, body, fallback);
    if checked.Err? then Err(checked.message) else Ok(Request(verb, url, Some(body)))
  }

  /** A value that is not an object or array only has a root-level issue, so
      the thrown message is the fallback. */
  lemma WrongShapeGivesFallback(s: Schema, j: Json, fallback: string)
    requires (s.ZArray? && !j.JArr?) || (s.ZObject? && !j.JObj?)
    ensures Validate(s, j, fallback) == Err(fallback)
  {
    assert Parse(s, j, []).issues == [Issue([], if s.ZArray? then ExpectedArray else ExpectedObject)];
    assert FieldMessages(Parse(s, j, []).issues) == [];
  }

  // ---------------------------------------------------------------------------
  // Field-level readings of an object schema's rules

  predicate StringAt(es: seq<Entry>, key: string, minLength: nat) {
    var v := Lookup(es, key); v.Some? && v.value.JStr? && Text.Utf16Length(v.value.s) >= minLength
  }

  predicate StringBetweenAt(es: seq<Entry>, key: string, minLength: nat, maxLength: nat) {
    var v := Lookup(es, key); v.Some? && v.value.JStr? && minLength <= Text.Utf16Length(v.value.s) <= maxLength
  }

  predicate PositiveAt(es: seq<Entry>, key: string) {
    var v := Lookup(es, key); v.Some? && v.value.JNum? && v.value.n > 0.0
  }

  predicate NonNegativeAt(es: seq<Entry>, key: string) {
    var v := Lookup(es, key); v.Some? && v.value.JNum? && v.value.n >= 0.0
  }

  predicate OneOfAt(es: seq<Entry>, key: string, options: seq<string>) {
    var v := Lookup(es, key); v.Some? && v.value.JStr? && v.value.s in options
  }

  predicate OptionalStringAt(es: seq<Entry>, key: string) {
    var v := Lookup(es, key); v.None? || v.value.JStr?
  }

  predicate OptionalNumberAt(es: seq<Entry>, key: string) {
    var v := Lookup(es, key); v.None? || v.value.JNum?
  }

  predicate OptionalPositiveAt(es: seq<Entry>, key: string) {
    var v := Lookup(es, key); v.None? || (v.value.JNum? && v.value.n > 0.0)
  }

  predicate OptionalNonNegativeAt(es: seq<Entry>, key: string) {
    var v := Lookup(es, key); v.None? || (v.value.JNum? && v.value.n >= 0.0)
  }

  /** A nested schema's rules at `key`; optional when `optional` is set. */
  predicate NestedAt(es: seq<Entry>, key: string, s: Schema, optional: bool) {
    var v := Lookup(es, key); if v.None? then optional else Accepts(s, v.value)
  }

  // ---------------------------------------------------------------------------
  // What one field of each kind admits

  lemma StringField(key: string, optional: bool, es: seq<Entry>)
    ensures FieldAccepts(Field(key, ZString([]), optional), es) <==>
      if optional then OptionalStringAt(es, key) else StringAt(es, key, 0)
  {
  }

  lemma MinLengthField(key: string, n: nat, message: string, es: seq<Entry>)
    ensures FieldAccepts(Field(key, ZString([MinLength(n, message)]), false), es) <==> StringAt(es, key, n)
  {
    var cs := [MinLength(n, message)];
    var v := Lookup(es, key);
    if v.Some? && v.value.JStr? {
      assert StringChecksHold(cs[1..], v.value.s) by { assert cs[1..] == []; }
      assert StringChecksHold(cs, v.value.s) <==> Text.Utf16Length(v.value.s) >= n;
    }
  }

  lemma LengthBetweenField(key: string, lo: nat, loMessage: string, hi: nat, hiMessage: string, es: seq<Entry>)
    ensures FieldAccepts(Field(key, ZString([MinLength(lo, loMessage), MaxLength(hi, hiMessage)]), false), es)
      <==> StringBetweenAt(es, key, lo, hi)
  {
    var cs := [MinLength(lo, loMessage), MaxLength(hi, hiMessage)];
    var v := Lookup(es, key);
    if v.Some? && v.value.JStr? {
      var t := v.value.s;
      assert StringChecksHold(cs[1..][1..], t) by { assert cs[1..][1..] == []; }
      assert StringChecksHold(cs[1..], t) <==> Text.Utf16Length(t) <= hi by { assert cs[1..][0] == MaxLength(hi, hiMessage); }
      assert StringChecksHold(cs, t) <==> lo <= Text.Utf16Length(t) <= hi;
    }
  }

  lemma PositiveField(key: string, message: string, optional: bool, es: seq<Entry>)
    ensures FieldAccepts(Field(key, ZNumber([Positive(message)]), optional), es) <==>
      if optional then OptionalPositiveAt(es, key) else PositiveAt(es, key)
  {
    var cs := [Positive(message)];
    var v := Lookup(es, key);
    if v.Some? && v.value.JNum? {
      assert NumberChecksHold(cs[1..], v.value.n) by { assert cs[1..] == []; }
      assert NumberChecksHold(cs, v.value.n) <==> v.value.n > 0.0;
    }
  }

  lemma NonNegativeField(key: string, message: string, optional: bool, es: seq<Entry>)
    ensures FieldAccepts(Field(key, ZNumber([NonNegative(message)]), optional), es) <==>
      if optional then OptionalNonNegativeAt(es, key) else NonNegativeAt(es, key)
  {
    var cs := [NonNegative(message)];
    var v := Lookup(es, key);
    if v.Some? && v.value.JNum? {
      assert NumberChecksHold(cs[1..], v.value.n) by { assert cs[1..] == []; }
      assert NumberChecksHold(cs, v.value.n) <==> v.value.n >= 0.0;
    }
  }

  lemma NumberField(key: string, es: seq<Entry>)
    ensures FieldAccepts(Field(key, ZNumber([]), true), es) <==> OptionalNumberAt(es, key)
  {
  }

  lemma EnumField(key: string, options: seq<string>, es: seq<Entry>)
    ensures FieldAccepts(Field(key, ZEnum(options), false), es) <==> OneOfAt(es, key, options)
  {
  }

  lemma NestedField(key: string, s: Schema, optional: bool, es: seq<Entry>)
    ensures FieldAccepts(Field(key, s, optional), es) <==> NestedAt(es, key, s, optional)
  {
  }

  // ---------------------------------------------------------------------------
  // Guarded appends, one at a time

  /** The parameters a guarded `append` contributes. */
  function Appended(key: string, value: Option<ParamValue>): seq<Param> {
    if value.Some? then [Param(key, value.value)] else []
  }

  /** A run over four keys is the four guarded appends one after the other. */
  lemma ChosenOfFour(k0: string, k1: string, k2: string, k3: string,
                     v0: Option<ParamValue>, v1: Option<ParamValue>, v2: Option<ParamValue>, v3: Option<ParamValue>)
    ensures Chosen([k0, k1, k2, k3], [v0, v1, v2, v3])
         == Appended(k0, v0) + Appended(k1, v1) + Appended(k2, v2) + Appended(k3, v3)
  {
    var a0, a1, a2, a3 := Appended(k0, v0), Appended(k1, v1), Appended(k2, v2), Appended(k3, v3);
    assert Chosen([k3], [v3]) == a3 by {
      assert [k3][1..] == [] && [v3][1..] == [];
    }
    assert Chosen([k2, k3], [v2, v3]) == a2 + a3 by {
      assert [k2, k3][1..] == [k3] && [v2, v3][1..] == [v3];
    }
    assert Chosen([k1, k2, k3], [v1, v2, v3]) == a1 + (a2 + a3) by {
      assert [k1, k2, k3][1..] == [k2, k3] && [v1, v2, v3][1..] == [v2, v3];
    }
    assert Chosen([k0, k1, k2, k3], [v0, v1, v2, v3]) == a0 + (a1 + (a2 + a3)) by {
      assert [k0, k1, k2, k3][1..] == [k1, k2, k3] && [v0, v1, v2, v3][1..] == [v1, v2, v3];
    }
    assert a0 + (a1 + (a2 + a3)) == a0 + a1 + a2 + a3;
  }

  /** A run over five keys is the five guarded appends one after the other. */
  lemma ChosenOfFive(k0: string, k1: string, k2: string, k3: string, k4: string,
                     v0: Option<ParamValue>, v1: Option<ParamValue>, v2: Option<ParamValue>, v3: Option<ParamValue>,
                     v4: Option<ParamValue>)
    ensures Chosen([k0, k1, k2, k3, k4], [v0, v1, v2, v3, v4])
         == Appended(k0, v0) + Appended(k1, v1) + Appended(k2, v2) + Appended(k3, v3) + Appended(k4, v4)
  {
    var ks, vs := [k0, k1, k2, k3, k4], [v0, v1, v2, v3, v4];
    assert ks[1..] == [k1, k2, k3, k4] && vs[1..] == [v1, v2, v3, v4];
    ChosenOfFour(k1, k2, k3, k4, v1, v2, v3, v4);
  }
}
