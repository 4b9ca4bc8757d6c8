/** The part of the Zod validation library that the storefront's schemas use:
    strings with length bounds, numbers with sign checks, string enums, arrays
    and objects whose fields may be optional. `Accepts` says which values a
    schema admits; `Parse` is what `safeParse` computes (the issues it reports
    and the data it returns, unknown keys stripped); the two agree. */
module Zod {
  import opened Wrappers
  import opened Json
  import Text

  datatype Check =
    | MinLength(n: nat, message: string)
    | MaxLength(n: nat, message: string)
    | Positive(message: string)
    | NonNegative(message: string)

  datatype Schema =
    | ZString(checks: seq<Check>)
    | ZNumber(checks: seq<Check>)
    | ZEnum(options: seq<string>)
    | ZArray(element: Schema)
    | ZObject(fields: seq<Field>)

  /** One key of `z.object({...})`; `optional` is `.optional()`, which admits
      only a missing key (`undefined`), never `null`. */
  datatype Field = Field(key: string, schema: Schema, optional: bool)

  datatype Segment = Key(name: string) | Index(i: nat)

  datatype Issue = Issue(path: seq<Segment>, message: string)

  datatype Parsed = Parsed(issues: seq<Issue>, data: Json)

  const Required := "Required"
  const ExpectedString := "Expected string"
  const ExpectedNumber := "Expected number"
  const ExpectedArray := "Expected array"
  const ExpectedObject := "Expected object"
  const InvalidEnum := "Invalid enum value"

  predicate StringCheckHolds(c: Check, s: string) {
    match c
    case MinLength(n, _) => Text.Utf16Length(s) >= n
    case MaxLength(n, _) => Text.Utf16Length(s) <= n
    case _ => true
  }

  predicate NumberCheckHolds(c: Check, x: real) {
    match c
    case Positive(_) => x > 0.0
    case NonNegative(_) => x >= 0.0
    case _ => true
  }

  predicate StringChecksHold(cs: seq<Check>, s: string)
    decreases |cs|
  {
    |cs| == 0 || (StringCheckHolds(cs[0], s) && StringChecksHold(cs[1..], s))
  }

  predicate NumberChecksHold(cs: seq<Check>, x: real)
    decreases |cs|
  {
    |cs| == 0 || (NumberCheckHolds(cs[0], x) && NumberChecksHold(cs[1..], x))
  }

  // ---------------------------------------------------------------------------
  // What a schema admits

  predicate Accepts(s: Schema, j: Json)
    decreases s, 1
  {
    match s
    case ZString(cs) => j.JStr? && StringChecksHold(cs, j.s)
    case ZNumber(cs) => j.JNum? && NumberChecksHold(cs, j.n)
    case ZEnum(options) => j.JStr? && j.s in options
    case ZArray(e) => j.JArr? && ElementsAccept(s, j.items, 0)
    case ZObject(fs) => j.JObj? && FieldsAccept(s, j.entries, 0)
  }

  predicate ElementsAccept(s: Schema, items: seq<Json>, i: nat)
    requires s.ZArray? && i <= |items|
    decreases s, 0, |items| - i
  {
    i == |items| || (Accepts(s.element, items[i]) && ElementsAccept(s, items, i + 1))
  }

  /** A field is admitted when it is absent and optional, or present with a
      value its own schema admits. */
  predicate FieldAccepts(f: Field, entries: seq<Entry>)
    decreases f.schema, 2
  {
    match Lookup(entries, f.key)
    case None => f.optional
    case Some(v) => Accepts(f.schema, v)
  }

  predicate FieldsAccept(s: Schema, entries: seq<Entry>, i: nat)
    requires s.ZObject? && i <= |s.fields|
    decreases s, 0, |s.fields| - i
  {
    i == |s.fields| || (FieldAccepts(s.fields[i], entries) && FieldsAccept(s, entries, i + 1))
  }

  // ---------------------------------------------------------------------------
  // What `safeParse` computes

  function StringIssues(cs: seq<Check>, s: string, path: seq<Segment>): (r: seq<Issue>)
    ensures r == [] <==> StringChecksHold(cs, s)
    decreases |cs|
  {
    if |cs| == 0 then []
    else (if StringCheckHolds(cs[0], s) then [] else [Issue(path, cs[0].message)])
         + StringIssues(cs[1..], s, path)
  }

  function NumberIssues(cs: seq<Check>, x: real, path: seq<Segment>): (r: seq<Issue>)
    ensures r == [] <==> NumberChecksHold(cs, x)
    decreases |cs|
  {
    if |cs| == 0 then []
    else (if NumberCheckHolds(cs[0], x) then [] else [Issue(path, cs[0].message)])
         + NumberIssues(cs[1..], x, path)
  }

  /** `schema.safeParse(j)` with `path` the position of `j` in the value being
      parsed: every issue found (Zod does not stop at the first), and the
      parsed data, in which objects keep only the keys of their schema. */
  function Parse(s: Schema, j: Json, path: seq<Segment>): Parsed
    decreases s, 1
  {
    match s
    case ZString(cs) =>
      if j.JStr? then Parsed(StringIssues(cs, j.s, path), j) else Parsed([Issue(path, ExpectedString)], j)
    case ZNumber(cs) =>
      if j.JNum? then Parsed(NumberIssues(cs, j.n, path), j) else Parsed([Issue(path, ExpectedNumber)], j)
    case ZEnum(options) =>
      if j.JStr? && j.s in options then Parsed([], j) else Parsed([Issue(path, InvalidEnum)], j)
    case ZArray(e) =>
      if j.JArr? then
        var (issues, items) := ParseElements(s, j.items, path, 0);
        Parsed(issues, JArr(items))
      else Parsed([Issue(path, ExpectedArray)], j)
    case ZObject(fs) =>
      if j.JObj? then
        var (issues, entries) := ParseFields(s, j.entries, path, 0);
        Parsed(issues, JObj(entries))
      else Parsed([Issue(path, ExpectedObject)], j)
  }

  function ParseElements(s: Schema, items: seq<Json>, path: seq<Segment>, i: nat): (seq<Issue>, seq<Json>)
    requires s.ZArray? && i <= |items|
    decreases s, 0, |items| - i
  {
    if i == |items| then ([], [])
    else
      var p := Parse(s.element, items[i], path + [Index(i)]);
      var (issues, rest) := ParseElements(s, items, path, i + 1);
      (p.issues + issues, [p.data] + rest)
  }

  function ParseFields(s: Schema, entries: seq<Entry>, path: seq<Segment>, i: nat): (seq<Issue>, seq<Entry>)
    requires s.ZObject? && i <= |s.fields|
    decreases s, 0, |s.fields| - i
  {
    if i == |s.fields| then ([], [])
    else
      var f := s.fields[i];
      var (issues, rest) := ParseFields(s, entries, path, i + 1);
      match Lookup(entries, f.key)
      case None =>
        if f.optional then (issues, rest) else ([Issue(path + [Key(f.key)], Required)] + issues, rest)
      case Some(v) =>
        var p := Parse(f.schema, v, path + [Key(f.key)]);
        (p.issues + issues, [Entry(f.key, p.data)] + rest)
  }

  /** `safeParse` reports no issue exactly when the schema admits the value. */
  lemma {:induction false} ParseAgrees(s: Schema, j: Json, path: seq<Segment>)
    ensures Parse(s, j, path).issues == [] <==> Accepts(s, j)
    decreases s, 1
  {
    match s
    case ZString(_) =>
    case ZNumber(_) =>
    case ZEnum(_) =>
    case ZArray(_) =>
      if j.JArr? { ElementsAgree(s, j.items, path, 0); }
    case ZObject(_) =>
      if j.JObj? { FieldsAgree(s, j.entries, path, 0); }
  }

  lemma {:induction false} ElementsAgree(s: Schema, items: seq<Json>, path: seq<Segment>, i: nat)
    requires s.ZArray? && i <= |items|
    ensures ParseElements(s, items, path, i).0 == [] <==> ElementsAccept(s, items, i)
    decreases s, 0, |items| - i
  {
    if i < |items| {
      ParseAgrees(s.element, items[i], path + [Index(i)]);
      ElementsAgree(s, items, path, i + 1);
    }
  }

  lemma {:induction false} FieldsAgree(s: Schema, entries: seq<Entry>, path: seq<Segment>, i: nat)
    requires s.ZObject? && i <= |s.fields|
    ensures ParseFields(s, entries, path, i).0 == [] <==> FieldsAccept(s, entries, i)
    decreases s, 0, |s.fields| - i
  {
    if i < |s.fields| {
      FieldsAgree(s, entries, path, i + 1);
      match Lookup(entries, s.fields[i].key)
      case None =>
      case Some(v) => ParseAgrees(s.fields[i].schema, v, path + [Key(s.fields[i].key)]);
    }
  }

  // ---------------------------------------------------------------------------
  // What the parsed data holds

  lemma {:induction false} ParsedElements(s: Schema, items: seq<Json>, path: seq<Segment>, i: nat)
    requires s.ZArray? && i <= |items|
    ensures |ParseElements(s, items, path, i).1| == |items| - i
    ensures forall k :: i <= k < |items| ==>
      ParseElements(s, items, path, i).1[k - i] == Parse(s.element, items[k], path + [Index(k)]).data
    decreases |items| - i
  {
    if i < |items| {
      ParsedElements(s, items, path, i + 1);
      var d := ParseElements(s, items, path, i).1;
      var rest := ParseElements(s, items, path, i + 1).1;
      assert d == [Parse(s.element, items[i], path + [Index(i)]).data] + rest;
      forall k | i < k < |items|
        ensures d[k - i] == Parse(s.element, items[k], path + [Index(k)]).data
      {
        assert d[k - i] == rest[k - (i + 1)];
      }
    }
  }

  /** Parsing an array keeps its length, and each element of the data is
      that element parsed. */
  lemma ParsedArray(e: Schema, j: Json, path: seq<Segment>)
    requires j.JArr?
    ensures Parse(ZArray(e), j, path).data.JArr?
    ensures |Parse(ZArray(e), j, path).data.items| == |j.items|
    ensures forall k :: 0 <= k < |j.items| ==>
      Parse(ZArray(e), j, path).data.items[k] == Parse(e, j.items[k], path + [Index(k)]).data
  {
    ParsedElements(ZArray(e), j.items, path, 0);
  }

  lemma {:induction false} ParsedFieldKeys(s: Schema, entries: seq<Entry>, path: seq<Segment>, i: nat)
    requires s.ZObject? && i <= |s.fields|
    ensures forall e :: e in ParseFields(s, entries, path, i).1 ==>
      exists k :: i <= k < |s.fields| && s.fields[k].key == e.key
    decreases |s.fields| - i
  {
    if i < |s.fields| {
      ParsedFieldKeys(s, entries, path, i + 1);
    }
  }

  /** The data of a parsed object keeps only its schema's keys: any other
      key of the input is stripped. */
  lemma StripsUnknownKeys(fs: seq<Field>, j: Json, path: seq<Segment>, key: string)
    requires j.JObj?
    requires forall k :: 0 <= k < |fs| ==> fs[k].key != key
    ensures Parse(ZObject(fs), j, path).data.JObj?
    ensures key !in Keys(Parse(ZObject(fs), j, path).data.entries)
  {
    var entries := Parse(ZObject(fs), j, path).data.entries;
    ParsedFieldKeys(ZObject(fs), j.entries, path, 0);
    forall i | 0 <= i < |entries|
      ensures entries[i].key != key
    {
      assert entries[i] in entries;
    }
  }

  /** The same for every object of a parsed array of objects. */
  lemma ArrayStripsUnknownKeys(fs: seq<Field>, j: Json, key: string)
    requires j.JArr? && forall k :: 0 <= k < |j.items| ==> j.items[k].JObj?
    requires forall k :: 0 <= k < |fs| ==> fs[k].key != key
    ensures var d := Parse(ZArray(ZObject(fs)), j, []).data;
      d.JArr? && |d.items| == |j.items|
      && forall k :: 0 <= k < |d.items| ==> d.items[k].JObj? && key !in Keys(d.items[k].entries)
  {
    ParsedArray(ZObject(fs), j, []);
    var d := Parse(ZArray(ZObject(fs)), j, []).data;
    forall k | 0 <= k < |d.items|
      ensures d.items[k].JObj? && key !in Keys(d.items[k].entries)
    {
      var path: seq<Segment> := [];
      assert d.items[k] == Parse(ZObject(fs), j.items[k], path + [Index(k)]).data;
      StripsUnknownKeys(fs, j.items[k], path + [Index(k)], key);
    }
  }

  // ---------------------------------------------------------------------------
  // What arrays and objects admit, pointwise

  lemma {:induction false} ElementsAcceptAll(s: Schema, items: seq<Json>, i: nat)
    requires s.ZArray? && i <= |items|
    ensures ElementsAccept(s, items, i) <==> forall k :: i <= k < |items| ==> Accepts(s.element, items[k])
    decreases |items| - i
  {
    if i < |items| {
      ElementsAcceptAll(s, items, i + 1);
    }
  }

  /** `z.array(e)` admits exactly the arrays all of whose elements `e` admits. */
  lemma ArrayAccepts(e: Schema, j: Json)
    ensures Accepts(ZArray(e), j) <==> j.JArr? && forall k :: 0 <= k < |j.items| ==> Accepts(e, j.items[k])
  {
    if j.JArr? {
      ElementsAcceptAll(ZArray(e), j.items, 0);
    }
  }

  lemma {:induction false} FieldsAcceptAll(s: Schema, entries: seq<Entry>, i: nat)
    requires s.ZObject? && i <= |s.fields|
    ensures FieldsAccept(s, entries, i) <==> forall k :: i <= k < |s.fields| ==> FieldAccepts(s.fields[k], entries)
    decreases |s.fields| - i
  {
    if i < |s.fields| {
      FieldsAcceptAll(s, entries, i + 1);
    }
  }

  /** `z.object(fields)` admits exactly the objects on which every field is
      admitted; keys outside the schema play no part. */
  lemma ObjectAccepts(fs: seq<Field>, j: Json)
    ensures Accepts(ZObject(fs), j) <==> j.JObj? && forall k :: 0 <= k < |fs| ==> FieldAccepts(fs[k], j.entries)
  {
    if j.JObj? {
      FieldsAcceptAll(ZObject(fs), j.entries, 0);
    }
  }

  /** An object schema whose fields are all optional admits `{}`. */
  lemma {:induction false} AllOptionalAcceptsEmpty(fs: seq<Field>)
    requires forall k :: 0 <= k < |fs| ==> fs[k].optional
    ensures Accepts(ZObject(fs), JObj([]))
  {
    ObjectAccepts(fs, JObj([]));
    forall k | 0 <= k < |fs|
      ensures FieldAccepts(fs[k], [])
    {
      assert Lookup([], fs[k].key).None?;
    }
  }

  // ---------------------------------------------------------------------------
  // The error a storefront call throws on a failed parse

  /** The messages of `error.flatten().fieldErrors`: those of issues below the
      root. An issue at the root itself goes to `formErrors` instead. */
  function FieldMessages(issues: seq<Issue>): (ms: seq<string>)
    ensures |ms| <= |issues|
    ensures (exists k :: 0 <= k < |issues| && issues[k].path != []) <==> ms != []
    decreases |issues|
  {
    if |issues| == 0 then []
    else (if issues[0].path != [] then [issues[0].message] else []) + FieldMessages(issues[1..])
  }

  /** `Object.values(fieldErrors).flat().join(', ') || fallback`. */
  function ErrorText(issues: seq<Issue>, fallback: string): (text: string)
    ensures FieldMessages(issues) == [] ==> text == fallback
    ensures FieldMessages(issues) != [] && FieldMessages(issues)[0] != "" ==> text == Text.Join(FieldMessages(issues), ", ")
  {
    var ms := FieldMessages(issues);
    var joined := Text.Join(ms, ", ");
    if ms == [] then fallback
    else
      Text.JoinStartsWithFirst(ms, ", ");
      if joined == "" then fallback else joined
  }

  /** `safeParse` followed by the storefront's `throw new Error(...)`. */
  function Validate(s: Schema, j: Json, fallback: string): (r: Result<Json>)
    ensures r.Ok? <==> Accepts(s, j)
    ensures r.Ok? ==> r.value == Parse(s, j, []).data
    ensures r.Err? ==> r.message == ErrorText(Parse(s, j, []).issues, fallback)
  {
    ParseAgrees(s, j, []);
    var p := Parse(s, j, []);
    if p.issues == [] then Ok(p.data) else Err(ErrorText(p.issues, fallback))
  }
}
