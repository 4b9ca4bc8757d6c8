/** `convertStringIdsToObjectId` (order/src/utils/convertStringIdsToObjectId.js):
    a copy of a JSON-like value in which every string held under one of the
    given keys, at any depth, that the object-id check accepts becomes an
    ObjectId. The check `mongoose.Types.ObjectId.isValid` is a parameter. */
module ObjectIds {
  import opened Json

  /** What the conversion produces: JSON values plus the ObjectId leaf. */
  datatype Doc =
    | DNull
    | DBool(b: bool)
    | DNum(n: real)
    | DStr(s: string)
    | DArr(items: seq<Doc>)
    | DObj(entries: seq<DocEntry>)
    | DObjectId(hex: string)
  datatype DocEntry = DocEntry(key: string, value: Doc)

  const DefaultKeys := ["productId"]

  /** Whether the entry `key: value` is converted in place. */
  predicate Converts(keys: seq<string>, isValid: string -> bool, key: string, value: Json) {
    key in keys && value.JStr? && isValid(value.s)
  }

  /** `convertStringIdsToObjectId(data, keysToConvert)`. */
  function Convert(j: Json, keys: seq<string>, isValid: string -> bool): (d: Doc)
    decreases j
  {
    match j
    case JArr(items) =>
      DArr(seq(|items|, k requires 0 <= k < |items| => Convert(items[k], keys, isValid)))
    case JObj(entries) =>
      DObj(seq(|entries|, k requires 0 <= k < |entries| =>
        if Converts(keys, isValid, entries[k].key, entries[k].value)
        then DocEntry(entries[k].key, DObjectId(entries[k].value.s))
        else DocEntry(entries[k].key, Convert(entries[k].value, keys, isValid))))
    case JNull => DNull
    case JBool(b) => DBool(b)
    case JNum(n) => DNum(n)
    case JStr(s) => DStr(s)
  }

  /** The call with the default `keysToConvert`. */
  function ConvertDefault(j: Json, isValid: string -> bool): Doc {
    Convert(j, DefaultKeys, isValid)
  }

  /** Forgets the ObjectId wrappers: each ObjectId becomes the string it was
      made from. (A real ObjectId prints as 24 lower-case hex digits, which is
      not modelled.) */
  function Erase(d: Doc): (j: Json)
    decreases d
  {
    match d
    case DArr(items) => JArr(seq(|items|, k requires 0 <= k < |items| => Erase(items[k])))
    case DObj(entries) => JObj(seq(|entries|, k requires 0 <= k < |entries| => Entry(entries[k].key, Erase(entries[k].value))))
    case DNull => JNull
    case DBool(b) => JBool(b)
    case DNum(n) => JNum(n)
    case DStr(s) => JStr(s)
    case DObjectId(hex) => JStr(hex)
  }

  /** Converting loses nothing: forgetting the wrappers of the result gives
      back the input. */
  lemma {:induction false} EraseUndoesConvert(j: Json, keys: seq<string>, isValid: string -> bool)
    ensures Erase(Convert(j, keys, isValid)) == j
    decreases j
  {
    match j
    case JArr(items) =>
      forall k | 0 <= k < |items| {
        EraseUndoesConvert(items[k], keys, isValid);
      }
      assert Erase(Convert(j, keys, isValid)).items == items;
    case JObj(entries) =>
      forall k | 0 <= k < |entries| {
        EraseUndoesConvert(entries[k].value, keys, isValid);
      }
      assert Erase(Convert(j, keys, isValid)).entries == entries;
    case _ =>
  }

  /** No string that should have been converted is left, at any depth. */
  ghost predicate Unconverted(d: Doc, keys: seq<string>, isValid: string -> bool)
    decreases d
  {
    match d
    case DArr(items) => exists k :: 0 <= k < |items| && Unconverted(items[k], keys, isValid)
    case DObj(entries) =>
      exists k :: 0 <= k < |entries| &&
        ((entries[k].key in keys && entries[k].value.DStr? && isValid(entries[k].value.s))
         || Unconverted(entries[k].value, keys, isValid))
    case _ => false
  }

  lemma {:induction false} NothingLeftUnconverted(j: Json, keys: seq<string>, isValid: string -> bool)
    ensures !Unconverted(Convert(j, keys, isValid), keys, isValid)
    decreases j
  {
    match j
    case JArr(items) =>
      forall k | 0 <= k < |items| {
        NothingLeftUnconverted(items[k], keys, isValid);
      }
    case JObj(entries) =>
      forall k | 0 <= k < |entries| {
        NothingLeftUnconverted(entries[k].value, keys, isValid);
      }
    case _ =>
  }

  /** Arrays keep their length and order, objects their keys in order, and
      only the matching entries become ObjectIds; a matching key whose string
      fails the check keeps its string. Anything else is returned as it is. */
  lemma ConvertKeepsShape(j: Json, keys: seq<string>, isValid: string -> bool)
    ensures j.JArr? ==> Convert(j, keys, isValid).DArr? && |Convert(j, keys, isValid).items| == |j.items|
    ensures j.JArr? ==> forall k :: 0 <= k < |j.items| ==> Convert(j, keys, isValid).items[k] == Convert(j.items[k], keys, isValid)
    ensures j.JObj? ==> Convert(j, keys, isValid).DObj? && |Convert(j, keys, isValid).entries| == |j.entries|
    ensures j.JObj? ==> forall k :: 0 <= k < |j.entries| ==>
      var e := j.entries[k];
      var c := Convert(j, keys, isValid).entries[k];
      c.key == e.key
      && (Converts(keys, isValid, e.key, e.value) ==> c.value == DObjectId(e.value.s))
      && (!Converts(keys, isValid, e.key, e.value) ==> c.value == Convert(e.value, keys, isValid))
    ensures !j.JArr? && !j.JObj? ==> Erase(Convert(j, keys, isValid)) == j && !Convert(j, keys, isValid).DObjectId?
  {
  }

  /** A string that fails the check stays a string, even under a key to
      convert; with no keys nothing is converted at all. */
  lemma {:induction false} NoKeysConvertsNothing(j: Json, isValid: string -> bool)
    ensures Convert(j, [], isValid) == Lift(j)
    decreases j
  {
    match j
    case JArr(items) =>
      forall k | 0 <= k < |items| {
        NoKeysConvertsNothing(items[k], isValid);
      }
    case JObj(entries) =>
      forall k | 0 <= k < |entries| {
        NoKeysConvertsNothing(entries[k].value, isValid);
      }
    case _ =>
  }

  /** A JSON value read as a document, with no ObjectId in it. */
  function Lift(j: Json): (d: Doc)
    decreases j
  {
    match j
    case JArr(items) => DArr(seq(|items|, k requires 0 <= k < |items| => Lift(items[k])))
    case JObj(entries) => DObj(seq(|entries|, k requires 0 <= k < |entries| => DocEntry(entries[k].key, Lift(entries[k].value))))
    case JNull => DNull
    case JBool(b) => DBool(b)
    case JNum(n) => DNum(n)
    case JStr(s) => DStr(s)
  }
}
