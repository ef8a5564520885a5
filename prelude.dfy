/** Values shared by every part of the model: optional values, Python exceptions as data,
    decoded JSON documents (Python's dict/list/str/int/bool/None) and workspace files. */
module Prelude {
  import opened Strings

  datatype Option<T> = None | Some(value: T) {
    function GetOr(default: T): T {
      match this
      case Some(v) => v
      case None => default
    }
  }

  /** The Python exceptions the core raises or lets through, with their message. */
  datatype Exception =
    | ValueError(message: string)
    | TypeError(message: string)
    | KeyError(key: string)
    | RuntimeError(message: string)
    | OSError(message: string)
    | AttributeError(message: string)

  /** `str(e)`: a KeyError shows its key quoted, the others their message. */
  function Str(e: Exception): string
  {
    match e
    case KeyError(key) => "'" + key + "'"
    case _ => e.message
  }

  /** Either the value a Python call returns or the exception it raises. */
  datatype Result<T> = Success(value: T) | Failure(error: Exception)

  /** A decoded JSON document: objects keep their keys in insertion order, as Python dicts do.
      Floating-point numbers are not represented. */
  datatype Json =
    | JNull
    | JBool(b: bool)
    | JInt(i: int)
    | JStr(s: string)
    | JArray(items: seq<Json>)
    | JObject(fields: seq<(string, Json)>)

  /** Every object in `j`, at any depth, has distinct keys, as every dict `json.loads`
      returns does (a repeated key in the text keeps only its last value). */
  predicate UniqueKeys(j: Json)
  {
    match j
    case JArray(items) => forall k :: 0 <= k < |items| ==> UniqueKeys(items[k])
    case JObject(fields) =>
      && (forall a, b :: 0 <= a < b < |fields| ==> fields[a].0 != fields[b].0)
      && forall k :: 0 <= k < |fields| ==> UniqueKeys(fields[k].1)
    case _ => true
  }

  /** Python's `d.get(key)` on a dict given as its ordered items. */
  function Get(fields: seq<(string, Json)>, key: string): Option<Json>
  {
    if fields == [] then None
    else if fields[0].0 == key then Some(fields[0].1)
    else Get(fields[1..], key)
  }

  /** `d.get(key)` is `None` exactly when no item has that key. */
  lemma {:induction false} GetAbsent(fields: seq<(string, Json)>, key: string)
    ensures Get(fields, key).None? <==> forall j :: 0 <= j < |fields| ==> fields[j].0 != key
  {
    if fields != [] {
      GetAbsent(fields[1..], key);
      assert forall j :: 1 <= j < |fields| ==> fields[j] == fields[1..][j - 1];
    }
  }

  /** The value `d.get(key)` finds is the one of the first item with that key. */
  lemma {:induction false} GetAt(fields: seq<(string, Json)>, k: nat, key: string)
    requires k < |fields| && fields[k].0 == key
    requires forall j :: 0 <= j < k ==> fields[j].0 != key
    ensures Get(fields, key) == Some(fields[k].1)
  {
    if k > 0 {
      assert forall j :: 0 <= j < k - 1 ==> fields[1..][j] == fields[j + 1];
      GetAt(fields[1..], k - 1, key);
    }
  }

  /** Python's `d[key] = value`: an existing key keeps its place, a new key goes last. */
  function Put(fields: seq<(string, Json)>, key: string, value: Json): (r: seq<(string, Json)>)
    ensures Get(r, key) == Some(value)
    ensures forall k :: k != key ==> Get(r, k) == Get(fields, k)
    ensures Get(fields, key).None? ==> r == fields + [(key, value)]
  {
    if fields == [] then [(key, value)]
    else if fields[0].0 == key then [(key, value)] + fields[1..]
    else
      var r := [fields[0]] + Put(fields[1..], key, value);
      assert r[1..] == Put(fields[1..], key, value);
      assert Get(fields[1..], key).None? ==> r == fields + [(key, value)];
      r
  }

  /** Python's `json` module as the core uses it: `loads` gives `None` where `json.loads`
      raises `JSONDecodeError`, `errorText` is that exception's message, `dumps` encodes. */
  datatype JsonLib = JsonLib(loads: string -> Option<Json>, errorText: string -> string, dumps: Json -> string)

  /** Python's `type(v).__name__` for a decoded JSON value. */
  function TypeName(j: Json): string
  {
    match j
    case JNull => "NoneType"
    case JBool(_) => "bool"
    case JInt(_) => "int"
    case JStr(_) => "str"
    case JArray(_) => "list"
    case JObject(_) => "dict"
  }

  /** `j[:n]`: a prefix of a string or a list; other values raise TypeError, as they do up to
      Python 3.11 (a dict raises KeyError from 3.12 on). */
  function SliceTo(j: Json, n: nat): Result<Json>
  {
    match j
    case JStr(s) => Success(JStr(Take(s, n)))
    case JArray(items) => Success(JArray(if n < |items| then items[..n] else items))
    case JObject(_) => Failure(TypeError("unhashable type: 'slice'"))
    case _ => Failure(TypeError("'" + TypeName(j) + "' object is not subscriptable"))
  }

  /** Python's truth value of a decoded JSON value. */
  predicate Truthy(j: Json)
  {
    match j
    case JNull => false
    case JBool(b) => b
    case JInt(i) => i != 0
    case JStr(s) => s != []
    case JArray(items) => items != []
    case JObject(fields) => fields != []
  }

  /** Python's `str(v)` (what an f-string shows) for a decoded JSON value.
      Quotes inside nested strings are not escaped. */
  function Display(j: Json): string
  {
    match j
    case JStr(s) => s
    case _ => Repr(j)
  }

  /** Python's `repr(v)` for a decoded JSON value, without escaping. */
  function Repr(j: Json): string
    decreases j, 1
  {
    match j
    case JNull => "None"
    case JBool(b) => if b then "True" else "False"
    case JInt(i) => IntToString(i)
    case JStr(s) => "'" + s + "'"
    case JArray(items) => "[" + ReprItems(j, items) + "]"
    case JObject(fields) => "{" + ReprFields(j, fields) + "}"
  }

  function ReprItems(ghost parent: Json, items: seq<Json>): string
    requires forall k :: 0 <= k < |items| ==> items[k] < parent
    decreases parent, 0, |items|
  {
    if items == [] then ""
    else if |items| == 1 then Repr(items[0])
    else Repr(items[0]) + ", " + ReprItems(parent, items[1..])
  }

  function ReprFields(ghost parent: Json, fields: seq<(string, Json)>): string
    requires forall k :: 0 <= k < |fields| ==> fields[k].1 < parent
    decreases parent, 0, |fields|
  {
    if fields == [] then ""
    else
      var entry := "'" + fields[0].0 + "': " + Repr(fields[0].1);
      if |fields| == 1 then entry else entry + ", " + ReprFields(parent, fields[1..])
  }

  /** A file in a workspace directory: its text, or a file whose reading raises OSError. */
  datatype File = Text(contents: string) | Unreadable

  /** A directory on the host: whether it exists and the files directly inside it, by name.
      The runner and the worker both change it in place. */
  class Directory {
    var present: bool
    var files: map<string, File>

    constructor (present: bool, files: map<string, File>)
      ensures this.present == present && this.files == files
    {
      this.present := present;
      this.files := files;
    }
  }

  /** Python's `int(s)` on a decimal literal: surrounding whitespace and one sign allowed;
      `None` where `int` raises ValueError. Underscore digit separators are not accepted. */
  function ParseInt(s: string): Option<int>
  {
    ParseSigned(Strip(s))
  }

  /** A decimal literal with an optional leading sign and no surrounding whitespace. */
  function ParseSigned(t: string): Option<int>
  {
    if t == [] then None
    else
      var body := if t[0] == '-' || t[0] == '+' then t[1..] else t;
      if body != [] && forall i :: 0 <= i < |body| ==> IsDigit(body[i]) then
        Some(if t[0] == '-' then -(DigitsValue(body) as int) else DigitsValue(body))
      else None
  }

  lemma ParseUnsigned(d: string)
    requires d != [] && forall i :: 0 <= i < |d| ==> IsDigit(d[i])
    ensures ParseSigned(d) == Some(DigitsValue(d) as int)
  {
    assert IsDigit(d[0]);
  }

  lemma ParseNegative(d: string)
    requires d != [] && forall i :: 0 <= i < |d| ==> IsDigit(d[i])
    ensures ParseSigned("-" + d) == Some(-(DigitsValue(d) as int))
  {
    var t := "-" + d;
    assert t[0] == '-';
    assert t[1..] == d;
  }

  /** `str(n)` has no surrounding whitespace. */
  lemma IntToStringNoSpace(n: int)
    ensures forall i :: 0 <= i < |IntToString(n)| ==> !IsSpace(IntToString(n)[i])
  {
    var m: nat := if n < 0 then -n else n;
    DigitsOfNat(m);
    var d := NatToString(m);
    if n < 0 {
      var s := "-" + d;
      forall i | 0 <= i < |s| ensures !IsSpace(s[i]) {
        if i > 0 {
          assert s[i] == d[i - 1];
          assert IsDigit(d[i - 1]);
        }
      }
    } else {
      forall i | 0 <= i < |d| ensures !IsSpace(d[i]) {
        assert IsDigit(d[i]);
      }
    }
  }

  /** Parsing what `str(n)` prints gives `n` back. */
  lemma ParseIntToString(n: int)
    ensures ParseInt(IntToString(n)) == Some(n)
  {
    IntToStringNoSpace(n);
    StripNoSpace(IntToString(n));
    var m: nat := if n < 0 then -n else n;
    DigitsOfNat(m);
    if n < 0 {
      ParseNegative(NatToString(m));
    } else {
      ParseUnsigned(NatToString(m));
    }
  }

  /** Adding a fresh key and removing it again leaves a map as it was. */
  lemma AddThenRemove<K, V>(m: map<K, V>, k: K, v: V)
    requires k !in m
    ensures m[k := v] - {k} == m
  {
  }
}
