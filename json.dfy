/**
 * JSON-shaped values as the proxy sees them after `json.loads`: a Python
 * `dict` is an insertion-ordered list of key/value pairs.  Numbers are
 * integers; floating point is not part of this model.
 */
module JsonModel {
  import opened Wrappers
  import opened PyText

  datatype Json =
    | Null
    | Bool(b: bool)
    | Num(n: int)
    | Str(s: string)
    | Arr(items: seq<Json>)
    | Obj(fields: seq<(string, Json)>)

  function Keys(fields: seq<(string, Json)>): (r: seq<string>)
    ensures |r| == |fields|
  {
    if fields == [] then [] else [fields[0].0] + Keys(fields[1..])
  }

  /** `key in d`, the dict lookup, as an optional value. */
  function Lookup(fields: seq<(string, Json)>, key: string): (r: Option<Json>)
    ensures r.None? <==> key !in Keys(fields)
  {
    if fields == [] then None
    else if fields[0].0 == key then Some(fields[0].1)
    else Lookup(fields[1..], key)
  }

  lemma LookupCons(f: (string, Json), rest: seq<(string, Json)>, k: string)
    ensures Lookup([f] + rest, k) == if f.0 == k then Some(f.1) else Lookup(rest, k)
    ensures Keys([f] + rest) == [f.0] + Keys(rest)
  {
    assert ([f] + rest)[1..] == rest;
  }

  /** Python dicts never repeat a key. */
  predicate UniqueKeys(fields: seq<(string, Json)>) {
    forall i, j :: 0 <= i < j < |fields| ==> fields[i].0 != fields[j].0
  }

  /** In a dict written out literally, each listed key maps to its listed value. */
  lemma {:induction false} LookupListed(fields: seq<(string, Json)>, key: string, value: Json)
    requires UniqueKeys(fields) && (key, value) in fields
    ensures Lookup(fields, key) == Some(value)
  {
    if fields[0] != (key, value) {
      assert fields[0].0 != key by {
        var j :| 0 <= j < |fields| && fields[j] == (key, value);
      }
      assert (key, value) in fields[1..] by {
        var j :| 0 <= j < |fields| && fields[j] == (key, value);
        assert fields[1..][j - 1] == fields[j];
      }
      LookupListed(fields[1..], key, value);
    }
  }

  /** `key in obj` for a value that is a dict; false for every other value. */
  predicate Has(j: Json, key: string) {
    j.Obj? && key in Keys(j.fields)
  }

  /** `d.get(key, default)` */
  function GetOr(fields: seq<(string, Json)>, key: string, default: Json): (r: Json)
    ensures key !in Keys(fields) ==> r == default
  {
    match Lookup(fields, key)
    case Some(v) => v
    case None => default
  }

  /** `d.get(key)` on a dict; `None` on anything else (the callers guard with isinstance). */
  function Get(j: Json, key: string): (r: Json)
    ensures !Has(j, key) ==> r == Null
  {
    if j.Obj? then GetOr(j.fields, key, Null) else Null
  }

  /** `d[key] = value`: an existing key keeps its place, a new key goes last. */
  function Put(fields: seq<(string, Json)>, key: string, value: Json): (r: seq<(string, Json)>)
    ensures Lookup(r, key) == Some(value)
    ensures forall k :: k != key ==> Lookup(r, k) == Lookup(fields, k)
    ensures key in Keys(fields) ==> Keys(r) == Keys(fields)
    ensures key !in Keys(fields) ==> Keys(r) == Keys(fields) + [key]
  {
    if fields == [] then [(key, value)]
    else
      assert fields == [fields[0]] + fields[1..];
      LookupCons(fields[0], fields[1..], key);
      assert forall k :: Lookup(fields, k) == if fields[0].0 == k then Some(fields[0].1) else Lookup(fields[1..], k) by {
        forall k { LookupCons(fields[0], fields[1..], k); }
      }
      if fields[0].0 == key then
        assert forall k :: Lookup([(key, value)] + fields[1..], k) == if key == k then Some(value) else Lookup(fields[1..], k) by {
          forall k { LookupCons((key, value), fields[1..], k); }
        }
        LookupCons((key, value), fields[1..], key);
        [(key, value)] + fields[1..]
      else
        var rest := Put(fields[1..], key, value);
        assert forall k :: Lookup([fields[0]] + rest, k) == if fields[0].0 == k then Some(fields[0].1) else Lookup(rest, k) by {
          forall k { LookupCons(fields[0], rest, k); }
        }
        [fields[0]] + rest
  }

  /** `d.pop(key, None)` */
  function Delete(fields: seq<(string, Json)>, key: string): (r: seq<(string, Json)>)
    ensures key !in Keys(r)
    ensures forall k :: k != key ==> Lookup(r, k) == Lookup(fields, k)
    ensures key !in Keys(fields) ==> r == fields
  {
    if fields == [] then []
    else
      assert fields == [fields[0]] + fields[1..];
      assert forall k :: Lookup(fields, k) == if fields[0].0 == k then Some(fields[0].1) else Lookup(fields[1..], k) by {
        forall k { LookupCons(fields[0], fields[1..], k); }
      }
      if fields[0].0 == key then Delete(fields[1..], key)
      else
        var rest := Delete(fields[1..], key);
        assert forall k :: Lookup([fields[0]] + rest, k) == if fields[0].0 == k then Some(fields[0].1) else Lookup(rest, k) by {
          forall k { LookupCons(fields[0], rest, k); }
        }
        [fields[0]] + rest
  }

  /** `bool(v)` */
  predicate Truthy(j: Json) {
    match j
    case Null => false
    case Bool(b) => b
    case Num(n) => n != 0
    case Str(s) => s != ""
    case Arr(items) => items != []
    case Obj(fields) => fields != []
  }

  /** `str(v)` as an f-string renders it: a string as is, anything else through `PyRepr`. */
  function PyStr(j: Json): string
  {
    match j
    case Str(s) => s
    case _ => PyRepr(j)
  }

  /**
   * `repr(v)`, simplified: strings always go in single quotes with no
   * escaping (Python switches to double quotes for a string holding a single
   * quote, and escapes backslashes and control characters); lists and dicts
   * put ", " between items.
   */
  function PyRepr(j: Json): string
    decreases j, 1
  {
    match j
    case Null => "None"
    case Bool(b) => if b then "True" else "False"
    case Num(n) => IntToDecimal(n)
    case Str(s) => "'" + s + "'"
    case Arr(items) => "[" + ReprItems(j, items) + "]"
    case Obj(fields) => "{" + ReprFields(j, fields) + "}"
  }

  function ReprItems(parent: Json, items: seq<Json>): string
    requires forall x :: x in items ==> x < parent
    decreases parent, 0, |items|
  {
    if items == [] then ""
    else
      assert items[0] in items;
      assert forall x :: x in items[1..] ==> x in items;
      if |items| == 1 then PyRepr(items[0])
      else PyRepr(items[0]) + ", " + ReprItems(parent, items[1..])
  }

  function ReprFields(parent: Json, fields: seq<(string, Json)>): string
    requires forall f :: f in fields ==> f.1 < parent
    decreases parent, 0, |fields|
  {
    if fields == [] then ""
    else
      assert fields[0] in fields;
      assert forall f :: f in fields[1..] ==> f in fields;
      var head := "'" + fields[0].0 + "': " + PyRepr(fields[0].1);
      if |fields| == 1 then head else head + ", " + ReprFields(parent, fields[1..])
  }
}
