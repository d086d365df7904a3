/** Parsed JSON documents as the collector sees them after `json.loads`, and the
    Python operations the collector applies to them (`x[key]`, `x.get(key, default)`,
    `x[0]`, `for y in x`), each with the exception Python raises when the
    document does not have the expected shape. */
module Json {
  import opened Errors

  /** A JSON value. An object keeps its members in document order; when a key is
      repeated, the last binding is the one `json.loads` keeps. */
  datatype Json =
    | JNull
    | JBool(b: bool)
    | JNum(n: real)
    | JStr(s: string)
    | JArr(items: seq<Json>)
    | JObj(fields: seq<(string, Json)>)

  /** The value bound to `key` in an object's members: the last binding wins. */
  function Lookup(fields: seq<(string, Json)>, key: string): (r: Option<Json>)
    ensures r.None? <==> forall i :: 0 <= i < |fields| ==> fields[i].0 != key
  {
    if fields == [] then None
    else if fields[|fields| - 1].0 == key then Some(fields[|fields| - 1].1)
    else Lookup(fields[..|fields| - 1], key)
  }

  /** A key that is bound gets the value of its LAST binding: what `json.loads`
      keeps when a document repeats a key. */
  lemma {:induction false} LookupLast(fields: seq<(string, Json)>, key: string)
    requires Lookup(fields, key).Some?
    ensures exists j ::
      && 0 <= j < |fields|
      && fields[j] == (key, Lookup(fields, key).value)
      && forall i :: j < i < |fields| ==> fields[i].0 != key
    decreases |fields|
  {
    var n := |fields| - 1;
    if fields[n].0 == key {
      assert fields[n] == (key, Lookup(fields, key).value);
    } else {
      var init := fields[..n];
      LookupLast(init, key);
      var j :|
        && 0 <= j < |init|
        && init[j] == (key, Lookup(init, key).value)
        && forall i :: j < i < |init| ==> init[i].0 != key;
      assert fields[j] == init[j];
      forall i | j < i < |fields| ensures fields[i].0 != key {
        if i < n {
          assert fields[i] == init[i];
        }
      }
    }
  }

  /** The distinct keys of an object's members, in order of first appearance:
      what iterating a Python dict yields. */
  function Keys(fields: seq<(string, Json)>): seq<string> {
    if fields == [] then []
    else
      var earlier := Keys(fields[..|fields| - 1]);
      var key := fields[|fields| - 1].0;
      if key in earlier then earlier else earlier + [key]
  }

  /** `for y in j`: a list yields its items, a dict its keys, a string its
      one-character strings; numbers, booleans and null are not iterable. */
  function Iterate(j: Json): Result<seq<Json>> {
    match j
    case JArr(items) => Ok(items)
    case JObj(fields) =>
      var keys := Keys(fields);
      Ok(seq(|keys|, i requires 0 <= i < |keys| => JStr(keys[i])))
    case JStr(s) => Ok(seq(|s|, i requires 0 <= i < |s| => JStr([s[i]])))
    case _ => Err(TypeError)
  }

  /** `j[key]` with a string key: only a dict can be indexed by a string. */
  function Subscript(j: Json, key: string): Result<Json> {
    match j
    case JObj(fields) =>
      (match Lookup(fields, key)
       case Some(v) => Ok(v)
       case None => Err(KeyError))
    case _ => Err(TypeError)
  }

  /** `j.get(key, default)`: only a dict has a `get` method. */
  function GetOr(j: Json, key: string, default: Json): Result<Json> {
    match j
    case JObj(fields) =>
      (match Lookup(fields, key)
       case Some(v) => Ok(v)
       case None => Ok(default))
    case _ => Err(AttributeError)
  }

  /** `j[0]`: the first item of a list or the first character of a string;
      a dict has no key 0 (JSON keys are strings); other values cannot be indexed. */
  function First(j: Json): Result<Json> {
    match j
    case JArr(items) => if items == [] then Err(IndexError) else Ok(items[0])
    case JStr(s) => if s == [] then Err(IndexError) else Ok(JStr([s[0]]))
    case JObj(_) => Err(KeyError)
    case _ => Err(TypeError)
  }
}
