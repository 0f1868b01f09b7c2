/**
 * JSON values as Python holds them after `json.loads`: objects keep their
 * keys in document order, as Python dictionaries do.  The functions here give
 * the Python meaning of the operations the system applies to such values.
 */
module JsonValues {
  import opened Wrappers
  import OD = OrderedDicts

  datatype Json =
    | JNull
    | JBool(b: bool)
    | JNum(n: real)
    | JStr(s: string)
    | JArr(items: seq<Json>)
    | JObj(fields: OD.ODict<string, Json>)

  /** Python truthiness: null, false, 0, "", [] and {} are false. */
  predicate Truthy(j: Json) {
    match j
    case JNull => false
    case JBool(b) => b
    case JNum(n) => n != 0.0
    case JStr(s) => s != []
    case JArr(xs) => xs != []
    case JObj(fs) => fs != []
  }

  /** Lists and dictionaries cannot be dictionary keys or set members. */
  predicate Hashable(j: Json) {
    !j.JArr? && !j.JObj?
  }

  /** `j[k]` with a string key. */
  function Field(j: Json, k: string): (r: Result<Json, Exc>)
    ensures r.Ok? <==> j.JObj? && k in OD.Keys(j.fields)
    ensures r.Ok? ==> OD.Lookup(j.fields, k) == Some(r.value)
    ensures r.Err? ==> r.error == (if j.JObj? then KeyError else TypeError)
  {
    if !j.JObj? then Err(TypeError)
    else
      match OD.Lookup(j.fields, k)
      case Some(v) => Ok(v)
      case None => Err(KeyError)
  }

  /** The elements a Python `for x in j` loop visits. */
  function Iterate(j: Json): (r: Result<seq<Json>, Exc>)
    ensures r.Ok? <==> j.JArr? || j.JStr? || j.JObj?
    ensures j.JArr? ==> r == Ok(j.items)
    ensures j.JStr? ==>
              r.Ok? && |r.value| == |j.s| &&
              forall i :: 0 <= i < |j.s| ==> r.value[i] == JStr([j.s[i]])
    ensures j.JObj? ==>
              r.Ok? && |r.value| == |j.fields| &&
              forall i :: 0 <= i < |j.fields| ==> r.value[i] == JStr(j.fields[i].0)
    ensures r.Err? ==> r.error == TypeError
  {
    match j
    case JArr(xs) => Ok(xs)
    case JStr(s) => Ok(seq(|s|, i requires 0 <= i < |s| => JStr([s[i]])))
    case JObj(fs) => Ok(seq(|fs|, i requires 0 <= i < |fs| => JStr(fs[i].0)))
    case _ => Err(TypeError)
  }

  /** t occurs in s as a contiguous piece. */
  predicate Occurs(t: string, s: string) {
    t <= s || (|s| > 0 && Occurs(t, s[1..]))
  }

  /**
   * `x in container`: element of a list, key of a dictionary (an unhashable
   * x raises TypeError), piece of a string (x must be a string); any other
   * container raises TypeError.  Equality of elements is structural.
   */
  function In(x: Json, container: Json): (r: Result<bool, Exc>)
    ensures r.Ok? <==>
              container.JArr? || (container.JObj? && Hashable(x)) || (container.JStr? && x.JStr?)
    ensures container.JArr? ==> r == Ok(x in container.items)
    ensures container.JObj? && Hashable(x) ==> r == Ok(x.JStr? && x.s in OD.Keys(container.fields))
    ensures container.JStr? && x.JStr? ==> r == Ok(Occurs(x.s, container.s))
    ensures r.Err? ==> r.error == TypeError
  {
    match container
    case JArr(items) => Ok(x in items)
    case JObj(fields) => if Hashable(x) then Ok(x.JStr? && x.s in OD.Keys(fields)) else Err(TypeError)
    case JStr(s) => if x.JStr? then Ok(Occurs(x.s, s)) else Err(TypeError)
    case _ => Err(TypeError)
  }

  /**
   * `Cls(**j)` for a class whose constructor takes exactly the given keyword
   * names: the value must be a dictionary with exactly those keys.
   */
  predicate KeywordsExactly(j: Json, names: set<string>) {
    j.JObj? && (set i | 0 <= i < |j.fields| :: j.fields[i].0) == names
  }
}
