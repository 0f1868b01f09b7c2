/**
 * The subordinate registries of the REST generations: a dictionary from a
 * subordinate's id to its record, where a join stores a record under its own
 * id and `id in subordinates` raises TypeError for an unhashable id.
 */
module Registries {
  import opened Wrappers
  import opened JsonValues
  import OD = OrderedDicts

  /** Each record is stored once, under its own hashable id. */
  predicate KeyedBy<V>(d: OD.ODict<Json, V>, idOf: V -> Json) {
    OD.Valid(d)
    && forall i :: 0 <= i < |d| ==> d[i].0 == idOf(d[i].1) && Hashable(d[i].0)
  }

  /** `id in d`. */
  function Contains<V>(d: OD.ODict<Json, V>, id: Json): (r: Result<bool, Exc>)
    ensures r.Ok? <==> Hashable(id)
    ensures r.Ok? ==> (r.value <==> id in OD.Keys(d))
    ensures r.Err? ==> r.error == TypeError
  {
    if !Hashable(id) then Err(TypeError) else Ok(id in OD.Keys(d))
  }

  /** `d[id]`: the record stored under the id. */
  function Index<V>(d: OD.ODict<Json, V>, id: Json): (r: Result<V, Exc>)
    ensures r.Ok? <==> Hashable(id) && id in OD.Keys(d)
    ensures r.Ok? ==> OD.Lookup(d, id) == Some(r.value)
    ensures !Hashable(id) ==> r == Err(TypeError)
    ensures Hashable(id) && id !in OD.Keys(d) ==> r == Err(KeyError)
  {
    if !Hashable(id) then Err(TypeError)
    else match OD.Lookup(d, id)
      case Some(v) => Ok(v)
      case None => Err(KeyError)
  }

  /** The record found under an id carries that id. */
  lemma IndexCarriesId<V>(d: OD.ODict<Json, V>, idOf: V -> Json, id: Json)
    requires KeyedBy(d, idOf) && Index(d, id).Ok?
    ensures idOf(Index(d, id).value) == id
  {
    var i :| 0 <= i < |d| && OD.Keys(d)[i] == id;
    OD.LookupAt(d, i);
  }

  /** Storing a record under its new, hashable id keeps the registry keyed by id. */
  lemma JoinKeeps<V>(d: OD.ODict<Json, V>, idOf: V -> Json, v: V)
    requires KeyedBy(d, idOf) && Hashable(idOf(v)) && idOf(v) !in OD.Keys(d)
    ensures OD.Put(d, idOf(v), v) == d + [(idOf(v), v)]
    ensures KeyedBy(d + [(idOf(v), v)], idOf)
  {
    OD.PutNew(d, idOf(v), v);
    OD.PutValid(d, idOf(v), v);
  }
}
