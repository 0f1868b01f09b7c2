/**
 * The rosters of the first HTTP generation (sergeant.py and captain.py): a
 * dictionary from a subordinate's id to the JSON object it posted when it
 * joined.  The id is `str(id(info))`, the decimal identity of the posted
 * object; as every stored object stays alive, no stored key can be that
 * identity, and the model picks a digit string longer than every key.
 */
module Rosters {
  import opened Wrappers
  import opened JsonValues
  import OD = OrderedDicts

  type Roster = OD.ODict<string, Json>

  /** What a roster operation answers or raises, and the roster afterwards. */
  datatype Step = Step(result: Result<Json, Exc>, roster: Roster)

  /** The length of the longest string. */
  function MaxLength(ss: seq<string>): (m: nat)
    ensures forall s <- ss :: |s| <= m
    ensures ss != [] ==> exists s <- ss :: |s| == m
  {
    if ss == [] then 0
    else
      var rest := MaxLength(ss[1..]);
      assert forall s <- ss[1..] :: s in ss;
      if |ss[0]| > rest then |ss[0]| else rest
  }

  /** The identity of a newly posted object: decimal digits, different from every used key. */
  function FreshId(used: seq<string>): (r: string)
    ensures r !in used
    ensures r != [] && forall i :: 0 <= i < |r| ==> '0' <= r[i] <= '9'
  {
    seq(MaxLength(used) + 1, _ => '1')
  }

  /** Every stored record is a JSON object and each id is stored once. */
  predicate Records(r: Roster) {
    OD.Valid(r) && forall i :: 0 <= i < |r| ==> r[i].1.JObj?
  }

  /** Every stored record also carries its own id under 'id'. */
  predicate SelfKeyed(r: Roster) {
    Records(r) && forall i :: 0 <= i < |r| ==> Field(r[i].1, "id") == Ok(JStr(r[i].0))
  }

  /** `info['id'] = key` on an object: the 'id' entry is set, every other entry stays. */
  function WithId(fields: OD.ODict<string, Json>, key: string): (j: Json)
    ensures j.JObj?
    ensures Field(j, "id") == Ok(JStr(key))
    ensures forall k :: k != "id" ==> Field(j, k) == Field(JObj(fields), k)
    ensures OD.Keys(j.fields) == if "id" in OD.Keys(fields) then OD.Keys(fields) else OD.Keys(fields) + ["id"]
  {
    JObj(OD.Put(fields, "id", JStr(key)))
  }

  /** A cache entry: the sender's id under idKey and what it sent under key. */
  function Entry(idKey: string, id: string, key: string, value: Json): (e: Json)
    requires idKey != key
    ensures e.JObj? && OD.Keys(e.fields) == [idKey, key]
    ensures Field(e, idKey) == Ok(JStr(id)) && Field(e, key) == Ok(value)
  {
    OD.LookupPair((idKey, JStr(id)), (key, value));
    JObj([(idKey, JStr(id)), (key, value)])
  }

  /**
   * get_pvt_info and get_sgt_info: the stored record is looked up (an unknown
   * id raises KeyError), its 'id' entry is set to the id in place, and the
   * record is answered.  A stored value that is not an object would raise
   * TypeError at the assignment.
   */
  function Stamp(r: Roster, key: string): (s: Step)
    ensures s.result.Ok? ==> key in OD.Keys(r)
    ensures key !in OD.Keys(r) ==> s == Step(Err(KeyError), r)
    ensures Records(r) && key in OD.Keys(r) ==> s.result.Ok?
    ensures s.result.Ok? ==>
              OD.Lookup(r, key).value.JObj?
              && s.result.value == WithId(OD.Lookup(r, key).value.fields, key)
              && OD.Lookup(s.roster, key) == Some(s.result.value)
              && (forall k :: k != key ==> OD.Lookup(s.roster, k) == OD.Lookup(r, k))
              && OD.Keys(s.roster) == OD.Keys(r)
    ensures s.result.Err? ==> s.roster == r
    ensures Records(r) ==> Records(s.roster)
  {
    match OD.Lookup(r, key)
    case None => Step(Err(KeyError), r)
    case Some(info) =>
      if !info.JObj? then
        if Records(r) then RecordAt(r, key); Step(Err(TypeError), r) else Step(Err(TypeError), r)
      else
        var stamped := WithId(info.fields, key);
        var r' := OD.Put(r, key, stamped);
        if Records(r) then PutRecord(r, key, stamped); Step(Ok(stamped), r') else Step(Ok(stamped), r')
  }

  /** The value found under a key of a roster of records is an object. */
  lemma RecordAt(r: Roster, key: string)
    requires Records(r) && key in OD.Keys(r)
    ensures OD.Lookup(r, key).Some? && OD.Lookup(r, key).value.JObj?
  {
    var i :| 0 <= i < |r| && OD.Keys(r)[i] == key;
    OD.LookupAt(r, i);
  }

  /** Storing an object keeps a roster of records. */
  lemma PutRecord(r: Roster, key: string, v: Json)
    requires Records(r) && v.JObj?
    ensures Records(OD.Put(r, key, v))
  {
    OD.PutValid(r, key, v);
    OD.PutEntries(r, key, v);
    var r' := OD.Put(r, key, v);
    forall i | 0 <= i < |r'| ensures r'[i].1.JObj? {
      assert r'[i] in r';
    }
  }

  /** Asking twice for the same record answers the same and changes nothing more. */
  lemma StampTwice(r: Roster, key: string)
    requires Records(r)
    ensures Stamp(Stamp(r, key).roster, key) == Stamp(r, key)
  {
    var s := Stamp(r, key);
    if key in OD.Keys(r) {
      var info := OD.Lookup(r, key).value;
      RecordAt(r, key);
      var stamped := s.result.value;
      assert OD.Lookup(s.roster, key) == Some(stamped);
      OD.PutTwice(info.fields, "id", JStr(key));
      OD.PutTwice(r, key, stamped);
    }
  }

  /** In a roster whose records carry their own ids, asking for a record changes nothing. */
  lemma StampSelfKeyed(r: Roster, key: string)
    requires SelfKeyed(r) && key in OD.Keys(r)
    ensures Stamp(r, key) == Step(Ok(OD.Lookup(r, key).value), r)
  {
    var i :| 0 <= i < |r| && OD.Keys(r)[i] == key;
    OD.LookupAt(r, i);
    var info := r[i].1;
    assert Field(info, "id") == Ok(JStr(key));
    OD.PutSame(info.fields, "id");
    OD.PutSame(r, key);
  }
}
