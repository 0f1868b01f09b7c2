/**
 * rpc_impl/recruiter.py: the xmlrpc recruiter.  It reads the org chart from
 * recruit.yml once, re-keys it by id at every level (commanders, their
 * leaders, the leaders' soldiers), records the client and endpoint of each
 * commander that registers, and answers lookups by searching the nested
 * tables in iteration order.  Nothing traps exceptions: an exception is the
 * `Err` of a result.
 *
 * A record is kept as its fields other than 'subs' plus its table of
 * subordinates; a commander's xmlrpc client is kept as the endpoint it was
 * made for.  resolve_superior may write a leader's 'endpoint' while it
 * searches, so the searches that reach it return the table afterwards.
 */
module RpcRecruiter {
  import opened Wrappers
  import opened JsonValues
  import OD = OrderedDicts

  /** A record's keys other than 'subs', in document order. */
  type Fields = OD.ODict<string, Json>

  /** The configuration as read from recruit.yml, before re-keying. */
  datatype SoldierEntry = SoldierEntry(id: Json, fields: Fields)
  datatype LeaderEntry = LeaderEntry(id: Json, fields: Fields, subs: seq<SoldierEntry>)
  datatype CommanderEntry = CommanderEntry(id: Json, fields: Fields, subs: seq<LeaderEntry>)

  /** The re-keyed records; `client` is the endpoint of the commander's client, once registered. */
  datatype LeaderRec = LeaderRec(fields: Fields, subs: OD.ODict<Json, Fields>)
  datatype CommanderRec = CommanderRec(fields: Fields, subs: OD.ODict<Json, LeaderRec>, client: Option<Json>)
  type Table = OD.ODict<Json, CommanderRec>

  /**
   * What get_subordinate(l_id) answers when sent through the client made for
   * an endpoint: the leader's record, JNull, or the exception of the call.
   */
  type Ask = (Json, Json) -> Result<Json, Exc>

  /** A record returned by resolve_superior: a commander, a commander's leader, or None. */
  datatype Sup = SupCommander(c: nat) | SupLeader(c: nat, j: nat) | NoSup

  /** A search's result together with the table after it. */
  datatype Out<T> = Out(result: Result<T, Exc>, table: Table)

  predicate Keyed(id: Json, fields: Fields) {
    OD.Lookup(fields, "id") == Some(id)
  }

  /**
   * A well-formed recruit.yml: every record's 'id' is hashable and is the
   * entry's id, and no commander carries an 'rpcc' key of its own.
   */
  predicate Configured(troops: seq<CommanderEntry>) {
    forall com <- troops ::
      Hashable(com.id) && Keyed(com.id, com.fields) && "rpcc" !in OD.Keys(com.fields)
      && forall lea <- com.subs ::
           Hashable(lea.id) && Keyed(lea.id, lea.fields)
           && forall sol <- lea.subs :: Hashable(sol.id) && Keyed(sol.id, sol.fields)
  }

  function SoldierPairs(sols: seq<SoldierEntry>): (ps: seq<(Json, Fields)>)
    ensures |ps| == |sols| && forall i :: 0 <= i < |sols| ==> ps[i] == (sols[i].id, sols[i].fields)
  {
    seq(|sols|, i requires 0 <= i < |sols| => (sols[i].id, sols[i].fields))
  }

  /** A leader's soldiers re-keyed by id, in file order. */
  function SoldierTable(sols: seq<SoldierEntry>): OD.ODict<Json, Fields> {
    OD.PutAll([], SoldierPairs(sols))
  }

  function LeaderPairs(leas: seq<LeaderEntry>): (ps: seq<(Json, LeaderRec)>)
    ensures |ps| == |leas|
    ensures forall i :: 0 <= i < |leas| ==> ps[i] == (leas[i].id, LeaderRec(leas[i].fields, SoldierTable(leas[i].subs)))
  {
    seq(|leas|, i requires 0 <= i < |leas| => (leas[i].id, LeaderRec(leas[i].fields, SoldierTable(leas[i].subs))))
  }

  /** A commander's leaders re-keyed by id, each with its soldiers re-keyed. */
  function LeaderTable(leas: seq<LeaderEntry>): OD.ODict<Json, LeaderRec> {
    OD.PutAll([], LeaderPairs(leas))
  }

  function CommanderPairs(troops: seq<CommanderEntry>): (ps: seq<(Json, CommanderRec)>)
    ensures |ps| == |troops|
    ensures forall i :: 0 <= i < |troops| ==>
              ps[i] == (troops[i].id, CommanderRec(troops[i].fields, LeaderTable(troops[i].subs), None))
  {
    seq(|troops|, i requires 0 <= i < |troops| =>
      (troops[i].id, CommanderRec(troops[i].fields, LeaderTable(troops[i].subs), None)))
  }

  /** The table the constructor builds. */
  function Rekey(troops: seq<CommanderEntry>): Table {
    OD.PutAll([], CommanderPairs(troops))
  }

  ghost predicate LeaderFiled(e: (Json, LeaderRec)) {
    Hashable(e.0) && Keyed(e.0, e.1.fields) && OD.Valid(e.1.subs)
  }

  ghost predicate CommanderFiled(e: (Json, CommanderRec)) {
    Hashable(e.0) && Keyed(e.0, e.1.fields) && "rpcc" !in OD.Keys(e.1.fields) && OD.Valid(e.1.subs)
    && forall j :: 0 <= j < |e.1.subs| ==> LeaderFiled(e.1.subs[j])
  }

  /**
   * Every commander and leader is filed under its own 'id', which is
   * hashable, and every table
   * holds a key once.  So `lea['id']` is the key the leader is filed under.
   */
  ghost predicate Filed(t: Table) {
    OD.Valid(t) && forall c :: 0 <= c < |t| ==> CommanderFiled(t[c])
  }

  /** The soldiers of the last leader entry with an id are the ones the leader is filed with. */
  lemma SoldierLastWins(sols: seq<SoldierEntry>, i: nat)
    requires i < |sols|
    requires forall j :: i < j < |sols| ==> sols[j].id != sols[i].id
    ensures OD.Lookup(SoldierTable(sols), sols[i].id) == Some(sols[i].fields)
  {
    var ps := SoldierPairs(sols);
    OD.PutAllLookup([], ps, ps[i].0);
    OD.LastValueAt(ps, i);
  }

  /** A leader id repeated under one commander keeps only its last entry, with that entry's soldiers. */
  lemma LeaderLastWins(leas: seq<LeaderEntry>, i: nat)
    requires i < |leas|
    requires forall j :: i < j < |leas| ==> leas[j].id != leas[i].id
    ensures OD.Lookup(LeaderTable(leas), leas[i].id) == Some(LeaderRec(leas[i].fields, SoldierTable(leas[i].subs)))
  {
    var ps := LeaderPairs(leas);
    OD.PutAllLookup([], ps, ps[i].0);
    OD.LastValueAt(ps, i);
  }

  /** A repeated commander id keeps only its last entry, with that entry's leaders and no client. */
  lemma CommanderLastWins(troops: seq<CommanderEntry>, i: nat)
    requires i < |troops|
    requires forall j :: i < j < |troops| ==> troops[j].id != troops[i].id
    ensures OD.Lookup(Rekey(troops), troops[i].id) ==
              Some(CommanderRec(troops[i].fields, LeaderTable(troops[i].subs), None))
  {
    var ps := CommanderPairs(troops);
    OD.PutAllLookup([], ps, ps[i].0);
    OD.LastValueAt(ps, i);
  }

  /** An id that no commander entry has is not in the table. */
  lemma UnconfiguredAbsent(troops: seq<CommanderEntry>, k: Json)
    requires forall i :: 0 <= i < |troops| ==> troops[i].id != k
    ensures k !in OD.Keys(Rekey(troops))
  {
    var ps := CommanderPairs(troops);
    OD.PutAllLookup([], ps, k);
    assert OD.LastValue(ps, k) == None by {
      NoLastValue(ps, k);
    }
  }

  lemma {:induction false} NoLastValue<V>(ps: seq<(Json, V)>, k: Json)
    requires forall i :: 0 <= i < |ps| ==> ps[i].0 != k
    ensures OD.LastValue(ps, k) == None
    decreases |ps|
  {
    if ps != [] {
      NoLastValue(ps[..|ps| - 1], k);
    }
  }

  /** A configured leader list gives a table whose leaders are filed under their ids. */
  lemma LeaderTableFiled(leas: seq<LeaderEntry>)
    requires forall lea <- leas :: Hashable(lea.id) && Keyed(lea.id, lea.fields)
    ensures OD.Valid(LeaderTable(leas))
    ensures forall j :: 0 <= j < |LeaderTable(leas)| ==> LeaderFiled(LeaderTable(leas)[j])
  {
    var ps := LeaderPairs(leas);
    OD.PutAllValid([], ps);
    forall j | 0 <= j < |OD.PutAll([], ps)| ensures LeaderFiled(OD.PutAll([], ps)[j]) {
      var i := OD.PutAllFrom(ps, j);
      LeaderPairFiled(leas, i);
    }
  }

  lemma LeaderPairFiled(leas: seq<LeaderEntry>, i: nat)
    requires i < |leas| && forall lea <- leas :: Hashable(lea.id) && Keyed(lea.id, lea.fields)
    ensures LeaderFiled(LeaderPairs(leas)[i])
  {
    assert leas[i] in leas;
    OD.PutAllValid([], SoldierPairs(leas[i].subs));
  }

  /** The constructor's table files every commander and leader under its id. */
  lemma RekeyFiled(troops: seq<CommanderEntry>)
    requires Configured(troops)
    ensures Filed(Rekey(troops))
  {
    var ps := CommanderPairs(troops);
    OD.PutAllValid([], ps);
    forall c | 0 <= c < |OD.PutAll([], ps)| ensures CommanderFiled(OD.PutAll([], ps)[c]) {
      var i := OD.PutAllFrom(ps, c);
      EntryFiled(troops, i);
    }
  }

  lemma EntryFiled(troops: seq<CommanderEntry>, i: nat)
    requires Configured(troops) && i < |troops|
    ensures CommanderFiled(CommanderPairs(troops)[i])
  {
    assert troops[i] in troops;
    LeaderTableFiled(troops[i].subs);
  }

  /** One loop of the constructor over a leader's soldiers. */
  method FileSoldiers(sols: seq<SoldierEntry>) returns (d: OD.ODict<Json, Fields>)
    ensures d == SoldierTable(sols)
  {
    var ps := SoldierPairs(sols);
    d := [];
    var i := 0;
    while i < |sols|
      invariant 0 <= i <= |sols|
      invariant d == OD.PutAll([], ps[..i]) && OD.Valid(d)
    {
      OD.PutAllStep([], ps, i);
      d := OD.Put(d, sols[i].id, sols[i].fields);
      i := i + 1;
    }
    assert ps[..i] == ps;
  }

  /** One loop of the constructor over a commander's leaders. */
  method FileLeaders(leas: seq<LeaderEntry>) returns (d: OD.ODict<Json, LeaderRec>)
    ensures d == LeaderTable(leas)
  {
    var ps := LeaderPairs(leas);
    d := [];
    var i := 0;
    while i < |leas|
      invariant 0 <= i <= |leas|
      invariant d == OD.PutAll([], ps[..i]) && OD.Valid(d)
    {
      var sols := FileSoldiers(leas[i].subs);
      OD.PutAllStep([], ps, i);
      d := OD.Put(d, leas[i].id, LeaderRec(leas[i].fields, sols));
      i := i + 1;
    }
    assert ps[..i] == ps;
  }

  /** A commander's record once registered: its client and its 'endpoint' set, nothing else changed. */
  function Enrol(com: CommanderRec, endpoint: Json): (r: CommanderRec)
    ensures r.client == Some(endpoint) && r.subs == com.subs
    ensures OD.Lookup(r.fields, "endpoint") == Some(endpoint)
    ensures forall k :: k != "endpoint" ==> OD.Lookup(r.fields, k) == OD.Lookup(com.fields, k)
    ensures "endpoint" in OD.Keys(r.fields)
    ensures forall k :: k in OD.Keys(com.fields) ==> k in OD.Keys(r.fields)
  {
    CommanderRec(OD.Put(com.fields, "endpoint", endpoint), com.subs, Some(endpoint))
  }

  /** The constructor's loop over the commanders. */
  method FileCommanders(troops: seq<CommanderEntry>) returns (d: Table)
    ensures d == Rekey(troops)
  {
    var ps := CommanderPairs(troops);
    d := [];
    var i := 0;
    while i < |troops|
      invariant 0 <= i <= |troops|
      invariant d == OD.PutAll([], ps[..i]) && OD.Valid(d)
    {
      var leas := FileLeaders(troops[i].subs);
      OD.PutAllStep([], ps, i);
      d := OD.Put(d, troops[i].id, CommanderRec(troops[i].fields, leas, None));
      i := i + 1;
    }
    assert ps[..i] == ps;
  }

  /**
   * register_commander on a table: an unknown id answers False and changes
   * nothing; a known one is enrolled where it stands and answers True.
   * Testing membership of an unhashable id raises TypeError.
   */
  function Register(t: Table, cId: Json, endpoint: Json): (r: (Result<bool, Exc>, Table))
    ensures !Hashable(cId) ==> r == (Err(TypeError), t)
    ensures Hashable(cId) && cId !in OD.Keys(t) ==> r == (Ok(false), t)
    ensures Hashable(cId) && cId in OD.Keys(t) ==>
              r == (Ok(true), OD.Put(t, cId, Enrol(OD.Lookup(t, cId).value, endpoint)))
  {
    if !Hashable(cId) then (Err(TypeError), t)
    else
      match OD.Lookup(t, cId)
      case None => (Ok(false), t)
      case Some(com) => (Ok(true), OD.Put(t, cId, Enrol(com, endpoint)))
  }

  /** Registration keeps every record filed under its id. */
  lemma RegisterFiled(t: Table, cId: Json, endpoint: Json)
    requires Filed(t)
    ensures Filed(Register(t, cId, endpoint).1)
  {
    if Hashable(cId) && cId in OD.Keys(t) {
      var i :| 0 <= i < |t| && t[i].0 == cId;
      OD.LookupAt(t, i);
      var rec := Enrol(t[i].1, endpoint);
      OD.PutExisting(t, i, rec);
      OD.PutValid(t, cId, rec);
      var t' := t[i := (cId, rec)];
      assert Register(t, cId, endpoint).1 == t';
      EnrolFiled(t[i], endpoint);
      forall c | 0 <= c < |t'| ensures CommanderFiled(t'[c]) {
        if c != i {
          assert t'[c] == t[c];
        }
      }
    }
  }

  lemma EnrolFiled(e: (Json, CommanderRec), endpoint: Json)
    requires CommanderFiled(e)
    ensures CommanderFiled((e.0, Enrol(e.1, endpoint)))
  {
    var rec := Enrol(e.1, endpoint);
    assert OD.Lookup(rec.fields, "id") == OD.Lookup(e.1.fields, "id");
    assert OD.Lookup(rec.fields, "rpcc") == OD.Lookup(e.1.fields, "rpcc");
  }

  /** `{'id': raw['id'], 'name': raw[name], 'place': raw['place']}`, read left to right. */
  function Card(raw: Fields, name: string): (r: Result<Fields, Exc>)
    ensures r.Ok? <==> "id" in OD.Keys(raw) && name in OD.Keys(raw) && "place" in OD.Keys(raw)
    ensures r.Ok? ==> r.value == [("id", OD.Lookup(raw, "id").value), ("name", OD.Lookup(raw, name).value),
                                  ("place", OD.Lookup(raw, "place").value)]
    ensures r.Err? ==> r.error == KeyError
  {
    var id :- Field(JObj(raw), "id");
    var n :- Field(JObj(raw), name);
    var place :- Field(JObj(raw), "place");
    Ok([("id", id), ("name", n), ("place", place)])
  }

  /** get_commander: the card of a known commander, the name read from 'commander'; None for an unknown id. */
  function CommanderCard(t: Table, cId: Json): (r: Result<Json, Exc>)
    ensures !Hashable(cId) ==> r == Err(TypeError)
    ensures Hashable(cId) && cId !in OD.Keys(t) ==> r == Ok(JNull)
    ensures Hashable(cId) && cId in OD.Keys(t) ==>
              match Card(OD.Lookup(t, cId).value.fields, "commander")
              case Ok(card) => r == Ok(JObj(card))
              case Err(e) => r == Err(e)
  {
    if !Hashable(cId) then Err(TypeError)
    else
      match OD.Lookup(t, cId)
      case None => Ok(JNull)
      case Some(com) =>
        var card :- Card(com.fields, "commander");
        Ok(JObj(card))
  }

  /** In a filed table the card of a known commander carries the id it was asked for. */
  lemma CardCarriesId(t: Table, cId: Json)
    requires Filed(t)
    requires CommanderCard(t, cId).Ok? && CommanderCard(t, cId).value != JNull
    ensures OD.Lookup(CommanderCard(t, cId).value.fields, "id") == Some(cId)
  {
    var i :| 0 <= i < |t| && t[i].0 == cId;
    OD.LookupAt(t, i);
    assert CommanderFiled(t[i]);
  }

  /** Registering a commander changes no answer of get_commander. */
  lemma RegisterKeepsCards(t: Table, cId: Json, endpoint: Json, k: Json)
    ensures CommanderCard(Register(t, cId, endpoint).1, k) == CommanderCard(t, k)
  {
    if Hashable(cId) && cId in OD.Keys(t) && Hashable(k) {
      var com := OD.Lookup(t, cId).value;
      var t' := OD.Put(t, cId, Enrol(com, endpoint));
      assert Register(t, cId, endpoint).1 == t';
      SameLookupSameCard(t, t', k);
      if k == cId {
        EnrolKeepsCard(com, endpoint, "commander");
      }
    }
  }

  /** get_commander reads only the record filed under the id asked for. */
  lemma SameLookupSameCard(t: Table, u: Table, k: Json)
    requires Hashable(k)
    ensures OD.Lookup(u, k).Some? && OD.Lookup(t, k).Some? ==>
              (Card(OD.Lookup(u, k).value.fields, "commander") == Card(OD.Lookup(t, k).value.fields, "commander")
               ==> CommanderCard(u, k) == CommanderCard(t, k))
    ensures OD.Lookup(u, k) == OD.Lookup(t, k) ==> CommanderCard(u, k) == CommanderCard(t, k)
  {
  }

  /** Enrolling leaves the keys a card reads as they were. */
  lemma EnrolKeepsCard(com: CommanderRec, endpoint: Json, name: string)
    requires name != "endpoint"
    ensures Card(Enrol(com, endpoint).fields, name) == Card(com.fields, name)
  {
    var f, f' := com.fields, Enrol(com, endpoint).fields;
    assert OD.Lookup(f', "id") == OD.Lookup(f, "id");
    assert OD.Lookup(f', name) == OD.Lookup(f, name);
    assert OD.Lookup(f', "place") == OD.Lookup(f, "place");
  }

  /** The first commander, from index i on, whose leaders include l. */
  function FirstCommander(t: Table, l: Json, i: nat): (r: Option<nat>)
    requires i <= |t|
    ensures r.Some? ==> i <= r.value < |t| && l in OD.Keys(t[r.value].1.subs)
    ensures forall c :: i <= c < |t| && (r.None? || c < r.value) ==> l !in OD.Keys(t[c].1.subs)
    decreases |t| - i
  {
    if i == |t| then None
    else if l in OD.Keys(t[i].1.subs) then Some(i)
    else FirstCommander(t, l, i + 1)
  }

  /** The search of get_leader depends only on the commanders' tables of leaders. */
  lemma {:induction false} FirstCommanderKeeps(t: Table, u: Table, l: Json, i: nat)
    requires i <= |t| == |u|
    requires forall c :: 0 <= c < |t| ==> u[c].1.subs == t[c].1.subs
    ensures FirstCommander(u, l, i) == FirstCommander(t, l, i)
    decreases |t| - i
  {
    if i < |t| {
      FirstCommanderKeeps(t, u, l, i + 1);
    }
  }

  /** `com['endpoint'] if 'endpoint' in com else ''`. */
  function EndpointOf(com: CommanderRec): Json {
    match OD.Lookup(com.fields, "endpoint")
    case Some(ep) => ep
    case None => JStr("")
  }

  /**
   * get_leader: the card of the leader as filed under the first commander
   * whose leaders include l_id, its name read from 'leader' and its
   * superior_ep the commander's endpoint, or '' before it registers.
   */
  function LeaderCard(t: Table, l: Json): (r: Result<Json, Exc>)
    ensures !Hashable(l) && |t| > 0 ==> r == Err(TypeError)
    ensures (Hashable(l) || |t| == 0) && FirstCommander(t, l, 0).None? ==> r == Ok(JNull)
    ensures (Hashable(l) || |t| == 0) && FirstCommander(t, l, 0).Some? ==>
              var com := t[FirstCommander(t, l, 0).value].1;
              match Card(OD.Lookup(com.subs, l).value.fields, "leader")
              case Ok(card) => r == Ok(JObj(card + [("superior_ep", EndpointOf(com))]))
              case Err(e) => r == Err(e)
  {
    if !Hashable(l) && |t| > 0 then Err(TypeError)
    else
      match FirstCommander(t, l, 0)
      case None => Ok(JNull)
      case Some(c) =>
        var raw := OD.Lookup(t[c].1.subs, l).value;
        var card :- Card(raw.fields, "leader");
        Ok(JObj(card + [("superior_ep", EndpointOf(t[c].1))]))
  }

  /**
   * Once the commander that first lists a leader registers, the leader's
   * card gives that commander's endpoint as superior_ep.
   */
  lemma RegisteredEndpointReachesLeader(t: Table, cId: Json, endpoint: Json, l: Json)
    requires OD.Valid(t) && Hashable(l) && Hashable(cId)
    requires FirstCommander(t, l, 0).Some? && t[FirstCommander(t, l, 0).value].0 == cId
    requires LeaderCard(t, l).Ok?
    ensures LeaderCard(Register(t, cId, endpoint).1, l) ==
              Ok(JObj(LeaderCard(t, l).value.fields[..3] + [("superior_ep", endpoint)]))
  {
    var c := FirstCommander(t, l, 0).value;
    var rec := Enrol(t[c].1, endpoint);
    var t' := t[c := (cId, rec)];
    RegisterAt(t, c, endpoint);
    FirstCommanderKeeps(t, t', l, 0);
    var card := LeaderCardAt(t, l, c);
    var card' := LeaderCardAt(t', l, c);
    assert card' == card;
    assert EndpointOf(rec) == endpoint;
    assert (card + [("superior_ep", EndpointOf(t[c].1))])[..3] == card;
  }

  /** Registering the commander at position c enrols it in place. */
  lemma RegisterAt(t: Table, c: nat, endpoint: Json)
    requires OD.Valid(t) && c < |t| && Hashable(t[c].0)
    ensures Register(t, t[c].0, endpoint).1 == t[c := (t[c].0, Enrol(t[c].1, endpoint))]
  {
    OD.LookupAt(t, c);
    OD.PutExisting(t, c, Enrol(t[c].1, endpoint));
  }

  /** get_leader's answer when the search stops at commander c and the leader's record has a card. */
  lemma LeaderCardAt(t: Table, l: Json, c: nat) returns (card: Fields)
    requires Hashable(l) && FirstCommander(t, l, 0) == Some(c)
    requires LeaderCard(t, l).Ok?
    ensures Card(OD.Lookup(t[c].1.subs, l).value.fields, "leader") == Ok(card)
    ensures LeaderCard(t, l) == Ok(JObj(card + [("superior_ep", EndpointOf(t[c].1))]))
  {
    card := Card(OD.Lookup(t[c].1.subs, l).value.fields, "leader").value;
  }

  /** Where the search of resolve_superior first meets an id. */
  datatype Spot = AtCommander(c: nat) | AtLeader(c: nat, j: nat) | Nowhere

  /** The first leader, from index j on, whose soldiers include x. */
  function HolderFrom(leas: OD.ODict<Json, LeaderRec>, x: Json, j: nat): (r: Option<nat>)
    requires j <= |leas|
    ensures r.Some? ==> j <= r.value < |leas| && x in OD.Keys(leas[r.value].1.subs)
    ensures forall m :: j <= m < |leas| && (r.None? || m < r.value) ==> x !in OD.Keys(leas[m].1.subs)
    decreases |leas| - j
  {
    if j == |leas| then None
    else if x in OD.Keys(leas[j].1.subs) then Some(j)
    else HolderFrom(leas, x, j + 1)
  }

  /** x is neither one of the commander's leaders nor a soldier of one of them. */
  predicate Untouched(com: CommanderRec, x: Json) {
    x !in OD.Keys(com.subs) && HolderFrom(com.subs, x, 0).None?
  }

  /**
   * The search of resolve_superior from commander i on: each commander's
   * leaders are tested before the soldiers of each of its leaders.
   */
  function SpotFrom(t: Table, x: Json, i: nat): (s: Spot)
    requires i <= |t|
    ensures s.AtCommander? ==> i <= s.c < |t| && x in OD.Keys(t[s.c].1.subs)
    ensures s.AtLeader? ==>
              i <= s.c < |t| && x !in OD.Keys(t[s.c].1.subs) && HolderFrom(t[s.c].1.subs, x, 0) == Some(s.j)
    ensures forall c :: i <= c < |t| && (s.Nowhere? || c < s.c) ==> Untouched(t[c].1, x)
    decreases |t| - i
  {
    if i == |t| then Nowhere
    else if x in OD.Keys(t[i].1.subs) then AtCommander(i)
    else
      match HolderFrom(t[i].1.subs, x, 0)
      case Some(j) => AtLeader(i, j)
      case None => SpotFrom(t, x, i + 1)
  }

  /** The number of places the search visits before commander i. */
  function Offset(t: Table, i: nat): nat
    requires i <= |t|
  {
    if i == 0 then 0 else Offset(t, i - 1) + 1 + |t[i - 1].1.subs|
  }

  /** The position of a spot in the order of the search. */
  function Rank(t: Table, s: Spot): nat
    requires !s.Nowhere? ==> s.c < |t|
  {
    match s
    case Nowhere => Offset(t, |t|)
    case AtCommander(c) => Offset(t, c)
    case AtLeader(c, j) => Offset(t, c) + 1 + j
  }

  lemma {:induction false} OffsetGrows(t: Table, a: nat, b: nat)
    requires a < b <= |t|
    ensures Offset(t, a) + 1 + |t[a].1.subs| <= Offset(t, b)
    decreases b
  {
    if a + 1 < b {
      OffsetGrows(t, a, b - 1);
    }
  }

  /**
   * A leader of commander c is met by the search no later than commander c's
   * own test: this is why resolve_superior and _resolve_leader terminate.
   */
  lemma {:induction false} LeaderMetEarlier(t: Table, x: Json, i: nat, c: nat)
    requires i <= c < |t| && x in OD.Keys(t[c].1.subs)
    ensures Rank(t, SpotFrom(t, x, i)) <= Offset(t, c)
    decreases c - i
  {
    if x in OD.Keys(t[i].1.subs) {
      if i < c {
        OffsetGrows(t, i, c);
      }
    } else if HolderFrom(t[i].1.subs, x, 0).Some? {
      OffsetGrows(t, i, c);
    } else {
      LeaderMetEarlier(t, x, i + 1, c);
    }
  }

  /** The tables have the same records, except that leaders' fields other than 'id' may differ. */
  ghost predicate SameShape(t: Table, u: Table) {
    |u| == |t|
    && forall c :: 0 <= c < |t| ==>
         u[c].0 == t[c].0 && u[c].1.fields == t[c].1.fields && u[c].1.client == t[c].1.client
         && OD.Keys(u[c].1.subs) == OD.Keys(t[c].1.subs)
         && forall j :: 0 <= j < |t[c].1.subs| ==>
              u[c].1.subs[j].1.subs == t[c].1.subs[j].1.subs
              && OD.Lookup(u[c].1.subs[j].1.fields, "id") == OD.Lookup(t[c].1.subs[j].1.fields, "id")
  }

  lemma ShapeTrans(t: Table, u: Table, w: Table)
    requires SameShape(t, u) && SameShape(u, w)
    ensures SameShape(t, w)
  {
    forall c | 0 <= c < |t| ensures |w[c].1.subs| == |t[c].1.subs| {
      assert |OD.Keys(w[c].1.subs)| == |OD.Keys(t[c].1.subs)|;
    }
  }

  /** The record resolve_superior answers for the place where its search stops. */
  function Answer(s: Spot): Sup {
    match s
    case Nowhere => NoSup
    case AtCommander(c) => SupCommander(c)
    case AtLeader(c, j) => SupLeader(c, j)
  }

  /** The records a search finds in the table it was given. */
  predicate Points(t: Table, s: Sup) {
    match s
    case SupCommander(c) => c < |t|
    case SupLeader(c, j) => c < |t| && j < |t[c].1.subs|
    case NoSup => true
  }

  /** `lea['endpoint'] = ep` for leader j of commander c. */
  function SetEndpoint(t: Table, c: nat, j: nat, ep: Json): (u: Table)
    requires c < |t| && j < |t[c].1.subs|
    ensures SameShape(t, u)
    ensures OD.Lookup(u[c].1.subs[j].1.fields, "endpoint") == Some(ep)
  {
    EndpointShape(t, c, j, ep);
    t[c := (t[c].0, Endpointed(t[c].1, j, ep))]
  }

  /** The commander's record with 'endpoint' written into its j-th leader. */
  function Endpointed(com: CommanderRec, j: nat, ep: Json): CommanderRec
    requires j < |com.subs|
  {
    var lea := com.subs[j];
    com.(subs := com.subs[j := (lea.0, LeaderRec(OD.Put(lea.1.fields, "endpoint", ep), lea.1.subs))])
  }

  lemma EndpointShape(t: Table, c: nat, j: nat, ep: Json)
    requires c < |t| && j < |t[c].1.subs|
    ensures SameShape(t, t[c := (t[c].0, Endpointed(t[c].1, j, ep))])
    ensures OD.Lookup(Endpointed(t[c].1, j, ep).subs[j].1.fields, "endpoint") == Some(ep)
  {
    var com := t[c].1;
    var lea := com.subs[j];
    var com' := Endpointed(com, j, ep);
    var u := t[c := (t[c].0, com')];
    OD.KeysKeep(com.subs, j, LeaderRec(OD.Put(lea.1.fields, "endpoint", ep), lea.1.subs));
    forall j' | 0 <= j' < |com.subs|
      ensures com'.subs[j'].1.subs == com.subs[j'].1.subs
      ensures OD.Lookup(com'.subs[j'].1.fields, "id") == OD.Lookup(com.subs[j'].1.fields, "id")
    {
      if j' == j {
        assert OD.Lookup(com'.subs[j].1.fields, "id") == OD.Lookup(lea.1.fields, "id");
      }
    }
    forall c' | 0 <= c' < |t| && c' != c ensures u[c'] == t[c'] {
    }
  }

  /**
   * resolve_superior: the first record that lists x, in the order of the
   * search: the commander of a leader, or the leader of a soldier.  Before
   * answering with a leader it resolves that leader through its commander
   * and, when that answers, copies the answer's 'endpoint' into the leader.
   */
  function Superior(t: Table, x: Json, ask: Ask): (r: Out<Sup>)
    ensures SameShape(t, r.table)
    ensures r.result.Ok? ==> Points(t, r.result.value) && r.result.value == Answer(SpotFrom(t, x, 0))
    ensures !Hashable(x) && |t| > 0 ==> r == Out(Err(TypeError), t)
    ensures (Hashable(x) || |t| == 0) && !SpotFrom(t, x, 0).AtLeader? ==> r == Out(Ok(Answer(SpotFrom(t, x, 0))), t)
    decreases Rank(t, SpotFrom(t, x, 0)), 0
  {
    if !Hashable(x) && |t| > 0 then Out(Err(TypeError), t)
    else
      match SpotFrom(t, x, 0)
      case Nowhere => Out(Ok(NoSup), t)
      case AtCommander(c) => Out(Ok(SupCommander(c)), t)
      case AtLeader(c, j) =>
        var l := t[c].1.subs[j].0;
        assert OD.Keys(t[c].1.subs)[j] == l;
        LeaderMetEarlier(t, l, 0, c);
        var info := ResolveLeader(t, l, ask);
        if info.result.Err? then Out(Err(info.result.error), info.table)
        else if info.result.value == JNull then Out(Ok(SupLeader(c, j)), info.table)
        else
          match Field(info.result.value, "endpoint")
          case Err(e) => Out(Err(e), info.table)
          case Ok(ep) =>
            var u := SetEndpoint(info.table, c, j, ep);
            ShapeTrans(t, info.table, u);
            Out(Ok(SupLeader(c, j)), u)
  }

  /**
   * _resolve_leader: the answer of get_subordinate from the leader's
   * superior, when that is a commander with a client; otherwise None.
   */
  function ResolveLeader(t: Table, l: Json, ask: Ask): (r: Out<Json>)
    ensures SameShape(t, r.table)
    decreases Rank(t, SpotFrom(t, l, 0)), 1
  {
    var sup := Superior(t, l, ask);
    if sup.result.Err? then Out(Err(sup.result.error), sup.table)
    else
      match sup.result.value
      case SupCommander(c) =>
        var com := sup.table[c].1;
        if com.client.None? then Out(Ok(JNull), sup.table) else Out(ask(com.client.value, l), sup.table)
      case _ => Out(Ok(JNull), sup.table)
  }

  /** The first leader, in the order of the search from commander i on, whose soldiers include s. */
  function FindSoldier(t: Table, s: Json, i: nat): (r: Option<(nat, nat)>)
    requires i <= |t|
    ensures r.Some? ==> i <= r.value.0 < |t| && HolderFrom(t[r.value.0].1.subs, s, 0) == Some(r.value.1)
    ensures forall c :: i <= c < |t| && (r.None? || c < r.value.0) ==> HolderFrom(t[c].1.subs, s, 0).None?
    decreases |t| - i
  {
    if i == |t| then None
    else
      match HolderFrom(t[i].1.subs, s, 0)
      case Some(j) => Some((i, j))
      case None => FindSoldier(t, s, i + 1)
  }

  predicate HasLeaders(t: Table) {
    exists c :: 0 <= c < |t| && t[c].1.subs != []
  }

  /**
   * get_soldier: the card of the soldier as filed under the first leader
   * that lists it, its name read from 'soldier' and its superior_ep the
   * 'endpoint' of the leader's record as its commander answers it, or ''
   * when the leader cannot be resolved.
   */
  function SoldierCard(t: Table, s: Json, ask: Ask): (r: Out<Json>)
    ensures SameShape(t, r.table)
    ensures !Hashable(s) && HasLeaders(t) ==> r == Out(Err(TypeError), t)
    ensures (Hashable(s) || !HasLeaders(t)) && FindSoldier(t, s, 0).None? ==> r == Out(Ok(JNull), t)
  {
    if !Hashable(s) && HasLeaders(t) then Out(Err(TypeError), t)
    else
      match FindSoldier(t, s, 0)
      case None => Out(Ok(JNull), t)
      case Some((c, j)) =>
        var lea := t[c].1.subs[j];
        var raw := OD.Lookup(lea.1.subs, s).value;
        var info := ResolveLeader(t, lea.0, ask);
        if info.result.Err? then Out(Err(info.result.error), info.table)
        else
          var ep := if info.result.value == JNull then Ok(JStr("")) else Field(info.result.value, "endpoint");
          if ep.Err? then Out(Err(ep.error), info.table)
          else
            match Card(raw, "soldier")
            case Err(e) => Out(Err(e), info.table)
            case Ok(card) => Out(Ok(JObj(card + [("superior_ep", ep.value)])), info.table)
  }

  /** resolve_superior answers a leader id with the first commander that lists it, changing nothing. */
  lemma SuperiorOfLeader(t: Table, x: Json, c: nat, ask: Ask)
    requires Hashable(x) && c < |t| && x in OD.Keys(t[c].1.subs)
    requires forall c' :: 0 <= c' < c ==> Untouched(t[c'].1, x)
    ensures Superior(t, x, ask) == Out(Ok(SupCommander(c)), t)
  {
  }

  /**
   * resolve_superior answers a soldier id with the first leader that lists
   * it, unless resolving that leader raises.
   */
  lemma SuperiorOfSoldier(t: Table, x: Json, c: nat, j: nat, ask: Ask)
    requires Hashable(x) && c < |t| && x !in OD.Keys(t[c].1.subs) && HolderFrom(t[c].1.subs, x, 0) == Some(j)
    requires forall c' :: 0 <= c' < c ==> Untouched(t[c'].1, x)
    ensures Superior(t, x, ask).result.Ok? ==> Superior(t, x, ask).result.value == SupLeader(c, j)
  {
    assert SpotFrom(t, x, 0) == AtLeader(c, j);
  }

  /** resolve_superior answers None, changing nothing, for an id that no record lists. */
  lemma NoSuperior(t: Table, x: Json, ask: Ask)
    requires Hashable(x)
    requires forall c :: 0 <= c < |t| ==> Untouched(t[c].1, x)
    ensures Superior(t, x, ask) == Out(Ok(NoSup), t)
  {
  }

  /**
   * _resolve_leader answers None when the superior is missing, is a leader,
   * or is a commander without a client.
   */
  lemma UnresolvedLeader(t: Table, l: Json, ask: Ask)
    requires Superior(t, l, ask).result.Ok?
    requires match Superior(t, l, ask).result.value
             case SupCommander(c) => Superior(t, l, ask).table[c].1.client.None?
             case _ => true
    ensures ResolveLeader(t, l, ask) == Out(Ok(JNull), Superior(t, l, ask).table)
  {
  }

  predicate NoClients(t: Table) {
    forall c :: 0 <= c < |t| ==> t[c].1.client.None?
  }

  /**
   * Before any commander registers, resolve_superior changes nothing and
   * raises nothing for a hashable id: no leader can be resolved, so no
   * endpoint is written.
   */
  lemma {:induction false} SuperiorWithoutClients(t: Table, x: Json, ask: Ask)
    requires Filed(t) && NoClients(t) && Hashable(x)
    ensures Superior(t, x, ask).table == t && Superior(t, x, ask).result.Ok?
    decreases Rank(t, SpotFrom(t, x, 0))
  {
    match SpotFrom(t, x, 0)
    case Nowhere =>
    case AtCommander(c) =>
    case AtLeader(c, j) =>
      var l := t[c].1.subs[j].0;
      assert OD.Keys(t[c].1.subs)[j] == l;
      LeaderMetEarlier(t, l, 0, c);
      assert LeaderFiled(t[c].1.subs[j]) by {
        assert CommanderFiled(t[c]);
      }
      SuperiorWithoutClients(t, l, ask);
      ResolveWithoutClients(t, l, ask);
      SettledLeader(t, x, c, j, ask);
  }

  /** Without clients, a leader whose search raises nothing and changes nothing resolves to None. */
  lemma ResolveWithoutClients(t: Table, l: Json, ask: Ask)
    requires NoClients(t)
    requires Superior(t, l, ask).table == t && Superior(t, l, ask).result.Ok?
    ensures ResolveLeader(t, l, ask) == Out(Ok(JNull), t)
  {
  }

  /** The search meets a soldier whose leader resolves to None, changing nothing: it answers that leader. */
  lemma SettledLeader(t: Table, x: Json, c: nat, j: nat, ask: Ask)
    requires Hashable(x) && SpotFrom(t, x, 0) == AtLeader(c, j)
    requires ResolveLeader(t, t[c].1.subs[j].0, ask) == Out(Ok(JNull), t)
    ensures Superior(t, x, ask) == Out(Ok(SupLeader(c, j)), t)
  {
  }

  /** Before any commander registers, a soldier's card gives superior_ep '' and the table stays as it is. */
  lemma SoldierWithoutClients(t: Table, s: Json, ask: Ask, c: nat, j: nat)
    requires Filed(t) && NoClients(t) && Hashable(s)
    requires FindSoldier(t, s, 0) == Some((c, j))
    requires Card(OD.Lookup(t[c].1.subs[j].1.subs, s).value, "soldier").Ok?
    ensures SoldierCard(t, s, ask) ==
              Out(Ok(JObj(Card(OD.Lookup(t[c].1.subs[j].1.subs, s).value, "soldier").value
                          + [("superior_ep", JStr(""))])), t)
  {
    assert LeaderFiled(t[c].1.subs[j]) by {
      assert CommanderFiled(t[c]);
    }
    SuperiorWithoutClients(t, t[c].1.subs[j].0, ask);
    ResolveWithoutClients(t, t[c].1.subs[j].0, ask);
  }

  /** A search keeps every record filed under its id. */
  lemma ShapeKeepsFiled(t: Table, u: Table)
    requires Filed(t) && SameShape(t, u)
    ensures Filed(u)
  {
    assert OD.Keys(u) == OD.Keys(t) by {
      forall c | 0 <= c < |t| ensures OD.Keys(u)[c] == OD.Keys(t)[c] {}
    }
    forall c | 0 <= c < |u| ensures CommanderFiled(u[c]) {
      assert CommanderFiled(t[c]);
      assert |u[c].1.subs| == |OD.Keys(t[c].1.subs)|;
    }
  }

  class Recruiter {
    var recruit: Table

    ghost predicate Valid()
      reads this
    {
      Filed(recruit)
    }

    /**
     * The constructor: commanders filed by id, each commander's leaders by
     * id, each leader's soldiers by id, in file order; a repeated id
     * replaces the earlier record in place.
     */
    constructor(troops: seq<CommanderEntry>)
      requires Configured(troops)
      ensures Valid()
      ensures recruit == Rekey(troops)
    {
      var r := FileCommanders(troops);
      recruit := r;
      RekeyFiled(troops);
    }

    /** register_commander: as Register says. */
    method RegisterCommander(cId: Json, endpoint: Json) returns (res: Result<bool, Exc>)
      requires Valid()
      modifies `recruit
      ensures Valid()
      ensures (res, recruit) == Register(old(recruit), cId, endpoint)
    {
      RegisterFiled(recruit, cId, endpoint);
      var r := Register(recruit, cId, endpoint);
      res, recruit := r.0, r.1;
    }

    /** resolve_superior: answers and updates the table as Superior says. */
    method ResolveSuperior(subId: Json, ask: Ask) returns (res: Result<Sup, Exc>)
      requires Valid()
      modifies `recruit
      ensures Valid()
      ensures Out(res, recruit) == Superior(old(recruit), subId, ask)
    {
      var o := Superior(recruit, subId, ask);
      ShapeKeepsFiled(recruit, o.table);
      res, recruit := o.result, o.table;
    }

    /** get_soldier: answers and updates the table as SoldierCard says. */
    method GetSoldier(sId: Json, ask: Ask) returns (res: Result<Json, Exc>)
      requires Valid()
      modifies `recruit
      ensures Valid()
      ensures Out(res, recruit) == SoldierCard(old(recruit), sId, ask)
    {
      var o := SoldierCard(recruit, sId, ask);
      ShapeKeepsFiled(recruit, o.table);
      res, recruit := o.result, o.table;
    }
  }
}
