/**
 * rpc_impl/troops/commander.py: the xmlrpc commander.  It files missions
 * under their purpose, attaching to each a MongoDB sink for its destination,
 * passes each mission placed "All" down to every leader as an operation,
 * replays every mission when a leader joins, and writes the data its
 * leaders collect to the sink of the data's mission.  Every public method
 * is wrapped by trace_error: the printed exception is the `trace` result.
 * The database itself is not modelled: a sink is its URI, and the batches
 * of records inserted through the sinks are kept in order.
 */
module RpcTroopsCommander {
  import opened Wrappers
  import opened JsonValues
  import OD = OrderedDicts
  import opened RemoteCalls

  /**
   * A stored mission: the mission dictionary as received and the MongoPush
   * sink stored under its 'mongo' key by add_mission, if that attached one.
   */
  datatype MissionRecord = MissionRecord(body: Json, sink: Option<string>)

  /** One insert_many call: the sink's URI and the records inserted. */
  datatype Batch = Batch(uri: string, records: seq<Json>)

  function BodyOf(rec: MissionRecord): Json {
    rec.body
  }

  /** The mission dictionaries, in filing order. */
  function Bodies(missions: OD.ODict<Json, MissionRecord>): (r: seq<Json>)
    ensures |r| == |missions| && forall i :: 0 <= i < |missions| ==> r[i] == missions[i].1.body
  {
    seq(|missions|, i requires 0 <= i < |missions| => missions[i].1.body)
  }

  /**
   * `'mongo' not in mission` and the sink attached then: a mission that
   * already has a 'mongo' entry keeps it; otherwise a sink is made for
   * mission['destination'], whose URI must be a string (re.match).
   */
  function Prepared(rec: MissionRecord): (r: Result<MissionRecord, Exc>)
    ensures rec.sink.Some? || In(JStr("mongo"), rec.body) == Ok(true) ==> r == Ok(rec)
    ensures rec.sink.None? && In(JStr("mongo"), rec.body).Err? ==> r == Err(TypeError)
    ensures rec.sink.None? && In(JStr("mongo"), rec.body) == Ok(false) ==>
              var dest := Field(rec.body, "destination");
              (dest.Err? ==> r == Err(dest.error))
              && (dest.Ok? && !dest.value.JStr? ==> r == Err(TypeError))
              && (dest.Ok? && dest.value.JStr? ==> r == Ok(MissionRecord(rec.body, Some(dest.value.s))))
  {
    if rec.sink.Some? then Ok(rec)
    else
      var present :- In(JStr("mongo"), rec.body);
      if present then Ok(rec)
      else
        var dest :- Field(rec.body, "destination");
        if !dest.JStr? then Err(TypeError) else Ok(MissionRecord(rec.body, Some(dest.s)))
  }

  /** A record add_mission has handled already: handling it again keeps it as it is. */
  predicate Armed(rec: MissionRecord) {
    Prepared(rec) == Ok(rec)
  }

  /** What add_mission stores is armed, so a replay never makes a second sink for it. */
  lemma PreparedIsArmed(rec: MissionRecord)
    requires Prepared(rec).Ok?
    ensures Armed(Prepared(rec).value)
    ensures Prepared(rec).value.body == rec.body
  {
  }

  /** Every stored mission is filed under its purpose and has its sink. */
  predicate MissionsValid(missions: OD.ODict<Json, MissionRecord>) {
    FiledByPurpose(missions, BodyOf) && forall i :: 0 <= i < |missions| ==> Armed(missions[i].1)
  }

  lemma MissionsValidPut(missions: OD.ODict<Json, MissionRecord>, rec: MissionRecord)
    requires MissionsValid(missions) && Armed(rec)
    requires PurposeOf(rec.body).Ok? && Hashable(PurposeOf(rec.body).value)
    ensures MissionsValid(OD.Put(missions, PurposeOf(rec.body).value, rec))
  {
    var k := PurposeOf(rec.body).value;
    FiledByPurposePut(missions, BodyOf, rec);
    OD.PutEntries(missions, k, rec);
    var d := OD.Put(missions, k, rec);
    forall i | 0 <= i < |d| ensures Armed(d[i].1) {
      assert d[i] in d;
      if d[i] != (k, rec) {
        var j :| 0 <= j < |missions| && missions[j] == d[i];
      }
    }
  }

  /** The record push_values inserts for one collected value. */
  function PushRecord(purpose: Json, place: Json, time: Json, v: Json): (r: Json)
    ensures r.JObj? && OD.Keys(r.fields) == ["purpose", "place", "time", "data"]
    ensures Field(r, "purpose") == Ok(purpose) && Field(r, "place") == Ok(place)
    ensures Field(r, "time") == Ok(time) && Field(r, "data") == Ok(v)
  {
    var fields := [("purpose", purpose), ("place", place), ("time", time), ("data", v)];
    assert OD.Keys(fields) == ["purpose", "place", "time", "data"];
    assert OD.Lookup(fields, "data") == Some(v) by {
      assert OD.Lookup(fields, "data") == OD.Lookup(fields[1..], "data") by { assert "purpose"[0] != "data"[0]; }
      assert OD.Lookup(fields[1..], "data") == OD.Lookup(fields[2..], "data") by { assert "place"[0] != "data"[0]; }
      assert OD.Lookup(fields[2..], "data") == OD.Lookup(fields[3..], "data") by { assert "time"[0] != "data"[0]; }
    }
    assert OD.Lookup(fields, "time") == Some(time) by {
      assert OD.Lookup(fields, "time") == OD.Lookup(fields[1..], "time") by { assert "purpose"[0] != "time"[0]; }
      assert OD.Lookup(fields[1..], "time") == OD.Lookup(fields[2..], "time") by { assert "place"[0] != "time"[0]; }
    }
    assert OD.Lookup(fields, "place") == Some(place) by {
      assert "purpose"[1] != "place"[1];
    }
    JObj(fields)
  }

  /**
   * accept_data's list comprehension: data['values'] is iterated first, and
   * purpose, place and time are read for each element, so only when there
   * is one.
   */
  function PushRecords(data: Json): (r: Result<seq<Json>, Exc>)
    ensures Field(data, "values").Err? ==> r == Err(Field(data, "values").error)
    ensures Field(data, "values").Ok? && Iterate(Field(data, "values").value).Err? ==> r == Err(TypeError)
    ensures Field(data, "values").Ok? && Iterate(Field(data, "values").value) == Ok([]) ==> r == Ok([])
    ensures r.Ok? ==>
              Field(data, "values").Ok? && Iterate(Field(data, "values").value).Ok?
              && var items := Iterate(Field(data, "values").value).value;
                 |r.value| == |items|
                 && forall i :: 0 <= i < |items| ==>
                      Field(r.value[i], "data") == Ok(items[i])
                      && Field(r.value[i], "purpose") == Field(data, "purpose")
                      && Field(r.value[i], "place") == Field(data, "place")
                      && Field(r.value[i], "time") == Field(data, "time")
    ensures r.Err? && Field(data, "values").Ok? && Iterate(Field(data, "values").value).Ok? ==>
              Iterate(Field(data, "values").value).value != []
              && (Field(data, "purpose").Err? || Field(data, "place").Err? || Field(data, "time").Err?)
  {
    var values :- Field(data, "values");
    var items :- Iterate(values);
    if items == [] then Ok([])
    else
      var purpose :- Field(data, "purpose");
      var place :- Field(data, "place");
      var time :- Field(data, "time");
      Ok(seq(|items|, i requires 0 <= i < |items| => PushRecord(purpose, place, time, items[i])))
  }

  /**
   * Whether MongoPush's `re.match(r"mongodb://(.*?)/(.*?)/(.*)", uri)`
   * succeeds: the prefix, then two slashes before the first line break.
   * Without a match the sink is built without a collection.
   */
  predicate MongoUri(uri: string) {
    |uri| >= 10 && uri[..10] == "mongodb://"
    && exists i, j :: 10 <= i < j < |uri| && uri[i] == '/' && uri[j] == '/'
                      && forall k :: 10 <= k < j ==> uri[k] != '\n'
  }

  /**
   * accept_data for the stored missions: the batch the mission's sink
   * inserts (None when there are no values), or the exception.
   */
  function Delivery(missions: OD.ODict<Json, MissionRecord>, data: Json): (r: Result<Option<Batch>, Exc>)
    requires MissionsValid(missions)
    ensures PushRecords(data).Err? ==> r == Err(PushRecords(data).error)
    ensures r.Ok? ==>
              PushRecords(data).Ok? && Field(data, "purpose").Ok?
              && var rec := OD.Lookup(missions, Field(data, "purpose").value);
                 rec.Some? && rec.value.sink.Some?
                 && (r.value.None? <==> PushRecords(data).value == [])
                 && (r.value.Some? ==>
                       r.value.value == Batch(rec.value.sink.value, PushRecords(data).value)
                       && MongoUri(rec.value.sink.value))
    ensures PushRecords(data).Ok? && Field(data, "purpose").Ok? && Hashable(Field(data, "purpose").value) ==>
              var rec := OD.Lookup(missions, Field(data, "purpose").value);
              (rec.None? ==> r == Err(KeyError))
              && (rec.Some? && rec.value.sink.None? ==> r == Err(AttributeError))
              && ((rec.Some? && rec.value.sink.Some? && PushRecords(data).value != []
                   && !MongoUri(rec.value.sink.value)) ==> r == Err(AttributeError))
    ensures PushRecords(data).Ok? && Field(data, "purpose").Ok? && !Hashable(Field(data, "purpose").value) ==>
              r == Err(TypeError)
  {
    var records :- PushRecords(data);
    var purpose :- Field(data, "purpose");
    if !Hashable(purpose) then Err(TypeError)
    else
      match OD.Lookup(missions, purpose)
      case None => Err(KeyError)
      case Some(rec) =>
        if rec.sink.None? then
          // an armed record without a sink has its own 'mongo' entry, a value without push_values
          Err(AttributeError)
        else if records == [] then Ok(None)
        else if !MongoUri(rec.sink.value) then Err(AttributeError)
        else Ok(Some(Batch(rec.sink.value, records)))
  }

  /** 2 to the power n. */
  function Pow2(n: nat): (r: nat)
    ensures r >= 1
  {
    if n == 0 then 1 else 2 * Pow2(n - 1)
  }

  /** The number of refused attempts before the first answer, at most retryCount. */
  function Refusals(answer: nat -> Option<Json>, retryCount: nat, from: nat): (n: nat)
    requires from <= retryCount
    ensures from <= n <= retryCount
    ensures forall i :: from <= i < n ==> answer(i).None?
    ensures n < retryCount ==> answer(n).Some?
    decreases retryCount - from
  {
    if from == retryCount || answer(from).Some? then from else Refusals(answer, retryCount, from + 1)
  }

  /** The doubled wait identifies the number of refusals: it equals 2 * 2^count only after count of them. */
  lemma {:induction false} Pow2Injective(m: nat, n: nat)
    ensures Pow2(m) == Pow2(n) <==> m == n
    decreases m + n
  {
    if m != n && m > 0 && n > 0 {
      Pow2Injective(m - 1, n - 1);
    } else if m != n && m == 0 {
      Pow2Grows(n);
    } else if m != n {
      Pow2Grows(m);
    }
  }

  lemma {:induction false} Pow2Grows(n: nat)
    requires n > 0
    ensures Pow2(n) >= 2
  {
  }

  /** The waits slept after n refusals, doubling from 2: 2, 4, 8, ... */
  function Waits(n: nat): (w: seq<nat>)
    ensures |w| == n && forall i :: 0 <= i < n ==> w[i] == 2 * Pow2(i)
  {
    if n == 0 then [] else Waits(n - 1) + [2 * Pow2(n - 1)]
  }

  /** A refused attempt before the last one does not end the count. */
  lemma RefusalsSkip(answer: nat -> Option<Json>, retryCount: nat, i: nat)
    requires i < retryCount && answer(i).None?
    ensures Refusals(answer, retryCount, i) == Refusals(answer, retryCount, i + 1)
  {
  }

  /**
   * The retry loop of _identify: the reply of the first attempt that was
   * not refused (None, JNull, if all were), the wait the next refusal
   * would sleep, and the waits slept.
   */
  method Contact(retryCount: nat, answer: nat -> Option<Json>) returns (resolved: Json, retrySleep: nat, sleeps: seq<nat>)
    ensures var n := Refusals(answer, retryCount, 0);
            retrySleep == 2 * Pow2(n) && sleeps == Waits(n)
            && resolved == (if n < retryCount then answer(n).value else JNull)
  {
    resolved := JNull;
    retrySleep := 2;
    sleeps := [];
    var i := 0;
    while i < retryCount
      invariant 0 <= i <= retryCount
      invariant retrySleep == 2 * Pow2(i) && sleeps == Waits(i)
      invariant resolved == JNull
      invariant Refusals(answer, retryCount, 0) == Refusals(answer, retryCount, i)
    {
      var reply := answer(i);
      if reply.None? {
        RefusalsSkip(answer, retryCount, i);
        sleeps := sleeps + [retrySleep];
        retrySleep := retrySleep * 2;
        i := i + 1;
        continue;
      }
      resolved := reply.value;
      break;
    }
  }

  class CommanderBase {
    var id: Json
    var name: Json
    var place: Json
    var endpoint: Json
    var missions: OD.ODict<Json, MissionRecord>
    var subordinates: OD.ODict<Json, Member>
    var outbox: seq<Sent>
    var inserted: seq<Batch>

    ghost predicate Valid()
      reads this
    {
      MissionsValid(missions) && OD.Valid(subordinates)
    }

    constructor()
      ensures Valid()
      ensures id == JStr("") && name == JStr("") && place == JStr("") && endpoint == JStr("")
      ensures missions == [] && subordinates == [] && outbox == [] && inserted == []
    {
      id := JStr("");
      name := JStr("");
      place := JStr("");
      endpoint := JStr("");
      missions := [];
      subordinates := [];
      outbox := [];
      inserted := [];
    }

    /** add_mission, for a mission received over xmlrpc. */
    method AddMission(mission: Json) returns (trace: Option<Exc>)
      requires Valid()
      modifies this
      ensures Valid()
      ensures subordinates == old(subordinates) && inserted == old(inserted)
      ensures var p := Prepared(MissionRecord(mission, None));
              (p.Err? ==> trace == Some(p.error) && missions == old(missions) && outbox == old(outbox))
              && (p.Ok? ==> Filed(p.value, old(missions), old(outbox), missions, outbox, trace))
    {
      trace := FileMission(MissionRecord(mission, None));
    }

    /**
     * What storing an armed record under its purpose and fanning it out
     * leaves: the new missions and outbox, and the exception.
     */
    ghost predicate Filed(rec: MissionRecord, missions0: OD.ODict<Json, MissionRecord>, outbox0: seq<Sent>,
                          missions1: OD.ODict<Json, MissionRecord>, outbox1: seq<Sent>, trace: Option<Exc>)
      reads this
    {
      (PurposeOf(rec.body).Err? ==>
         trace == Some(PurposeOf(rec.body).error) && missions1 == missions0 && outbox1 == outbox0)
      && (PurposeOf(rec.body).Ok? && !Hashable(PurposeOf(rec.body).value) ==>
            trace == Some(TypeError) && missions1 == missions0 && outbox1 == outbox0)
      && (PurposeOf(rec.body).Ok? && Hashable(PurposeOf(rec.body).value) ==>
            missions1 == OD.Put(missions0, PurposeOf(rec.body).value, rec)
            && outbox1 == outbox0 + Dispatch(OperationFor, rec.body, subordinates, false).sent
            && trace == Dispatch(OperationFor, rec.body, subordinates, false).failure)
    }

    /**
     * The body of add_mission: the sink is attached if missing, the mission
     * is filed under its purpose, replacing an earlier one, and every leader
     * gets its operation when the place is "All", until one raises.
     */
    method FileMission(rec: MissionRecord) returns (trace: Option<Exc>)
      requires Valid()
      modifies this
      ensures Valid()
      ensures subordinates == old(subordinates) && inserted == old(inserted)
      ensures id == old(id) && name == old(name) && place == old(place) && endpoint == old(endpoint)
      ensures Prepared(rec).Err? ==> trace == Some(Prepared(rec).error) && missions == old(missions) && outbox == old(outbox)
      ensures Prepared(rec).Ok? ==> Filed(Prepared(rec).value, old(missions), old(outbox), missions, outbox, trace)
    {
      var armed := Prepared(rec);
      if armed.Err? {
        return Some(armed.error);
      }
      var r := armed.value;
      PreparedIsArmed(rec);
      var purpose := PurposeOf(r.body);
      if purpose.Err? {
        return Some(purpose.error);
      }
      if !Hashable(purpose.value) {
        return Some(TypeError);
      }
      MissionsValidPut(missions, r);
      missions := OD.Put(missions, purpose.value, r);
      var where := Field(r.body, "place");
      if where.Err? {
        return Some(where.error);
      }
      var targets := if where.value == JStr("All") then subordinates else [];
      var sent;
      sent, trace := FanOut(OperationFor, r.body, targets);
      outbox := outbox + sent;
    }

    /**
     * add_subordinate: the leader's record is filed under its id, replacing
     * an earlier one, then every stored mission is added again; each of
     * those calls traps its own exception, so the replay goes on past it.
     */
    method AddSubordinate(info: Json) returns (trace: Option<Exc>)
      requires Valid()
      modifies this
      ensures Valid()
      ensures missions == old(missions) && inserted == old(inserted)
      ensures Enlist(info).Err? ==>
                trace == Some(Enlist(info).error) && subordinates == old(subordinates) && outbox == old(outbox)
      ensures Enlist(info).Ok? ==>
                trace == None
                && subordinates == OD.Put(old(subordinates), Enlist(info).value.0, Enlist(info).value.1)
                && outbox == old(outbox) + ReplayTraced(OperationFor, Bodies(missions), subordinates)
    {
      var entry := Enlist(info);
      if entry.Err? {
        return Some(entry.error);
      }
      OD.PutValid(subordinates, entry.value.0, entry.value.1);
      subordinates := OD.Put(subordinates, entry.value.0, entry.value.1);
      var stored := OD.Values(missions);
      ghost var jobs := Bodies(missions);
      ghost var subs := subordinates;
      var k := 0;
      while k < |stored|
        invariant 0 <= k <= |stored| == |jobs|
        invariant Valid() && missions == old(missions) && inserted == old(inserted)
        invariant subordinates == subs
        invariant outbox == old(outbox) + ReplayTraced(OperationFor, jobs[..k], subs)
      {
        RefileKeeps(missions, BodyOf, k);
        assert Armed(missions[k].1);
        ghost var done := ReplayTraced(OperationFor, jobs[..k], subs);
        ghost var before := outbox;
        var ignored := FileMission(stored[k]);
        ghost var sent := Dispatch(OperationFor, jobs[k], subs, false).sent;
        assert outbox == before + sent;
        ReplayTracedStep(OperationFor, jobs, subs, k);
        Appended(old(outbox), done, sent);
        k := k + 1;
      }
      assert jobs[..k] == jobs;
      return None;
    }

    /**
     * get_subordinate: None (JNull) for an unknown id; otherwise a copy of
     * the record without 'rpcc'.  The stored record keeps its client.
     */
    function GetSubordinate(subId: Json): (r: (Json, Option<Exc>))
      reads this
      requires Valid()
      ensures !Hashable(subId) ==> r == (JNull, Some(TypeError))
      ensures Hashable(subId) && subId !in OD.Keys(subordinates) ==> r == (JNull, None)
      ensures Hashable(subId) && subId in OD.Keys(subordinates) ==>
                r.1 == None && OD.Lookup(subordinates, subId).Some?
                && r.0 == JObj(OD.Lookup(subordinates, subId).value.fields)
    {
      if !Hashable(subId) then (JNull, Some(TypeError))
      else
        match OD.Lookup(subordinates, subId)
        case None => (JNull, None)
        case Some(m) => (JObj(m.fields), None)
    }

    /**
     * accept_data: the push records are built and handed to the sink of the
     * data's mission, which inserts them unless there are none.
     */
    method AcceptData(data: Json) returns (trace: Option<Exc>)
      requires Valid()
      modifies `inserted
      ensures Delivery(missions, data).Err? ==> trace == Some(Delivery(missions, data).error) && inserted == old(inserted)
      ensures Delivery(missions, data) == Ok(None) ==> trace == None && inserted == old(inserted)
      ensures Delivery(missions, data).Ok? && Delivery(missions, data).value.Some? ==>
                trace == None && inserted == old(inserted) + [Delivery(missions, data).value.value]
    {
      var delivery := Delivery(missions, data);
      if delivery.Err? {
        return Some(delivery.error);
      }
      if delivery.value.Some? {
        inserted := inserted + [delivery.value.value];
      }
      return None;
    }

    /**
     * _identify: get_commander is tried up to retryCount times; `answer(i)`
     * is the reply to attempt i, None when the connection was refused.  The
     * wait starts at 2 seconds and doubles after each refusal; the waits
     * are returned.  Then, in order: every attempt refused, the commander
     * unknown (a None reply), registration refused; otherwise the
     * commander takes its id, name and place from the reply and the result
     * is True.
     */
    method Identify(selfId: string, retryCount: nat, answer: nat -> Option<Json>, registered: Json)
      returns (r: Result<Json, Exc>, sleeps: seq<nat>)
      modifies `id, `name, `place
      ensures var n := Refusals(answer, retryCount, 0);
              |sleeps| == n && (forall i :: 0 <= i < n ==> sleeps[i] == 2 * Pow2(i))
              && (n == retryCount ==> r == Ok(JStr("Couldn't connect to recruiter")))
              && (n < retryCount && answer(n).value == JNull ==>
                    r == Ok(JStr("Commander not found: ID = " + selfId)))
              && (n < retryCount && answer(n).value != JNull && !Truthy(registered) ==>
                    r == Ok(JStr("Failed to register commander info")))
              && (n < retryCount && answer(n).value != JNull && Truthy(registered) ==>
                    var resolved := answer(n).value;
                    (Field(resolved, "id").Err? ==> r == Err(Field(resolved, "id").error))
                    && (Field(resolved, "id").Ok? && Field(resolved, "name").Err? ==> r == Err(Field(resolved, "name").error))
                    && (Field(resolved, "id").Ok? && Field(resolved, "name").Ok? && Field(resolved, "place").Err? ==>
                          r == Err(Field(resolved, "place").error))
                    && (r.Ok? ==> r.value == JBool(true)
                                  && Ok(id) == Field(resolved, "id") && Ok(name) == Field(resolved, "name")
                                  && Ok(place) == Field(resolved, "place")))
      ensures r.Ok? && r.value != JBool(true) ==> id == old(id) && name == old(name) && place == old(place)
    {
      var resolved, retrySleep;
      resolved, retrySleep, sleeps := Contact(retryCount, answer);
      Pow2Injective(Refusals(answer, retryCount, 0), retryCount);
      if retrySleep == 2 * Pow2(retryCount) {
        return Ok(JStr("Couldn't connect to recruiter")), sleeps;
      }
      if resolved == JNull {
        return Ok(JStr("Commander not found: ID = " + selfId)), sleeps;
      }
      if !Truthy(registered) {
        return Ok(JStr("Failed to register commander info")), sleeps;
      }
      var newId := Field(resolved, "id");
      if newId.Err? {
        return Err(newId.error), sleeps;
      }
      id := newId.value;
      var newName := Field(resolved, "name");
      if newName.Err? {
        return Err(newName.error), sleeps;
      }
      name := newName.value;
      var newPlace := Field(resolved, "place");
      if newPlace.Err? {
        return Err(newPlace.error), sleeps;
      }
      place := newPlace.value;
      return Ok(JBool(true)), sleeps;
    }
  }
}
