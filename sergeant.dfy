/**
 * sergeant.py: the sergeant of the first HTTP generation.  It keeps the
 * privates that joined it in a roster keyed by fresh ids, caches the works
 * they post, and reports the cache to its captain on a timer.  Its REST
 * handlers read the body with common.py's get_dict and answer 404 for a
 * private it does not know.
 */
module HttpSergeant {
  import opened Wrappers
  import opened JsonValues
  import opened Http
  import opened RequestContract
  import OD = OrderedDicts
  import opened Rosters

  /** A report timer: the order in which it was started and its period in seconds. */
  datatype Timer = Timer(serial: nat, interval: real)

  /** A POST sent to another node: its URL and its JSON body. */
  datatype Post = Post(url: string, body: Json)

  /** The answer to a join: exactly the private's name and its new id. */
  function JoinAnswer(name: Json, newId: string): (a: Json)
    ensures a.JObj? && OD.Keys(a.fields) == ["name", "id"]
    ensures Field(a, "name") == Ok(name) && Field(a, "id") == Ok(JStr(newId))
  {
    OD.LookupPair(("name", name), ("id", JStr(newId)));
    JObj([("name", name), ("id", JStr(newId))])
  }

  /**
   * accept_pvt: the posted object must have a 'name' (otherwise the lookup
   * raises before anything is stored); it is stored as posted under a fresh
   * id, and the answer is exactly its name and that id.
   */
  function Admit(r: Roster, info: Json): (s: Step)
    ensures s.result.Ok? <==> Field(info, "name").Ok?
    ensures s.result.Err? ==> s == Step(Err(Field(info, "name").error), r)
    ensures s.result.Ok? ==>
              var newId := FreshId(OD.Keys(r));
              newId !in OD.Keys(r)
              && s.result.value == JoinAnswer(Field(info, "name").value, newId)
              && s.roster == r + [(newId, info)]
              && OD.Keys(s.roster) == OD.Keys(r) + [newId]
  {
    var newId := FreshId(OD.Keys(r));
    match Field(info, "name")
    case Err(e) => Step(Err(e), r)
    case Ok(name) =>
      OD.PutNew(r, newId, info);
      Step(Ok(JoinAnswer(name, newId)), OD.Put(r, newId, info))
  }

  /** A private with a name is admitted under the fresh id, and the roster stays a dictionary of records. */
  lemma AdmitOk(r: Roster, info: Json, name: Json)
    requires Records(r) && Field(info, "name") == Ok(name)
    ensures var newId := FreshId(OD.Keys(r));
            Admit(r, info) == Step(Ok(JoinAnswer(name, newId)), OD.Put(r, newId, info))
            && Records(OD.Put(r, newId, info))
  {
    PutRecord(r, FreshId(OD.Keys(r)), info);
  }

  /** The id answered by accept_pvt finds the private that posted, now carrying that id. */
  lemma JoinThenInfo(r: Roster, info: Json)
    requires Records(r) && Admit(r, info).result.Ok?
    ensures var s := Admit(r, info);
            var answered := Field(s.result.value, "id");
            Records(s.roster) && answered.Ok? && answered.value.JStr?
            && var found := Stamp(s.roster, answered.value.s);
               found.result.Ok?
               && Field(found.result.value, "id") == answered
               && Field(found.result.value, "name") == Field(info, "name")
               && forall k :: k != "id" ==> Field(found.result.value, k) == Field(info, k)
  {
    var s := Admit(r, info);
    var newId := FreshId(OD.Keys(r));
    OD.PutNew(r, newId, info);
    PutRecord(r, newId, info);
    assert OD.Lookup(s.roster, newId) == Some(info);
    var found := Stamp(s.roster, newId);
    assert found.result.Ok?;
    assert Field(found.result.value, "name") == Field(info, "name") by {
      assert "name" != "id";
    }
  }

  /** A join leaves every private that joined before as it was. */
  lemma JoinKeepsOthers(r: Roster, info: Json, key: string)
    requires Admit(r, info).result.Ok? && key in OD.Keys(r)
    ensures OD.Lookup(Admit(r, info).roster, key) == OD.Lookup(r, key)
  {
    var newId := FreshId(OD.Keys(r));
    OD.PutNew(r, newId, info);
  }

  /** The URL of the report: the sergeant's own path on its captain. */
  function ReportUrl(superiorEp: string, sgtId: string): string {
    "http://" + superiorEp + "/sgt/" + sgtId + "/report"
  }

  /**
   * Of the timers started, only the current one, which is the last one
   * started, may still be running; every other one has been cancelled.
   */
  ghost predicate LastTimerLive(current: Option<Timer>, started: nat, cancelled: seq<nat>) {
    (current.Some? ==> current.value.serial + 1 == started)
    && forall n :: 0 <= n < started && !(current.Some? && current.value.serial == n) ==> n in cancelled
  }

  class Sergeant {
    var cache: seq<Json>
    var pvtList: Roster
    var superiorEp: string
    var id: string
    var reportTimer: Option<Timer>
    var reportInterval: real
    /** How many report timers have been started, and which of them were cancelled. */
    var timersStarted: nat
    var cancelled: seq<nat>
    /** The POSTs sent to the captain, in order. */
    var outbox: seq<Post>

    /** Every timer but the current one has been cancelled. */
    ghost predicate OneLiveTimer()
      reads this`reportTimer, this`timersStarted, this`cancelled
    {
      LastTimerLive(reportTimer, timersStarted, cancelled)
    }

    ghost predicate Valid()
      reads this`pvtList, this`reportTimer, this`timersStarted, this`cancelled
    {
      Records(pvtList) && OneLiveTimer()
    }

    /** A new sergeant has no privates, no works, no superior, no id and no report timer. */
    constructor()
      ensures Valid()
      ensures cache == [] && pvtList == [] && superiorEp == "" && id == ""
      ensures reportTimer == None && reportInterval == 0.0
      ensures timersStarted == 0 && cancelled == [] && outbox == []
    {
      cache := [];
      pvtList := [];
      superiorEp := "";
      id := "";
      reportTimer := None;
      reportInterval := 0.0;
      timersStarted := 0;
      cancelled := [];
      outbox := [];
    }

    /**
     * report: with a period of 0 nothing happens.  Otherwise the running
     * timer is cancelled, a new one is started with the period, and the
     * cache is posted to the captain.
     */
    method Report() returns (sent: Option<Post>)
      requires Valid()
      modifies `reportTimer, `timersStarted, `cancelled, `outbox
      ensures Valid()
      ensures reportInterval == 0.0 ==>
                sent == None && reportTimer == old(reportTimer) && timersStarted == old(timersStarted)
                && cancelled == old(cancelled) && outbox == old(outbox)
      ensures reportInterval != 0.0 ==>
                cancelled == old(cancelled) + (if old(reportTimer).Some? then [old(reportTimer).value.serial] else [])
                && reportTimer == Some(Timer(old(timersStarted), reportInterval))
                && timersStarted == old(timersStarted) + 1
                && sent == Some(Post(ReportUrl(superiorEp, id), JArr(cache)))
                && outbox == old(outbox) + [sent.value]
    {
      if reportInterval == 0.0 {
        return None;
      }
      if reportTimer.Some? {
        cancelled := cancelled + [reportTimer.value.serial];
      }
      reportTimer := Some(Timer(timersStarted, reportInterval));
      timersStarted := timersStarted + 1;
      var post := Post(ReportUrl(superiorEp, id), JArr(cache));
      outbox := outbox + [post];
      return Some(post);
    }

    /** accept_work: an unknown private raises KeyError; a known one's work is cached. */
    method AcceptWork(pvtId: string, work: Json) returns (raised: Option<Exc>)
      modifies `cache
      ensures pvtId !in OD.Keys(pvtList) ==> raised == Some(KeyError) && cache == old(cache)
      ensures pvtId in OD.Keys(pvtList) ==> raised == None && cache == old(cache) + [Entry("pvt_id", pvtId, "work", work)]
    {
      if pvtId !in OD.Keys(pvtList) {
        return Some(KeyError);
      }
      cache := cache + [Entry("pvt_id", pvtId, "work", work)];
      return None;
    }

    /** accept_pvt: as Admit says. */
    method AcceptPvt(info: Json) returns (res: Result<Json, Exc>)
      requires Valid()
      modifies `pvtList
      ensures Valid()
      ensures Step(res, pvtList) == Admit(old(pvtList), info)
    {
      var newId := FreshId(OD.Keys(pvtList));
      var name := Field(info, "name");
      if name.Err? {
        return Err(name.error);
      }
      ghost var timers := OneLiveTimer();  // the report timer is not touched
      AdmitOk(pvtList, info, name.value);
      pvtList := OD.Put(pvtList, newId, info);
      assert timers;
      return Ok(JoinAnswer(name.value, newId));
    }

    /** get_pvt_info: as Stamp says. */
    method GetPvtInfo(pvtId: string) returns (res: Result<Json, Exc>)
      requires Valid()
      modifies `pvtList
      ensures Valid()
      ensures Step(res, pvtList) == Stamp(old(pvtList), pvtId)
    {
      var s := Stamp(pvtList, pvtId);
      res, pvtList := s.result, s.roster;
    }
  }

  /** The body of the 404 answer to a private the sergeant does not know. */
  const NotMySoldier: Json := JObj([("msg", JStr("the pvt is not my soldier"))])

  /**
   * POST /pvt/join: a body get_dict rejects is answered as get_dict says;
   * otherwise the private joins, and a posted object without a name raises,
   * which the framework answers as an internal error.
   */
  method PvtJoin(app: Sergeant, req: Request) returns (resp: Response)
    requires app.Valid()
    modifies app`pvtList
    ensures app.Valid()
    ensures GetDict(req).Rejected? ==> resp == GetDict(req).resp && app.pvtList == old(app.pvtList)
    ensures GetDict(req).Parsed? ==>
              var s := Admit(old(app.pvtList), GetDict(req).value);
              app.pvtList == s.roster
              && resp == (if s.result.Ok? then Reply(200, s.result.value) else InternalError)
  {
    var value := GetDict(req);
    if value.Rejected? {
      return value.resp;
    }
    var res := app.AcceptPvt(value.value);
    if res.Err? {
      return InternalError;
    }
    return Reply(200, res.value);
  }

  /** POST /pvt/<pvt_id>/work: 404 for an unknown private, success once the work is cached. */
  method PvtWork(app: Sergeant, pvtId: string, req: Request) returns (resp: Response)
    modifies app`cache
    ensures GetDict(req).Rejected? ==> resp == GetDict(req).resp && app.cache == old(app.cache)
    ensures GetDict(req).Parsed? && pvtId !in OD.Keys(app.pvtList) ==>
              resp == Reply(404, NotMySoldier) && app.cache == old(app.cache)
    ensures GetDict(req).Parsed? && pvtId in OD.Keys(app.pvtList) ==>
              resp == Reply(200, JObj([("result", JStr("success"))]))
              && app.cache == old(app.cache) + [Entry("pvt_id", pvtId, "work", GetDict(req).value)]
  {
    var value := GetDict(req);
    if value.Rejected? {
      return value.resp;
    }
    var raised := app.AcceptWork(pvtId, value.value);
    if raised == Some(KeyError) {
      return Reply(404, NotMySoldier);
    }
    return Reply(200, JObj([("result", JStr("success"))]));
  }

  /** GET /pvt/<pvt_id>/info: 404 for an unknown private, else its record with the id set. */
  method PvtInfo(app: Sergeant, pvtId: string) returns (resp: Response)
    requires app.Valid()
    modifies app`pvtList
    ensures app.Valid()
    ensures var s := Stamp(old(app.pvtList), pvtId);
            app.pvtList == s.roster
            && (s.result.Ok? ==> resp == Reply(200, s.result.value))
            && (pvtId !in OD.Keys(old(app.pvtList)) ==> resp == Reply(404, NotMySoldier))
  {
    var res := app.GetPvtInfo(pvtId);
    if res.Err? {
      return Reply(404, NotMySoldier);
    }
    return Reply(200, res.value);
  }

  /** GET /dev/cache: the cached works, in arrival order. */
  function DevCache(app: Sergeant): (r: Response)
    reads app
    ensures r.code == 200 && r.body.JArr? && r.body.items == app.cache
  {
    Reply(200, JArr(app.cache))
  }
}
