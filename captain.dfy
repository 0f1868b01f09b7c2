/**
 * captain.py: the captain of the first HTTP generation.  It keeps the
 * sergeants that joined it in a roster keyed by fresh ids, writing each id
 * into the posted record itself, and caches the reports they post.  Its REST
 * handlers read the body with common.py's get_dict and answer 404 for a
 * sergeant it does not know.
 */
module HttpCaptain {
  import opened Wrappers
  import opened JsonValues
  import opened Http
  import opened RequestContract
  import OD = OrderedDicts
  import opened Rosters

  /**
   * accept_sgt: the fresh id is written into the posted object (anything
   * but an object raises TypeError there, before it is stored), the object is
   * stored under that id and answered.  Its 'name' is read only afterwards,
   * for the log line, so a nameless sergeant is stored and then the call
   * raises KeyError.
   */
  function Enrol(r: Roster, info: Json): (s: Step)
    ensures !info.JObj? ==> s == Step(Err(TypeError), r)
    ensures info.JObj? ==>
              var newId := FreshId(OD.Keys(r));
              var stamped := WithId(info.fields, newId);
              newId !in OD.Keys(r)
              && s.roster == r + [(newId, stamped)]
              && OD.Keys(s.roster) == OD.Keys(r) + [newId]
              && s.result == (if "name" in OD.Keys(info.fields) then Ok(stamped) else Err(KeyError))
  {
    if !info.JObj? then Step(Err(TypeError), r)
    else
      var newId := FreshId(OD.Keys(r));
      var stamped := WithId(info.fields, newId);
      OD.PutNew(r, newId, stamped);
      var r' := OD.Put(r, newId, stamped);
      match Field(stamped, "name")
      case Err(e) => Step(Err(e), r')
      case Ok(_) => Step(Ok(stamped), r')
  }

  /** Every sergeant stored by accept_sgt carries its own id, so the roster stays self-keyed. */
  lemma EnrolKeepsSelfKeyed(r: Roster, info: Json)
    requires SelfKeyed(r)
    ensures SelfKeyed(Enrol(r, info).roster)
  {
    if info.JObj? {
      var newId := FreshId(OD.Keys(r));
      var stamped := WithId(info.fields, newId);
      var r' := r + [(newId, stamped)];
      OD.PutNew(r, newId, stamped);
      PutRecord(r, newId, stamped);
      forall i | 0 <= i < |r'| ensures Field(r'[i].1, "id") == Ok(JStr(r'[i].0)) {
        if i < |r| {
          assert r'[i] == r[i];
        }
      }
    }
  }

  /**
   * The record accept_sgt stores is the record asked for under the id it
   * carries, and asking changes nothing.
   */
  lemma EnrolledIsFound(r: Roster, info: Json)
    requires SelfKeyed(r) && info.JObj?
    ensures var s := Enrol(r, info);
            var newId := FreshId(OD.Keys(r));
            Stamp(s.roster, newId) == Step(Ok(WithId(info.fields, newId)), s.roster)
            && (s.result.Ok? ==> Field(s.result.value, "id") == Ok(JStr(newId)))
  {
    var newId := FreshId(OD.Keys(r));
    var stamped := WithId(info.fields, newId);
    OD.PutNew(r, newId, stamped);
    EnrolKeepsSelfKeyed(r, info);
    var s := Enrol(r, info);
    assert OD.Lookup(s.roster, newId) == Some(stamped);
    StampSelfKeyed(s.roster, newId);
  }

  class Captain {
    var id: Json
    var name: string
    var addr: string
    var port: int
    var cache: seq<Json>
    var sgtList: Roster

    ghost predicate Valid()
      reads this
    {
      SelfKeyed(sgtList)
    }

    /** A new captain has the given name and address, no id, no sergeants and no reports. */
    constructor(cptName: string, cptAddr: string, cptPort: int)
      ensures Valid()
      ensures id == JNull && name == cptName && addr == cptAddr && port == cptPort
      ensures cache == [] && sgtList == []
    {
      id := JNull;
      name := cptName;
      addr := cptAddr;
      port := cptPort;
      cache := [];
      sgtList := [];
    }

    /** get_info: the captain's id, name, address and port, in that order. */
    function GetInfo(): (info: Json)
      reads this
      ensures info.JObj? && OD.Keys(info.fields) == ["id", "name", "addr", "port"]
      ensures OD.Lookup(info.fields, "id") == Some(id)
      ensures OD.Lookup(info.fields, "name") == Some(JStr(name))
      ensures OD.Lookup(info.fields, "addr") == Some(JStr(addr))
      ensures OD.Lookup(info.fields, "port") == Some(JNum(port as real))
    {
      var fields := [("id", id), ("name", JStr(name)), ("addr", JStr(addr)), ("port", JNum(port as real))];
      assert OD.Valid(fields) by {
        assert "name"[0] != "addr"[0] && "name"[0] != "port"[0] && "addr"[0] != "port"[0];
      }
      OD.LookupAt(fields, 0);
      OD.LookupAt(fields, 1);
      OD.LookupAt(fields, 2);
      OD.LookupAt(fields, 3);
      JObj(fields)
    }

    /** accept_report: an unknown sergeant raises KeyError; a known one's report is cached. */
    method AcceptReport(sgtId: string, report: Json) returns (raised: Option<Exc>)
      modifies `cache
      ensures sgtId !in OD.Keys(sgtList) ==> raised == Some(KeyError) && cache == old(cache)
      ensures sgtId in OD.Keys(sgtList) ==>
                raised == None && cache == old(cache) + [Entry("sgt_id", sgtId, "report", report)]
    {
      if sgtId !in OD.Keys(sgtList) {
        return Some(KeyError);
      }
      cache := cache + [Entry("sgt_id", sgtId, "report", report)];
      return None;
    }

    /** accept_sgt: as Enrol says. */
    method AcceptSgt(info: Json) returns (res: Result<Json, Exc>)
      requires Valid()
      modifies `sgtList
      ensures Valid()
      ensures Step(res, sgtList) == Enrol(old(sgtList), info)
    {
      EnrolKeepsSelfKeyed(sgtList, info);
      if !info.JObj? {
        return Err(TypeError);
      }
      var newId := FreshId(OD.Keys(sgtList));
      var stamped := WithId(info.fields, newId);
      OD.PutNew(sgtList, newId, stamped);
      sgtList := OD.Put(sgtList, newId, stamped);
      var logged := Field(stamped, "name");
      if logged.Err? {
        return Err(logged.error);
      }
      return Ok(stamped);
    }

    /**
     * get_sgt_info: as Stamp says; every stored record already carries its
     * id, so the answer is the stored record and nothing changes.
     */
    method GetSgtInfo(sgtId: string) returns (res: Result<Json, Exc>)
      requires Valid()
      modifies `sgtList
      ensures Valid()
      ensures Step(res, sgtList) == Stamp(old(sgtList), sgtId)
      ensures sgtList == old(sgtList)
      ensures sgtId in OD.Keys(sgtList) ==> res == Ok(OD.Lookup(sgtList, sgtId).value)
    {
      if sgtId in OD.Keys(sgtList) {
        StampSelfKeyed(sgtList, sgtId);
      }
      var s := Stamp(sgtList, sgtId);
      res, sgtList := s.result, s.roster;
    }

    /** get_sgt_list: the ids of the sergeants, in joining order. */
    function GetSgtList(): (ids: seq<string>)
      reads this
      ensures |ids| == |sgtList| && forall i :: 0 <= i < |sgtList| ==> ids[i] == sgtList[i].0
    {
      OD.Keys(sgtList)
    }
  }

  /** The body of the 404 answers; the info route reuses the sergeant's wording. */
  function NotMine(who: string): Json {
    JObj([("msg", JStr("the " + who + " is not my soldier"))])
  }

  const Succeeded: Json := JObj([("result", JStr("success"))])

  /**
   * POST /sgt/join: a body get_dict rejects is answered as get_dict says;
   * otherwise the sergeant joins, and a raise (no object, or no name after
   * the store) is answered as an internal error.
   */
  method SgtJoin(app: Captain, req: Request) returns (resp: Response)
    requires app.Valid()
    modifies app`sgtList
    ensures app.Valid()
    ensures GetDict(req).Rejected? ==> resp == GetDict(req).resp && app.sgtList == old(app.sgtList)
    ensures GetDict(req).Parsed? ==>
              var s := Enrol(old(app.sgtList), GetDict(req).value);
              app.sgtList == s.roster
              && resp == (if s.result.Ok? then Reply(200, s.result.value) else InternalError)
  {
    var value := GetDict(req);
    if value.Rejected? {
      return value.resp;
    }
    var res := app.AcceptSgt(value.value);
    if res.Err? {
      return InternalError;
    }
    return Reply(200, res.value);
  }

  /** POST /sgt/<sgt_id>/report: 404 for an unknown sergeant, success once the report is cached. */
  method SgtReport(app: Captain, sgtId: string, req: Request) returns (resp: Response)
    modifies app`cache
    ensures GetDict(req).Rejected? ==> resp == GetDict(req).resp && app.cache == old(app.cache)
    ensures GetDict(req).Parsed? && sgtId !in OD.Keys(app.sgtList) ==>
              resp == Reply(404, NotMine("sgt")) && app.cache == old(app.cache)
    ensures GetDict(req).Parsed? && sgtId in OD.Keys(app.sgtList) ==>
              resp == Reply(200, Succeeded)
              && app.cache == old(app.cache) + [Entry("sgt_id", sgtId, "report", GetDict(req).value)]
  {
    var value := GetDict(req);
    if value.Rejected? {
      return value.resp;
    }
    var raised := app.AcceptReport(sgtId, value.value);
    if raised == Some(KeyError) {
      return Reply(404, NotMine("sgt"));
    }
    return Reply(200, Succeeded);
  }

  /** GET /sgt/list: the registered ids under 'sgt_list'. */
  function SgtListReply(app: Captain): (r: Response)
    reads app
    ensures r.code == 200
    ensures var list := Field(r.body, "sgt_list");
            list.Ok? && list.value.JArr? && |list.value.items| == |app.sgtList|
            && forall i :: 0 <= i < |app.sgtList| ==> list.value.items[i] == JStr(app.sgtList[i].0)
  {
    var ids := app.GetSgtList();
    Reply(200, JObj([("sgt_list", JArr(seq(|ids|, i requires 0 <= i < |ids| => JStr(ids[i]))))]))
  }

  /** GET /sgt/<sgt_id>/info: 404 for an unknown sergeant, else its stored record. */
  method SgtInfo(app: Captain, sgtId: string) returns (resp: Response)
    requires app.Valid()
    modifies app`sgtList
    ensures app.Valid() && app.sgtList == old(app.sgtList)
    ensures sgtId !in OD.Keys(app.sgtList) ==> resp == Reply(404, NotMine("pvt"))
    ensures sgtId in OD.Keys(app.sgtList) ==> resp == Reply(200, OD.Lookup(app.sgtList, sgtId).value)
  {
    var res := app.GetSgtInfo(sgtId);
    if res.Err? {
      return Reply(404, NotMine("pvt"));
    }
    return Reply(200, res.value);
  }

  /** GET /dev/cache: the cached reports under 'cache'. */
  function DevCache(app: Captain): (r: Response)
    reads app
    ensures r.code == 200 && Field(r.body, "cache") == Ok(JArr(app.cache))
  {
    Reply(200, JObj([("cache", JArr(app.cache))]))
  }

  /** GET /info: success with the captain's own info. */
  function InfoReply(app: Captain): (r: Response)
    reads app
    ensures r.code == 200
    ensures Field(r.body, "result") == Ok(JStr("success")) && Field(r.body, "info") == Ok(app.GetInfo())
  {
    OD.LookupPair(("result", JStr("success")), ("info", app.GetInfo()));
    Reply(200, JObj([("result", JStr("success")), ("info", app.GetInfo())]))
  }
}
