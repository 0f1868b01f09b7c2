/**
 * troops/leader.py: the namedtuple generation of the leader.  The Leader
 * class keeps the posted SoldierInfo records, the missions and a cache of
 * works; initialize_app builds it and sets its identity.  The JSON check in
 * front of its handlers is the one of troops/utils.py, which prints the body
 * first.
 */
module TroopsLeader {
  import opened Wrappers
  import opened JsonValues
  import opened Http
  import opened ResponseStatus
  import opened RequestContract
  import OD = OrderedDicts
  import Records
  import Registries

  datatype LeaderInfo = LeaderInfo(
    id: string, name: string, endpoint: string, subordinates: seq<Json>,
    missions: seq<Records.Mission>)

  type Registry = OD.ODict<Json, Records.SoldierInfo>

  function IdOf(s: Records.SoldierInfo): Json {
    s.id
  }

  /** troops/utils.py prints the request body before it checks it. */
  const PrintsBody := true

  class Leader {
    var id: string
    var name: string
    var endpoint: string
    var subordinates: Registry
    var missions: seq<Records.Mission>
    var workCache: seq<Records.Work>

    ghost predicate Valid()
      reads this
    {
      Registries.KeyedBy(subordinates, IdOf)
    }

    /** A new leader has an empty identity and nothing registered. */
    constructor()
      ensures Valid()
      ensures id == "" && name == "" && endpoint == ""
      ensures subordinates == [] && missions == [] && workCache == []
    {
      id := "";
      name := "";
      endpoint := "";
      subordinates := [];
      missions := [];
      workCache := [];
    }

    /** generate_info: the ids of the soldiers, in join order, and the missions. */
    function GenerateInfo(): (info: LeaderInfo)
      reads this
      ensures info.subordinates == OD.Keys(subordinates) && info.missions == missions
      ensures info.id == id && info.name == name && info.endpoint == endpoint
    {
      LeaderInfo(id, name, endpoint, OD.Keys(subordinates), missions)
    }

    /** check_subordinate: membership of the id; an unhashable id raises TypeError. */
    function CheckSubordinate(subId: Json): (r: Result<bool, Exc>)
      reads this
      ensures r.Ok? <==> Hashable(subId)
      ensures r.Ok? ==> (r.value <==> subId in OD.Keys(subordinates))
    {
      Registries.Contains(subordinates, subId)
    }

    /** get_sub_info: the stored soldier; an unknown id raises KeyError. */
    function GetSubInfo(subId: Json): (r: Result<Records.SoldierInfo, Exc>)
      reads this
      requires Valid()
      ensures r.Ok? <==> Hashable(subId) && subId in OD.Keys(subordinates)
      ensures r.Ok? ==> r.value.id == subId && OD.Lookup(subordinates, subId) == Some(r.value)
      ensures Hashable(subId) && subId !in OD.Keys(subordinates) ==> r == Err(KeyError)
    {
      var r := Registries.Index(subordinates, subId);
      if r.Ok? then Registries.IndexCarriesId(subordinates, IdOf, subId); r else r
    }

    /** accept_mission: the mission is appended and returned. */
    method AcceptMission(mission: Records.Mission) returns (r: Records.Mission)
      modifies this
      ensures r == mission && missions == old(missions) + [mission]
      ensures subordinates == old(subordinates) && workCache == old(workCache)
      ensures id == old(id) && name == old(name) && endpoint == old(endpoint)
    {
      missions := missions + [mission];
      return mission;
    }

    /**
     * accept_subordinate: a new id is stored and True returned; a registered
     * id gives False and changes nothing.
     */
    method AcceptSubordinate(info: Records.SoldierInfo) returns (r: Result<bool, Exc>)
      requires Valid()
      modifies this
      ensures Valid()
      ensures !Hashable(info.id) ==> r == Err(TypeError) && subordinates == old(subordinates)
      ensures Hashable(info.id) && info.id in OD.Keys(old(subordinates)) ==>
                r == Ok(false) && subordinates == old(subordinates)
      ensures Hashable(info.id) && info.id !in OD.Keys(old(subordinates)) ==>
                r == Ok(true) && subordinates == old(subordinates) + [(info.id, info)]
                && GenerateInfo().subordinates == old(GenerateInfo().subordinates) + [info.id]
      ensures missions == old(missions) && workCache == old(workCache)
      ensures id == old(id) && name == old(name) && endpoint == old(endpoint)
    {
      var registered := CheckSubordinate(info.id);
      if registered.Err? {
        return Err(registered.error);
      }
      if registered.value {
        return Ok(false);
      }
      Registries.JoinKeeps(subordinates, IdOf, info);
      subordinates := OD.Put(subordinates, info.id, info);
      return Ok(true);
    }

    /**
     * accept_work, as written: a registered id returns False and caches
     * nothing, an unregistered id has its work cached and returns True.
     */
    method AcceptWork(subId: Json, work: Records.Work) returns (r: Result<bool, Exc>)
      modifies this
      ensures !Hashable(subId) ==> r == Err(TypeError) && workCache == old(workCache)
      ensures Hashable(subId) && subId in OD.Keys(subordinates) ==>
                r == Ok(false) && workCache == old(workCache)
      ensures Hashable(subId) && subId !in OD.Keys(subordinates) ==>
                r == Ok(true) && workCache == old(workCache) + [work]
      ensures subordinates == old(subordinates) && missions == old(missions)
      ensures id == old(id) && name == old(name) && endpoint == old(endpoint)
    {
      var registered := CheckSubordinate(subId);
      if registered.Err? {
        return Err(registered.error);
      }
      if registered.value {
        return Ok(false);
      }
      workCache := workCache + [work];
      return Ok(true);
    }
  }

  /** initialize_app: a new leader carrying the given id, name and endpoint, with nothing registered. */
  method InitializeApp(leaderId: string, leaderName: string, endpoint: string) returns (l: Leader)
    ensures fresh(l) && l.Valid()
    ensures l.id == leaderId && l.name == leaderName && l.endpoint == endpoint
    ensures l.subordinates == [] && l.missions == [] && l.workCache == []
  {
    l := new Leader();
    l.id := leaderId;
    l.name := leaderName;
    l.endpoint := endpoint;
  }

  /** GET /: success with the dictionary of generate_info. */
  function GetInfo(l: Leader, asDict: LeaderInfo -> Json): (r: Response)
    reads l
    ensures r.code == 200
    ensures r.body == StatusBodyWith(Success, "info", asDict(l.GenerateInfo()))
  {
    Reply(200, StatusBodyWith(Success, "info", asDict(l.GenerateInfo())))
  }

  /** GET /missions: the accepted missions, rendered one for one in acceptance order. */
  function GetMissions(l: Leader, asDict: Records.Mission -> Json): (r: Response)
    reads l
    ensures r.code == 200
    ensures var list := Field(r.body, "missions");
            list.Ok? && list.value.JArr? && |list.value.items| == |l.missions|
            && forall i :: 0 <= i < |l.missions| ==> list.value.items[i] == asDict(l.missions[i])
  {
    var dicts := seq(|l.missions|, i requires 0 <= i < |l.missions| reads l => asDict(l.missions[i]));
    var r := Reply(200, StatusBodyWith(Success, "missions", JArr(dicts)));
    assert r.body.fields[1..] == [("missions", JArr(dicts))];
    assert OD.Lookup(r.body.fields, "missions") == OD.Lookup(r.body.fields[1..], "missions") by {
      assert "_status"[0] != "missions"[0];
    }
    r
  }

  /**
   * POST /missions: `Mission(**request.json)` with no JSON check in front;
   * the record is always truthy, so the 500 Failed branch is never taken.
   */
  method AcceptMissions(l: Leader, req: Request, asDict: Records.Mission -> Json)
    returns (r: Response)
    modifies l
    ensures RequestJson(req).Err? ==> r == BadRequestPage && l.missions == old(l.missions)
    ensures RequestJson(req).Ok? && RequestJson(req).value.None? ==>
              r == InternalError && l.missions == old(l.missions)
    ensures RequestJson(req).Ok? && RequestJson(req).value.Some? ==>
              var mission := Records.MissionOf(RequestJson(req).value.value);
              (mission.Err? ==> r == InternalError && l.missions == old(l.missions))
              && (mission.Ok? ==>
                    r == Reply(200, StatusBodyWith(Success, "accepted", asDict(mission.value)))
                    && l.missions == old(l.missions) + [mission.value])
    ensures l.subordinates == old(l.subordinates) && l.workCache == old(l.workCache)
  {
    var body := RequestJson(req);
    if body.Err? {
      return BadRequestPage;
    }
    if body.value.None? {
      return InternalError;
    }
    var mission := Records.MissionOf(body.value.value);
    if mission.Err? {
      return InternalError;
    }
    var accepted := l.AcceptMission(mission.value);
    return Reply(200, StatusBodyWith(Success, "accepted", asDict(accepted)));
  }

  /** GET /subordinates: one rendered entry per registered soldier, in join order. */
  function GetSubordinates(l: Leader, req: Request, asDict: Records.SoldierInfo -> Json): (r: Response)
    reads l
    ensures req.verb == GET ==> r.code == 200
    ensures r.code == 200 ==>
              var list := Field(r.body, "subordinates");
              list.Ok? && list.value.JArr? && |list.value.items| == |l.subordinates|
              && forall i :: 0 <= i < |l.subordinates| ==>
                   list.value.items[i] == asDict(l.subordinates[i].1)
  {
    match JsonInputGate(req, PrintsBody)
    case Answer(resp) => resp
    case Pass =>
      var subs := OD.Values(l.subordinates);
      var dicts := seq(|subs|, i requires 0 <= i < |subs| => asDict(subs[i]));
      var r := Reply(200, StatusBodyWith(Success, "subordinates", JArr(dicts)));
      assert r.body.fields[1..] == [("subordinates", JArr(dicts))];
      assert OD.Lookup(r.body.fields, "subordinates") == OD.Lookup(r.body.fields[1..], "subordinates") by {
        assert "_status"[0] != "subordinates"[0];
      }
      r
  }

  /**
   * POST /subordinates: `SoldierInfo(**request.json)`; a soldier whose id is
   * already registered answers 500 with the Failed status, a new one is
   * stored and echoed.
   */
  method AcceptSubordinate(l: Leader, req: Request, asDict: Records.SoldierInfo -> Json)
    returns (r: Response)
    requires req.verb == POST
    requires l.Valid()
    modifies l
    ensures l.Valid()
    ensures JsonInputGate(req, PrintsBody).Answer? ==>
              r == JsonInputGate(req, PrintsBody).resp && l.subordinates == old(l.subordinates)
    ensures JsonInputGate(req, PrintsBody).Pass? ==>
              var soldier := Records.SoldierInfoOf(req.body.value);
              (soldier.Err? ==> r == InternalError && l.subordinates == old(l.subordinates))
              && (soldier.Ok? && !Hashable(soldier.value.id) ==>
                    r == InternalError && l.subordinates == old(l.subordinates))
              && (soldier.Ok? && Hashable(soldier.value.id) && soldier.value.id in OD.Keys(old(l.subordinates)) ==>
                    r == Reply(500, StatusBody(Failed)) && l.subordinates == old(l.subordinates))
              && (soldier.Ok? && Hashable(soldier.value.id) && soldier.value.id !in OD.Keys(old(l.subordinates)) ==>
                    r == Reply(200, StatusBodyWith(Success, "accepted", asDict(soldier.value)))
                    && l.subordinates == old(l.subordinates) + [(soldier.value.id, soldier.value)])
    ensures l.missions == old(l.missions) && l.workCache == old(l.workCache)
  {
    var gate := JsonInputGate(req, PrintsBody);
    if gate.Answer? {
      return gate.resp;
    }
    var soldier := Records.SoldierInfoOf(req.body.value);
    if soldier.Err? {
      return InternalError;
    }
    var accepted := l.AcceptSubordinate(soldier.value);
    if accepted.Err? {
      return InternalError;
    }
    if !accepted.value {
      return Reply(500, StatusBody(Failed));
    }
    return Reply(200, StatusBodyWith(Success, "accepted", asDict(soldier.value)));
  }

  /** GET /subordinates/<sub_id>: the stored soldier, behind the 404 check. */
  function GetSubInfo(l: Leader, subId: string, asDict: Records.SoldierInfo -> Json): (r: Response)
    reads l
    requires l.Valid()
    ensures JStr(subId) !in OD.Keys(l.subordinates) ==> r == SubordinateNotFound
    ensures JStr(subId) in OD.Keys(l.subordinates) ==>
              r.code == 200
              && exists info :: OD.Lookup(l.subordinates, JStr(subId)) == Some(info)
                                && info.id == JStr(subId)
                                && r.body == StatusBodyWith(Success, "info", asDict(info))
  {
    match AccessSubordinate(l.CheckSubordinate(JStr(subId)).value)
    case Answer(resp) => resp
    case Pass => Reply(200, StatusBodyWith(Success, "info", asDict(l.GetSubInfo(JStr(subId)).value)))
  }

  /**
   * POST /subordinates/<sub_id>/work: success echoing the work whatever
   * accept_work returns; the inverted guard means a work from a registered
   * soldier is never cached.
   */
  method AcceptWork(l: Leader, subId: string, req: Request, asDict: Records.Work -> Json)
    returns (r: Response)
    requires req.verb == POST
    modifies l
    ensures JStr(subId) !in OD.Keys(l.subordinates) ==> r == SubordinateNotFound
    ensures JStr(subId) in OD.Keys(l.subordinates) && JsonInputGate(req, PrintsBody).Answer? ==>
              r == JsonInputGate(req, PrintsBody).resp
    ensures JStr(subId) in OD.Keys(l.subordinates) && JsonInputGate(req, PrintsBody).Pass? ==>
              var work := Records.WorkOf(req.body.value);
              (work.Err? ==> r == InternalError)
              && (work.Ok? ==> r == Reply(200, StatusBodyWith(Success, "accepted", asDict(work.value))))
    ensures l.workCache == old(l.workCache)
    ensures l.subordinates == old(l.subordinates) && l.missions == old(l.missions)
  {
    var access := AccessSubordinate(l.CheckSubordinate(JStr(subId)).value);
    if access.Answer? {
      return access.resp;
    }
    var gate := JsonInputGate(req, PrintsBody);
    if gate.Answer? {
      return gate.resp;
    }
    var work := Records.WorkOf(req.body.value);
    if work.Err? {
      return InternalError;
    }
    var cached := l.AcceptWork(JStr(subId), work.value);
    return Reply(200, StatusBodyWith(Success, "accepted", asDict(work.value)));
  }
}
