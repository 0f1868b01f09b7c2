/**
 * controller/recruiter.py: the REST handlers of the recruiter.  The model
 * operations the handlers call without the recruiter model defining them
 * (register_commander_info, remove_commander_info, get_soldier_ep,
 * get_leader_ep), the recruiter's resolve_leader, which asks a commander
 * over REST, and `to_dict` are passed in.
 */
module ControllerRecruiter {
  import opened Wrappers
  import opened JsonValues
  import opened Http
  import opened ResponseStatus
  import opened RequestContract
  import OD = OrderedDicts
  import ActorInfo
  import StringOrder
  import OrgCharts
  import MR = ModelRecruiter

  /** The texts of a list of JSON strings. */
  function Texts(items: seq<Json>): (r: seq<string>)
    requires forall i :: 0 <= i < |items| ==> items[i].JStr?
    ensures |r| == |items| && forall i :: 0 <= i < |items| ==> r[i] == items[i].s
  {
    if items == [] then [] else [items[0].s] + Texts(items[1..])
  }

  /** GET /commanders: the configured commander ids, sorted ascending. */
  function GetCommanders(rec: MR.Recruiter): (r: Response)
    reads rec
    ensures r.code == 200
    ensures var list := Field(r.body, "commanders");
            list.Ok? && list.value.JArr?
            && (forall i :: 0 <= i < |list.value.items| ==> list.value.items[i].JStr?)
            && StringOrder.Sorted(Texts(list.value.items))
            && multiset(Texts(list.value.items)) == multiset(OD.Keys(rec.troopList))
  {
    var ids := StringOrder.Sort(OD.Keys(rec.troopList));
    var items := seq(|ids|, i requires 0 <= i < |ids| => JStr(ids[i]));
    StatusBodyWithField(Success, "commanders", JArr(items));
    assert Texts(items) == ids;
    Reply(200, StatusBodyWith(Success, "commanders", JArr(items)))
  }

  /**
   * GET /commanders/<com_id>: 404 NotFound for an id the configuration does
   * not name; the cached record when there is one, else an empty object.
   */
  function GetCommanderInfo(rec: MR.Recruiter, comId: string, toDict: ActorInfo.CommanderInfo -> Json)
    : (r: Response)
    reads rec
    requires rec.Valid()
    ensures comId !in OD.Keys(rec.troopList) ==> r == Reply(404, StatusBody(NotFound))
    ensures comId in OD.Keys(rec.troopList) && comId !in OD.Keys(rec.commanderCache) ==>
              r == Reply(200, StatusBodyWith(Success, "commander", JObj([])))
    ensures comId in OD.Keys(rec.troopList) && comId in OD.Keys(rec.commanderCache) ==>
              exists info :: OD.Lookup(rec.commanderCache, comId) == Some(info)
                             && r == Reply(200, StatusBodyWith(Success, "commander", toDict(info)))
  {
    if comId !in OD.Keys(rec.troopList) then Reply(404, StatusBody(NotFound))
    else
      match rec.ResolveCommander(comId)
      case None => Reply(200, StatusBodyWith(Success, "commander", JObj([])))
      case Some(info) => Reply(200, StatusBodyWith(Success, "commander", toDict(info)))
  }

  const InvalidInput := "Input parameter is invalid"

  /**
   * PUT /commanders/<com_id>: behind the JSON check, `CommanderInfo.make`;
   * a malformed record or one whose id is not the path's answers 400 and
   * echoes the input without calling the model; then register_commander_info
   * decides between 404 (None) and 200 with the accepted record.
   */
  function RegisterCommanders(req: Request, comId: string,
                              register: ActorInfo.CommanderInfo -> Option<ActorInfo.CommanderInfo>,
                              toDict: ActorInfo.CommanderInfo -> Json): (r: Response)
    requires req.verb == PUT
    ensures JsonInputGate(req, false).Answer? ==> r == JsonInputGate(req, false).resp
    ensures JsonInputGate(req, false).Pass? ==>
              var com := ActorInfo.CommanderInfoMake(req.body.value);
              var invalid := Reply(400, JObj([("_status", MakeError(InvalidInput)), ("input", req.body.value)]));
              (com.Err? ==> r == invalid)
              && (com.Ok? && com.value.id != JStr(comId) ==> r == invalid)
              && (com.Ok? && com.value.id == JStr(comId) && register(com.value).None? ==>
                    r == Reply(404, StatusBody(NotFound)))
              && (com.Ok? && com.value.id == JStr(comId) && register(com.value).Some? ==>
                    r == Reply(200, StatusBodyWith(Success, "commander", toDict(register(com.value).value))))
    ensures r.code == 200 ==> ActorInfo.CommanderInfoMake(req.body.value).Ok?
                              && ActorInfo.CommanderInfoMake(req.body.value).value.id == JStr(comId)
  {
    match JsonInputGate(req, false)
    case Answer(resp) => resp
    case Pass =>
      var invalid := Reply(400, JObj([("_status", MakeError(InvalidInput)), ("input", req.body.value)]));
      match ActorInfo.CommanderInfoMake(req.body.value)
      case Err(_) => invalid
      case Ok(com) =>
        if com.id != JStr(comId) then invalid
        else
          match register(com)
          case None => Reply(404, StatusBody(NotFound))
          case Some(accepted) => Reply(200, StatusBodyWith(Success, "commander", toDict(accepted)))
  }

  /**
   * GET /department/squad/leader: a missing soldier_id answers 400, a
   * soldier no squad lists 404, a leader resolve_leader cannot resolve 500;
   * otherwise the leader's record and the soldier's endpoint.
   */
  function GetSquadLeader(rec: MR.Recruiter, soldierId: Option<string>,
                          resolveLeader: string -> Option<ActorInfo.LeaderInfo>,
                          soldierEp: string -> Json,
                          toDict: ActorInfo.LeaderInfo -> Json): (r: Response)
    reads rec
    ensures soldierId.None? ==>
              r == Reply(400, StatusBody(MakeError("Query param: soldier_id is required")))
    ensures soldierId.Some? ==>
              var found := rec.GetSquadLeader(JStr(soldierId.value));
              (found.Err? ==> r == InternalError)
              && (found == Ok(None) ==>
                    r == Reply(404, StatusBody(MakeError("Specified soldier does not exist on database"))))
              && (found.Ok? && found.value.Some? && resolveLeader(found.value.value).None? ==>
                    r == Reply(500, StatusBody(MakeError("LeaderID was found, but the instance was not resolved"))))
              && (found.Ok? && found.value.Some? && resolveLeader(found.value.value).Some? ==>
                    r == Reply(200, JObj([("_status", Success),
                                          ("leader", toDict(resolveLeader(found.value.value).value)),
                                          ("place", soldierEp(soldierId.value))])))
  {
    if soldierId.None? then Reply(400, StatusBody(MakeError("Query param: soldier_id is required")))
    else
      match rec.GetSquadLeader(JStr(soldierId.value))
      case Err(_) => InternalError
      case Ok(None) => Reply(404, StatusBody(MakeError("Specified soldier does not exist on database")))
      case Ok(Some(leaderId)) =>
        match resolveLeader(leaderId)
        case None => Reply(500, StatusBody(MakeError("LeaderID was found, but the instance was not resolved")))
        case Some(info) =>
          Reply(200, JObj([("_status", Success), ("leader", toDict(info)), ("place", soldierEp(soldierId.value))]))
  }

  /**
   * GET /department/troop/commander: the same order of checks with the
   * troop table and the commander cache: 400, 404, 500, then the
   * commander's record and the leader's endpoint.
   */
  function GetTroopCommander(rec: MR.Recruiter, leaderId: Option<string>,
                             leaderEp: string -> Json,
                             toDict: ActorInfo.CommanderInfo -> Json): (r: Response)
    reads rec
    requires rec.Valid()
    ensures leaderId.None? ==>
              r == Reply(400, StatusBody(MakeError("Query-param leader_id is required")))
    ensures leaderId.Some? ==>
              var found := rec.GetTroopCommander(JStr(leaderId.value));
              (found.Err? ==> r == InternalError)
              && (found == Ok(None) ==>
                    r == Reply(404, StatusBody(MakeError("Specified leader does not exist on database"))))
              && (found.Ok? && found.value.Some? && found.value.value !in OD.Keys(rec.commanderCache) ==>
                    r == Reply(500, StatusBody(MakeError("Commander is found, but the instance is not registered"))))
              && (found.Ok? && found.value.Some? && found.value.value in OD.Keys(rec.commanderCache) ==>
                    exists info :: OD.Lookup(rec.commanderCache, found.value.value) == Some(info)
                                   && r == Reply(200, JObj([("_status", Success), ("commander", toDict(info)),
                                                            ("place", leaderEp(leaderId.value))])))
  {
    if leaderId.None? then Reply(400, StatusBody(MakeError("Query-param leader_id is required")))
    else
      match rec.GetTroopCommander(JStr(leaderId.value))
      case Err(_) => InternalError
      case Ok(None) => Reply(404, StatusBody(MakeError("Specified leader does not exist on database")))
      case Ok(Some(commanderId)) =>
        match rec.ResolveCommander(commanderId)
        case None => Reply(500, StatusBody(MakeError("Commander is found, but the instance is not registered")))
        case Some(info) =>
          Reply(200, JObj([("_status", Success), ("commander", toDict(info)), ("place", leaderEp(leaderId.value))]))
  }

  /**
   * With the configured tables all lists, a leader listed in some troop
   * never gets the 404 answer, and one listed in none always does.
   */
  lemma TroopCommanderNotFoundExactly(rec: MR.Recruiter, leaderId: string,
                                      leaderEp: string -> Json, toDict: ActorInfo.CommanderInfo -> Json)
    requires rec.Valid()
    requires forall i :: 0 <= i < |rec.troopList| ==> rec.troopList[i].1.JArr?
    ensures GetTroopCommander(rec, Some(leaderId), leaderEp, toDict).code == 404 <==>
              forall i :: 0 <= i < |rec.troopList| ==> JStr(leaderId) !in rec.troopList[i].1.items
  {
    OrgCharts.ListTablesNeverRaise(rec.troopList, JStr(leaderId));
    var found := rec.GetTroopCommander(JStr(leaderId));
    if found.Ok? && found.value.Some? && found.value.value in OD.Keys(rec.commanderCache) {
      var r := GetTroopCommander(rec, Some(leaderId), leaderEp, toDict);
      assert r.code == 200;
    }
  }
}
