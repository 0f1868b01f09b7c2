/**
 * troops/recruiter.py: the namedtuple generation of the recruiter.  The
 * configured troops and squads are kept as lists of (superior, subordinates)
 * tuples in file order; posted commanders go to CommanderList.  Nothing
 * writes commander_cache, so every lookup in it raises KeyError and, since
 * leader_cache is only written after such a lookup, leader_cache stays empty
 * too: the class invariant records both.
 */
module TroopsRecruiter {
  import opened Wrappers
  import opened JsonValues
  import opened Http
  import opened RequestContract
  import OD = OrderedDicts
  import Records
  import Registries
  import OrgCharts

  /** A Troop (commander, subordinates) or a Squad (leader, subordinates). */
  type Unit = (Json, Json)

  function CommanderIdOf(c: Records.CommanderInfo): Json {
    c.id
  }

  /** troops/utils.py prints the request body before it checks it. */
  const PrintsBody := true

  class Recruiter {
    var squadList: seq<Unit>
    var troopList: seq<Unit>
    var commanderList: OD.ODict<Json, Records.CommanderInfo>
    var leaderCache: OD.ODict<Json, Records.LeaderInfo>
    var commanderCache: OD.ODict<Json, Records.CommanderInfo>

    ghost predicate Valid()
      reads this
    {
      Registries.KeyedBy(commanderList, CommanderIdOf) && leaderCache == [] && commanderCache == []
    }

    constructor()
      ensures Valid()
      ensures squadList == [] && troopList == [] && commanderList == []
    {
      squadList := [];
      troopList := [];
      commanderList := [];
      leaderCache := [];
      commanderCache := [];
    }

    /** load_config: one Troop per configured troop, then one Squad per squad, appended in file order. */
    method LoadConfig(troops: seq<Unit>, squads: seq<Unit>)
      requires Valid()
      modifies this
      ensures Valid()
      ensures troopList == old(troopList) + troops && squadList == old(squadList) + squads
      ensures commanderList == old(commanderList)
    {
      var i := 0;
      while i < |troops|
        invariant 0 <= i <= |troops|
        invariant troopList == old(troopList) + troops[..i] && squadList == old(squadList)
        invariant Valid() && commanderList == old(commanderList)
      {
        troopList := troopList + [troops[i]];
        assert troops[..i + 1] == troops[..i] + [troops[i]];
        i := i + 1;
      }
      assert troops[..i] == troops;
      var j := 0;
      while j < |squads|
        invariant 0 <= j <= |squads|
        invariant squadList == old(squadList) + squads[..j] && troopList == old(troopList) + troops
        invariant Valid() && commanderList == old(commanderList)
      {
        squadList := squadList + [squads[j]];
        assert squads[..j + 1] == squads[..j] + [squads[j]];
        j := j + 1;
      }
      assert squads[..j] == squads;
    }

    /**
     * get_squad_leader: every squad is tested, so a squad whose subordinates
     * cannot be searched raises wherever it is; otherwise the leader of the
     * first squad listing the id, None when none does.
     */
    function GetSquadLeader(soldierId: Json): (r: Result<Option<Json>, Exc>)
      reads this
      ensures r == OrgCharts.FilterFirst(squadList, soldierId)
    {
      OrgCharts.FilterFirst(squadList, soldierId)
    }

    /** get_troop_commander: the same filter over the troops. */
    function GetTroopCommander(leaderId: Json): (r: Result<Option<Json>, Exc>)
      reads this
      ensures r == OrgCharts.FilterFirst(troopList, leaderId)
    {
      OrgCharts.FilterFirst(troopList, leaderId)
    }

    /**
     * resolve_leader never returns here: the exception it raises.  Unless
     * forceRetrieve is set, the id is first tested against leader_cache, which
     * raises TypeError for an unhashable id.  Otherwise, or when the id is
     * not cached (leader_cache is empty), it is looked up through its
     * commander in commander_cache, which is empty too, so the call raises
     * KeyError, or TypeError when a subordinate list or the commander id
     * cannot be searched.
     */
    function ResolveLeader(leaderId: Json, forceRetrieve: bool): (e: Exc)
      reads this
      requires Valid()
      ensures !forceRetrieve && !Hashable(leaderId) ==> e == TypeError
      ensures (forceRetrieve || Hashable(leaderId)) && GetTroopCommander(leaderId).Ok? ==>
                var comId := GetTroopCommander(leaderId).value;
                e == (if comId.Some? && !Hashable(comId.value) then TypeError else KeyError)
      ensures (forceRetrieve || Hashable(leaderId)) && GetTroopCommander(leaderId).Err? ==>
                e == GetTroopCommander(leaderId).error
    {
      if !forceRetrieve && !Hashable(leaderId) then TypeError
      else
        match GetTroopCommander(leaderId)
        case Err(e) => e
        case Ok(comId) => Registries.Index(commanderCache, if comId.Some? then comId.value else JNull).error
    }

    /** resolve_commander: `commander_cache[id]`, which raises for every id. */
    function ResolveCommander(commanderId: Json): (r: Result<Records.CommanderInfo, Exc>)
      reads this
      requires Valid()
      ensures r == Err(if Hashable(commanderId) then KeyError else TypeError)
    {
      Registries.Index(commanderCache, commanderId)
    }
  }

  /** The query parameter as the lookups see it: the string, or None when it is missing. */
  function QueryValue(param: Option<string>): Json {
    if param.Some? then JStr(param.value) else JNull
  }

  /**
   * GET /department/squad/leader: 404 when no squad lists the soldier;
   * otherwise resolve_leader raises, so the answer is an internal error.
   */
  function GetSquadLeaderRoute(rec: Recruiter, soldierId: Option<string>): (r: Response)
    reads rec
    requires rec.Valid()
    ensures rec.GetSquadLeader(QueryValue(soldierId)) == Ok(None) ==>
              r == Reply(404, JObj([("msg", JStr("Specified soldier does not exist on database."))]))
    ensures rec.GetSquadLeader(QueryValue(soldierId)) != Ok(None) ==> r == InternalError
  {
    match rec.GetSquadLeader(QueryValue(soldierId))
    case Err(_) => InternalError
    case Ok(None) => Reply(404, JObj([("msg", JStr("Specified soldier does not exist on database."))]))
    case Ok(Some(leaderId)) =>
      // resolve_leader raises (ResolveLeader), so the 500 and 200 answers after it are never reached
      InternalError
  }

  /**
   * GET /department/troop/commander, as written: the leader id is searched
   * in the squad table with get_squad_leader, and the id found is resolved
   * as a leader.
   */
  function GetTroopCommanderRoute(rec: Recruiter, leaderId: Option<string>): (r: Response)
    reads rec
    requires rec.Valid()
    ensures rec.GetSquadLeader(QueryValue(leaderId)) == Ok(None) ==>
              r == Reply(404, JObj([("msg", JStr("Specified leader does not exist on database."))]))
    ensures rec.GetSquadLeader(QueryValue(leaderId)) != Ok(None) ==> r == InternalError
  {
    match rec.GetSquadLeader(QueryValue(leaderId))
    case Err(_) => InternalError
    case Ok(None) => Reply(404, JObj([("msg", JStr("Specified leader does not exist on database."))]))
    case Ok(Some(commanderId)) =>
      // resolve_leader raises (ResolveLeader), so the 500 and 200 answers after it are never reached
      InternalError
  }

  /**
   * The troop-commander route never consults the troop table: a leader that
   * a troop lists but no squad does is answered 404.
   */
  lemma TroopRouteIgnoresTroops(rec: Recruiter, leaderId: string, t: nat)
    requires rec.Valid()
    requires forall i :: 0 <= i < |rec.squadList| ==> rec.squadList[i].1.JArr?
    requires forall i :: 0 <= i < |rec.squadList| ==> JStr(leaderId) !in rec.squadList[i].1.items
    requires forall i :: 0 <= i < |rec.troopList| ==> rec.troopList[i].1.JArr?
    requires t < |rec.troopList| && JStr(leaderId) in rec.troopList[t].1.items
    ensures rec.GetTroopCommander(JStr(leaderId)).Ok? && rec.GetTroopCommander(JStr(leaderId)).value.Some?
    ensures GetTroopCommanderRoute(rec, Some(leaderId)).code == 404
  {
    OrgCharts.ListTablesNeverRaise(rec.squadList, JStr(leaderId));
    OrgCharts.ListTablesNeverRaise(rec.troopList, JStr(leaderId));
  }

  /**
   * POST /commander: behind the JSON check, `CommanderInfo(**request.json)`
   * is stored under its id, replacing any earlier entry, and echoed.  The
   * answer and the new CommanderList.
   */
  function AddCommanderOutcome(list: OD.ODict<Json, Records.CommanderInfo>, req: Request,
                               asDict: Records.CommanderInfo -> Json)
    : (r: (Response, OD.ODict<Json, Records.CommanderInfo>))
    requires req.verb == POST
    ensures JsonInputGate(req, PrintsBody).Answer? ==> r == (JsonInputGate(req, PrintsBody).resp, list)
    ensures JsonInputGate(req, PrintsBody).Pass? ==>
              var com := Records.CommanderInfoOf(req.body.value);
              (com.Err? ==> r == (InternalError, list))
              && (com.Ok? && !Hashable(com.value.id) ==> r == (InternalError, list))
              && (com.Ok? && Hashable(com.value.id) ==>
                    r.0 == Reply(200, JObj([("commander", asDict(com.value))]))
                    && OD.Lookup(r.1, com.value.id) == Some(com.value)
                    && forall k :: k != com.value.id ==> OD.Lookup(r.1, k) == OD.Lookup(list, k))
  {
    match JsonInputGate(req, PrintsBody)
    case Answer(resp) => (resp, list)
    case Pass =>
      match Records.CommanderInfoOf(req.body.value)
      case Err(_) => (InternalError, list)
      case Ok(com) =>
        if !Hashable(com.id) then (InternalError, list)
        else (Reply(200, JObj([("commander", asDict(com))])), OD.Put(list, com.id, com))
  }

  /** The handler: answers as AddCommanderOutcome says and stores its new list. */
  method AddCommander(rec: Recruiter, req: Request, asDict: Records.CommanderInfo -> Json)
    returns (r: Response)
    requires req.verb == POST
    requires rec.Valid()
    modifies rec
    ensures rec.Valid()
    ensures (r, rec.commanderList) == AddCommanderOutcome(old(rec.commanderList), req, asDict)
    ensures rec.troopList == old(rec.troopList) && rec.squadList == old(rec.squadList)
  {
    var gate := JsonInputGate(req, PrintsBody);
    if gate.Pass? {
      var com := Records.CommanderInfoOf(req.body.value);
      if com.Ok? && Hashable(com.value.id) {
        KeyedByPut(rec.commanderList, com.value);
      }
    }
    r, rec.commanderList := AddCommanderOutcome(rec.commanderList, req, asDict).0,
                            AddCommanderOutcome(rec.commanderList, req, asDict).1;
  }

  /** Storing a commander under its own hashable id, new or not, keeps the list keyed by id. */
  lemma KeyedByPut(d: OD.ODict<Json, Records.CommanderInfo>, c: Records.CommanderInfo)
    requires Registries.KeyedBy(d, CommanderIdOf) && Hashable(c.id)
    ensures Registries.KeyedBy(OD.Put(d, c.id, c), CommanderIdOf)
  {
    OD.PutValid(d, c.id, c);
    var d' := OD.Put(d, c.id, c);
    if c.id in OD.Keys(d) {
      var i :| 0 <= i < |d| && OD.Keys(d)[i] == c.id;
      OD.PutExisting(d, i, c);
      forall j | 0 <= j < |d'| ensures d'[j].0 == CommanderIdOf(d'[j].1) && Hashable(d'[j].0) {
        if j != i {
          assert d'[j] == d[j];
        }
      }
    } else {
      OD.PutNew(d, c.id, c);
      forall j | 0 <= j < |d'| ensures d'[j].0 == CommanderIdOf(d'[j].1) && Hashable(d'[j].0) {
        if j < |d| {
          assert d'[j] == d[j];
        }
      }
    }
  }
}
