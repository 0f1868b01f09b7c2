/**
 * troops/commander.py: the namedtuple generation of the commander.  The
 * Commander class keeps the posted LeaderInfo records as they are, and its
 * accept_campaign only stores the campaign: there is no fan-out to the
 * leaders.  The REST handlers are decisions over the request and the class.
 */
module TroopsCommander {
  import opened Wrappers
  import opened JsonValues
  import opened Http
  import opened ResponseStatus
  import opened RequestContract
  import OD = OrderedDicts
  import Records
  import Registries

  datatype CommanderInfo = CommanderInfo(
    id: string, name: string, endpoint: string, subordinates: seq<Json>,
    campaigns: seq<Records.Campaign>)

  type Registry = OD.ODict<Json, Records.LeaderInfo>

  function IdOf(l: Records.LeaderInfo): Json {
    l.id
  }

  class Commander {
    var id: string
    var name: string
    var endpoint: string
    var subordinates: Registry
    var campaigns: seq<Records.Campaign>
    var reportCache: seq<Records.Report>

    ghost predicate Valid()
      reads this
    {
      Registries.KeyedBy(subordinates, IdOf)
    }

    /** initialize_app builds the commander from its id, name and endpoint. */
    constructor(comId: string, name: string, endpoint: string)
      ensures Valid()
      ensures this.id == comId && this.name == name && this.endpoint == endpoint
      ensures subordinates == [] && campaigns == [] && reportCache == []
    {
      this.id := comId;
      this.name := name;
      this.endpoint := endpoint;
      subordinates := [];
      campaigns := [];
      reportCache := [];
    }

    /** generate_info: the ids of the registered leaders, in join order, and the campaigns. */
    function GenerateInfo(): (info: CommanderInfo)
      reads this
      ensures info.subordinates == OD.Keys(subordinates) && info.campaigns == campaigns
      ensures info.id == id && info.name == name && info.endpoint == endpoint
    {
      CommanderInfo(id, name, endpoint, OD.Keys(subordinates), campaigns)
    }

    /** check_subordinate: membership of the id; an unhashable id raises TypeError. */
    function CheckSubordinate(subId: Json): (r: Result<bool, Exc>)
      reads this
      ensures r.Ok? <==> Hashable(subId)
      ensures r.Ok? ==> (r.value <==> subId in OD.Keys(subordinates))
      ensures r.Err? ==> r.error == TypeError
    {
      Registries.Contains(subordinates, subId)
    }

    /** get_sub_info: the stored record; an unknown id raises KeyError. */
    function GetSubInfo(subId: Json): (r: Result<Records.LeaderInfo, Exc>)
      reads this
      requires Valid()
      ensures r.Ok? <==> Hashable(subId) && subId in OD.Keys(subordinates)
      ensures r.Ok? ==> r.value.id == subId && OD.Lookup(subordinates, subId) == Some(r.value)
      ensures Hashable(subId) && subId !in OD.Keys(subordinates) ==> r == Err(KeyError)
    {
      var r := Registries.Index(subordinates, subId);
      if r.Ok? then Registries.IndexCarriesId(subordinates, IdOf, subId); r else r
    }

    /** accept_campaign: the campaign is appended and returned; no leader is touched. */
    method AcceptCampaign(c: Records.Campaign) returns (r: Records.Campaign)
      modifies this
      ensures r == c && campaigns == old(campaigns) + [c]
      ensures subordinates == old(subordinates) && reportCache == old(reportCache)
      ensures id == old(id) && name == old(name) && endpoint == old(endpoint)
    {
      campaigns := campaigns + [c];
      return c;
    }

    /**
     * accept_subordinate: a new id is stored and the record returned; a
     * registered id gives None and changes nothing.
     */
    method AcceptSubordinate(info: Records.LeaderInfo) returns (r: Result<Option<Records.LeaderInfo>, Exc>)
      requires Valid()
      modifies this
      ensures Valid()
      ensures !Hashable(info.id) ==> r == Err(TypeError) && subordinates == old(subordinates)
      ensures Hashable(info.id) && info.id in OD.Keys(old(subordinates)) ==>
                r == Ok(None) && subordinates == old(subordinates)
      ensures Hashable(info.id) && info.id !in OD.Keys(old(subordinates)) ==>
                r == Ok(Some(info)) && subordinates == old(subordinates) + [(info.id, info)]
                && GenerateInfo().subordinates == old(GenerateInfo().subordinates) + [info.id]
      ensures campaigns == old(campaigns) && reportCache == old(reportCache)
      ensures id == old(id) && name == old(name) && endpoint == old(endpoint)
    {
      var registered := CheckSubordinate(info.id);
      if registered.Err? {
        return Err(registered.error);
      }
      if registered.value {
        return Ok(None);
      }
      Registries.JoinKeeps(subordinates, IdOf, info);
      subordinates := OD.Put(subordinates, info.id, info);
      return Ok(Some(info));
    }

    /**
     * accept_report, as written: a registered id returns False and caches
     * nothing, an unregistered id has its report cached and returns True.
     */
    method AcceptReport(subId: Json, report: Records.Report) returns (r: Result<bool, Exc>)
      modifies this
      ensures !Hashable(subId) ==> r == Err(TypeError) && reportCache == old(reportCache)
      ensures Hashable(subId) && subId in OD.Keys(subordinates) ==>
                r == Ok(false) && reportCache == old(reportCache)
      ensures Hashable(subId) && subId !in OD.Keys(subordinates) ==>
                r == Ok(true) && reportCache == old(reportCache) + [report]
      ensures subordinates == old(subordinates) && campaigns == old(campaigns)
      ensures id == old(id) && name == old(name) && endpoint == old(endpoint)
    {
      var registered := CheckSubordinate(subId);
      if registered.Err? {
        return Err(registered.error);
      }
      if registered.value {
        return Ok(false);
      }
      reportCache := reportCache + [report];
      return Ok(true);
    }
  }

  /** GET /commander/: success with the dictionary of generate_info. */
  function GetInfo(c: Commander, asDict: CommanderInfo -> Json): (r: Response)
    reads c
    ensures r.code == 200
    ensures r.body == StatusBodyWith(Success, "info", asDict(c.GenerateInfo()))
  {
    Reply(200, StatusBodyWith(Success, "info", asDict(c.GenerateInfo())))
  }

  /**
   * POST /commander/campaigns: `Campaign(**request.json)` with no JSON
   * check in front, so a body that is not JSON is a TypeError (500) and an
   * undecodable one werkzeug's 400 page.  The record is always truthy, so
   * the 500 Failed branch is never taken.
   */
  method AcceptCampaigns(c: Commander, req: Request, asDict: Records.Campaign -> Json)
    returns (r: Response)
    modifies c
    ensures RequestJson(req).Err? ==> r == BadRequestPage && c.campaigns == old(c.campaigns)
    ensures RequestJson(req).Ok? && RequestJson(req).value.None? ==>
              r == InternalError && c.campaigns == old(c.campaigns)
    ensures RequestJson(req).Ok? && RequestJson(req).value.Some? ==>
              var camp := Records.CampaignOf(RequestJson(req).value.value);
              (camp.Err? ==> r == InternalError && c.campaigns == old(c.campaigns))
              && (camp.Ok? ==>
                    r == Reply(200, StatusBodyWith(Success, "accepted", asDict(camp.value)))
                    && c.campaigns == old(c.campaigns) + [camp.value])
    ensures c.subordinates == old(c.subordinates) && c.reportCache == old(c.reportCache)
  {
    var body := RequestJson(req);
    if body.Err? {
      return BadRequestPage;
    }
    if body.value.None? {
      return InternalError;
    }
    var campaign := Records.CampaignOf(body.value.value);
    if campaign.Err? {
      return InternalError;
    }
    var accepted := c.AcceptCampaign(campaign.value);
    return Reply(200, StatusBodyWith(Success, "accepted", asDict(accepted)));
  }

  /** GET /commander/subordinates: one rendered entry per registered leader, in join order. */
  function GetSubordinates(c: Commander, req: Request, asDict: Records.LeaderInfo -> Json): (r: Response)
    reads c
    ensures req.verb == GET ==> r.code == 200
    ensures r.code == 200 ==>
              var list := Field(r.body, "subordinates");
              list.Ok? && list.value.JArr? && |list.value.items| == |c.subordinates|
              && forall i :: 0 <= i < |c.subordinates| ==>
                   list.value.items[i] == asDict(c.subordinates[i].1)
  {
    match JsonInputGate(req, false)
    case Answer(resp) => resp
    case Pass =>
      var subs := OD.Values(c.subordinates);
      var dicts := seq(|subs|, i requires 0 <= i < |subs| => asDict(subs[i]));
      var r := Reply(200, StatusBodyWith(Success, "subordinates", JArr(dicts)));
      assert r.body.fields[1..] == [("subordinates", JArr(dicts))];
      assert OD.Lookup(r.body.fields, "subordinates") == OD.Lookup(r.body.fields[1..], "subordinates") by {
        assert "_status"[0] != "subordinates"[0];
      }
      r
  }

  /**
   * POST /commander/subordinates: `LeaderInfo(**request.json)`; a registered
   * id answers 400 and changes nothing, a new one is stored and echoed.
   * accept_subordinate returns the (truthy) record here, so the 500 branch
   * after it is never taken.
   */
  method AcceptSubordinate(c: Commander, req: Request, asDict: Records.LeaderInfo -> Json)
    returns (r: Response)
    requires req.verb == POST
    requires c.Valid()
    modifies c
    ensures c.Valid()
    ensures JsonInputGate(req, false).Answer? ==>
              r == JsonInputGate(req, false).resp && c.subordinates == old(c.subordinates)
    ensures JsonInputGate(req, false).Pass? ==>
              var posted := Records.LeaderInfoOf(req.body.value);
              (posted.Err? ==> r == InternalError && c.subordinates == old(c.subordinates))
              && (posted.Ok? && !Hashable(posted.value.id) ==>
                    r == InternalError && c.subordinates == old(c.subordinates))
              && (posted.Ok? && Hashable(posted.value.id) && posted.value.id in OD.Keys(old(c.subordinates)) ==>
                    r == Reply(400, StatusBody(MakeError("Requested leader already exists in the troop")))
                    && c.subordinates == old(c.subordinates))
              && (posted.Ok? && Hashable(posted.value.id) && posted.value.id !in OD.Keys(old(c.subordinates)) ==>
                    r == Reply(200, StatusBodyWith(Success, "accepted", asDict(posted.value)))
                    && c.subordinates == old(c.subordinates) + [(posted.value.id, posted.value)])
    ensures c.campaigns == old(c.campaigns) && c.reportCache == old(c.reportCache)
  {
    var gate := JsonInputGate(req, false);
    if gate.Answer? {
      return gate.resp;
    }
    var posted := Records.LeaderInfoOf(req.body.value);
    if posted.Err? {
      return InternalError;
    }
    var registered := c.CheckSubordinate(posted.value.id);
    if registered.Err? {
      return InternalError;
    }
    if registered.value {
      return Reply(400, StatusBody(MakeError("Requested leader already exists in the troop")));
    }
    var accepted := c.AcceptSubordinate(posted.value);
    return Reply(200, StatusBodyWith(Success, "accepted", asDict(posted.value)));
  }

  /** GET /commander/subordinates/<sub_id>: the stored record, behind the 404 check. */
  function GetSubInfo(c: Commander, subId: string, asDict: Records.LeaderInfo -> Json): (r: Response)
    reads c
    requires c.Valid()
    ensures JStr(subId) !in OD.Keys(c.subordinates) ==> r == SubordinateNotFound
    ensures JStr(subId) in OD.Keys(c.subordinates) ==>
              r.code == 200
              && exists info :: OD.Lookup(c.subordinates, JStr(subId)) == Some(info)
                                && info.id == JStr(subId)
                                && r.body == StatusBodyWith(Success, "info", asDict(info))
  {
    match AccessSubordinate(c.CheckSubordinate(JStr(subId)).value)
    case Answer(resp) => resp
    case Pass => Reply(200, StatusBodyWith(Success, "info", asDict(c.GetSubInfo(JStr(subId)).value)))
  }

  /**
   * POST /commander/subordinates/<sub_id>/report: success echoing the
   * report whatever accept_report returns; the inverted guard means a
   * report from a registered leader is never cached.
   */
  method AcceptReport(c: Commander, subId: string, req: Request, asDict: Records.Report -> Json)
    returns (r: Response)
    requires req.verb == POST
    modifies c
    ensures JStr(subId) !in OD.Keys(c.subordinates) ==> r == SubordinateNotFound
    ensures JStr(subId) in OD.Keys(c.subordinates) && JsonInputGate(req, false).Answer? ==>
              r == JsonInputGate(req, false).resp
    ensures JStr(subId) in OD.Keys(c.subordinates) && JsonInputGate(req, false).Pass? ==>
              var report := Records.ReportOf(req.body.value);
              (report.Err? ==> r == InternalError)
              && (report.Ok? ==> r == Reply(200, StatusBodyWith(Success, "accepted", asDict(report.value))))
    ensures c.reportCache == old(c.reportCache)
    ensures c.subordinates == old(c.subordinates) && c.campaigns == old(c.campaigns)
  {
    var access := AccessSubordinate(c.CheckSubordinate(JStr(subId)).value);
    if access.Answer? {
      return access.resp;
    }
    var gate := JsonInputGate(req, false);
    if gate.Answer? {
      return gate.resp;
    }
    var report := Records.ReportOf(req.body.value);
    if report.Err? {
      return InternalError;
    }
    var cached := c.AcceptReport(JStr(subId), report.value);
    return Reply(200, StatusBodyWith(Success, "accepted", asDict(report.value)));
  }
}
