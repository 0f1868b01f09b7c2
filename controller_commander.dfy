/**
 * controller/commander.py: the REST handlers of a commander.  Each handler
 * is a decision over the request and the Commander object; `to_dict` is
 * passed in as a rendering function.
 */
module ControllerCommander {
  import opened Wrappers
  import opened JsonValues
  import opened Http
  import opened ResponseStatus
  import opened RequestContract
  import OD = OrderedDicts
  import Records
  import MC = ModelCommander

  /** GET /: success with the dictionary of generate_info. */
  function GetInfo(c: MC.Commander, toDict: MC.CommanderInfo -> Json): (r: Response)
    reads c
    ensures r.code == 200
    ensures r.body == StatusBodyWith(Success, "info", toDict(c.GenerateInfo()))
  {
    Reply(200, StatusBodyWith(Success, "info", toDict(c.GenerateInfo())))
  }

  /** GET /campaigns: the accepted campaigns, rendered one for one in acceptance order. */
  function GetCampaigns(c: MC.Commander, toDict: Records.Campaign -> Json): (r: Response)
    reads c
    ensures r.code == 200
    ensures var list := Field(r.body, "campaigns");
            list.Ok? && list.value.JArr? && |list.value.items| == |c.campaigns|
            && forall i :: 0 <= i < |c.campaigns| ==> list.value.items[i] == toDict(c.campaigns[i])
  {
    var dicts := seq(|c.campaigns|, i requires 0 <= i < |c.campaigns| reads c => toDict(c.campaigns[i]));
    var r := Reply(200, StatusBodyWith(Success, "campaigns", JArr(dicts)));
    assert r.body.fields[1..] == [("campaigns", JArr(dicts))];
    assert OD.Lookup(r.body.fields, "campaigns") == OD.Lookup(r.body.fields[1..], "campaigns") by {
      assert "_status"[0] != "campaigns"[0];
    }
    r
  }

  /** GET /subordinates: one rendered entry per registered leader, in join order. */
  function GetSubordinates(c: MC.Commander, req: Request, toDict: MC.LeaderInfo -> Json): (r: Response)
    reads c
    ensures req.verb == GET ==> r.code == 200
    ensures r.code == 200 ==>
              var list := Field(r.body, "subordinates");
              list.Ok? && list.value.JArr? && |list.value.items| == |c.subordinates|
              && forall i :: 0 <= i < |c.subordinates| ==>
                   list.value.items[i] == toDict(c.subordinates[i].1)
  {
    match JsonInputGate(req, false)
    case Answer(resp) => resp
    case Pass =>
      var subs := OD.Values(c.subordinates);
      var dicts := seq(|subs|, i requires 0 <= i < |subs| => toDict(subs[i]));
      var r := Reply(200, StatusBodyWith(Success, "subordinates", JArr(dicts)));
      assert r.body.fields[1..] == [("subordinates", JArr(dicts))];
      assert OD.Lookup(r.body.fields, "subordinates") == OD.Lookup(r.body.fields[1..], "subordinates") by {
        assert "_status"[0] != "subordinates"[0];
      }
      r
  }

  /**
   * POST /campaigns: `Campaign(**request.json)`, then accept_campaign.  Any
   * exception on the way is an internal error, so a campaign for place "All"
   * is refused whenever a leader is registered.
   */
  method AcceptCampaigns(c: MC.Commander, req: Request, toDict: Records.Campaign -> Json)
    returns (r: Response)
    requires c.Valid()
    modifies c
    ensures c.Valid()
    ensures r.code == 200 <==>
              RequestJson(req).Ok? && RequestJson(req).value.Some?
              && Records.CampaignOf(RequestJson(req).value.value).Ok?
              && var camp := Records.CampaignOf(RequestJson(req).value.value).value;
                 MC.BaseMission(camp).Ok?
                 && (camp.place == JStr("All") ==> old(c.subordinates) == [])
    ensures r.code == 200 ==>
              var camp := Records.CampaignOf(RequestJson(req).value.value).value;
              c.campaigns == old(c.campaigns) + [camp]
              && r.body == StatusBodyWith(Success, "accepted", toDict(camp))
    ensures r.code != 200 ==> c.campaigns == old(c.campaigns)
    ensures RequestJson(req).Err? ==> r == BadRequestPage
    ensures c.subordinates == old(c.subordinates) && c.reportCache == old(c.reportCache)
  {
    var body := RequestJson(req);
    if body.Err? {
      return BadRequestPage;
    }
    if body.value.None? {
      return InternalError;
    }
    var campaign := Records.CampaignOf(body.value.value);
    if campaign.Err? {
      return InternalError;
    }
    var accepted := c.AcceptCampaign(campaign.value);
    if accepted.Err? {
      return InternalError;
    }
    return Reply(200, StatusBodyWith(Success, "accepted", toDict(accepted.value)));
  }

  /**
   * POST /subordinates: a leader whose id is registered answers 400 and
   * changes nothing; a new one is registered and echoed.  accept_subordinate
   * returns the (truthy) record here, so the 500 branch after it is never
   * taken.
   */
  method AcceptSubordinate(c: MC.Commander, req: Request, toDict: Records.LeaderInfo -> Json)
    returns (r: Response)
    requires req.verb == POST
    requires c.Valid()
    modifies c
    ensures c.Valid()
    ensures JsonInputGate(req, false).Answer? ==>
              r == JsonInputGate(req, false).resp && c.subordinates == old(c.subordinates)
    ensures JsonInputGate(req, false).Pass? ==>
              var posted := Records.LeaderInfoOf(req.body.value);
              (posted.Err? ==> r == InternalError && c.subordinates == old(c.subordinates))
              && (posted.Ok? && !Hashable(posted.value.id) ==>
                    r == InternalError && c.subordinates == old(c.subordinates))
              && (posted.Ok? && Hashable(posted.value.id) && posted.value.id in OD.Keys(old(c.subordinates)) ==>
                    r == Reply(400, StatusBody(MakeError("Requested leader already exists in the troop")))
                    && c.subordinates == old(c.subordinates))
              && (posted.Ok? && Hashable(posted.value.id) && posted.value.id !in OD.Keys(old(c.subordinates)) ==>
                    r == Reply(200, StatusBodyWith(Success, "accepted", toDict(posted.value)))
                    && c.subordinates == old(c.subordinates) + [(posted.value.id, MC.FromPosted(posted.value))])
    ensures c.campaigns == old(c.campaigns) && c.reportCache == old(c.reportCache)
  {
    var gate := JsonInputGate(req, false);
    if gate.Answer? {
      return gate.resp;
    }
    var posted := Records.LeaderInfoOf(req.body.value);
    if posted.Err? {
      return InternalError;
    }
    var leader := MC.FromPosted(posted.value);
    var registered := c.CheckSubordinate(leader.id);
    if registered.Err? {
      return InternalError;
    }
    if registered.value {
      return Reply(400, StatusBody(MakeError("Requested leader already exists in the troop")));
    }
    var accepted := c.AcceptSubordinate(leader);
    return Reply(200, StatusBodyWith(Success, "accepted", toDict(posted.value)));
  }

  /** GET /subordinates/<sub_id>: the stored leader, behind the 404 check. */
  function GetSubInfo(c: MC.Commander, subId: string, toDict: MC.LeaderInfo -> Json): (r: Response)
    reads c
    requires c.Valid()
    ensures JStr(subId) !in OD.Keys(c.subordinates) ==> r == SubordinateNotFound
    ensures JStr(subId) in OD.Keys(c.subordinates) ==>
              r.code == 200
              && exists info :: OD.Lookup(c.subordinates, JStr(subId)) == Some(info)
                                && info.id == JStr(subId)
                                && r.body == StatusBodyWith(Success, "info", toDict(info))
  {
    match AccessSubordinate(c.CheckSubordinate(JStr(subId)).value)
    case Answer(resp) => resp
    case Pass => Reply(200, StatusBodyWith(Success, "info", toDict(c.GetSubInfo(JStr(subId)).value)))
  }

  /**
   * POST /subordinates/<sub_id>/report: success echoing the report whatever
   * accept_report returns.  Since the id is registered by then, the inverted
   * guard of accept_report means the report is never cached.
   */
  method AcceptReport(c: MC.Commander, subId: string, req: Request, toDict: Records.Report -> Json)
    returns (r: Response)
    requires req.verb == POST
    modifies c
    ensures JStr(subId) !in OD.Keys(c.subordinates) ==> r == SubordinateNotFound
    ensures JStr(subId) in OD.Keys(c.subordinates) && JsonInputGate(req, false).Answer? ==>
              r == JsonInputGate(req, false).resp
    ensures JStr(subId) in OD.Keys(c.subordinates) && JsonInputGate(req, false).Pass? ==>
              var report := Records.ReportOf(req.body.value);
              (report.Err? ==> r == InternalError)
              && (report.Ok? ==> r == Reply(200, StatusBodyWith(Success, "accepted", toDict(report.value))))
    ensures c.reportCache == old(c.reportCache)
    ensures c.subordinates == old(c.subordinates) && c.campaigns == old(c.campaigns)
  {
    var access := AccessSubordinate(c.CheckSubordinate(JStr(subId)).value);
    if access.Answer? {
      return access.resp;
    }
    var gate := JsonInputGate(req, false);
    if gate.Answer? {
      return gate.resp;
    }
    var report := Records.ReportOf(req.body.value);
    if report.Err? {
      return InternalError;
    }
    var cached := c.AcceptReport(JStr(subId), report.value);
    return Reply(200, StatusBodyWith(Success, "accepted", toDict(report.value)));
  }
}
