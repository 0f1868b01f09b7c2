/**
 * controller/leader.py: the REST handlers of a leader.  `to_dict`, the
 * record's `hash()` and the model's `remove_subordinate` are not defined by
 * the leader model and are passed in: rendering and hashing as functions,
 * the removal as the value it returned.
 */
module ControllerLeader {
  import opened Wrappers
  import opened JsonValues
  import opened Http
  import opened ResponseStatus
  import opened RequestContract
  import OD = OrderedDicts
  import JobInfo
  import ActorInfo
  import ML = ModelLeader

  /** GET /: success with the dictionary of generate_info. */
  function GetInfo(l: ML.Leader, toDict: ML.LeaderInfo -> Json): (r: Response)
    reads l
    ensures r.code == 200
    ensures r.body == StatusBodyWith(Success, "info", toDict(l.GenerateInfo()))
  {
    Reply(200, StatusBodyWith(Success, "info", toDict(l.GenerateInfo())))
  }

  /**
   * GET /missions, as written: the handler calls `values()` on the missions
   * list, which a list does not have, so every request raises
   * AttributeError and is answered as an internal error, whatever missions
   * were accepted.
   */
  function GetMissions(l: ML.Leader): (r: Response)
    ensures r.code == 500 && r == InternalError
  {
    InternalError
  }

  /** GET /subordinates: one rendered entry per registered soldier, in join order. */
  function GetSubordinates(l: ML.Leader, req: Request, toDict: ActorInfo.SoldierInfo -> Json): (r: Response)
    reads l
    ensures req.verb == GET ==> r.code == 200
    ensures r.code == 200 ==>
              var list := Field(r.body, "subordinates");
              list.Ok? && list.value.JArr? && |list.value.items| == |l.subordinates|
              && forall i :: 0 <= i < |l.subordinates| ==>
                   list.value.items[i] == toDict(l.subordinates[i].1)
    ensures r.code != 200 ==> JsonInputGate(req, false).Answer? && r == JsonInputGate(req, false).resp
  {
    match JsonInputGate(req, false)
    case Answer(resp) => resp
    case Pass =>
      var subs := OD.Values(l.subordinates);
      var dicts := seq(|subs|, i requires 0 <= i < |subs| => toDict(subs[i]));
      var r := Reply(200, StatusBodyWith(Success, "subordinates", JArr(dicts)));
      assert r.body.fields[1..] == [("subordinates", JArr(dicts))];
      assert OD.Lookup(r.body.fields, "subordinates") == OD.Lookup(r.body.fields[1..], "subordinates") by {
        assert "_status"[0] != "subordinates"[0];
      }
      r
  }

  /**
   * POST /subordinates: `SoldierInfo.make(request.json)`; a refused soldier
   * (its id is already registered) answers 500 with the Failed status, an
   * accepted one 200 echoing the record.
   */
  method AcceptSubordinate(l: ML.Leader, req: Request, toDict: ActorInfo.SoldierInfo -> Json)
    returns (r: Response)
    requires req.verb == POST
    requires l.Valid()
    modifies l
    ensures l.Valid()
    ensures JsonInputGate(req, false).Answer? ==>
              r == JsonInputGate(req, false).resp && l.subordinates == old(l.subordinates)
    ensures JsonInputGate(req, false).Pass? ==>
              var soldier := ActorInfo.SoldierInfoMake(req.body.value);
              (soldier.Err? ==> r == InternalError && l.subordinates == old(l.subordinates))
              && (soldier.Ok? && !Hashable(soldier.value.id) ==>
                    r == InternalError && l.subordinates == old(l.subordinates))
              && (soldier.Ok? && Hashable(soldier.value.id) && soldier.value.id in OD.Keys(old(l.subordinates)) ==>
                    r == Reply(500, StatusBody(Failed)) && l.subordinates == old(l.subordinates))
              && (soldier.Ok? && Hashable(soldier.value.id) && soldier.value.id !in OD.Keys(old(l.subordinates)) ==>
                    r == Reply(200, StatusBodyWith(Success, "accepted", toDict(soldier.value)))
                    && l.subordinates == old(l.subordinates) + [(soldier.value.id, soldier.value)])
    ensures l.missions == old(l.missions) && l.workCache == old(l.workCache)
  {
    var gate := JsonInputGate(req, false);
    if gate.Answer? {
      return gate.resp;
    }
    var soldier := ActorInfo.SoldierInfoMake(req.body.value);
    if soldier.Err? {
      return InternalError;
    }
    var accepted := l.AcceptSubordinate(soldier.value);
    if accepted.Err? {
      return InternalError;
    }
    if !accepted.value {
      return Reply(500, StatusBody(Failed));
    }
    return Reply(200, StatusBodyWith(Success, "accepted", toDict(soldier.value)));
  }

  /**
   * The entity-tag the client holds, as the handler reads it: the header's
   * text without its first and last characters (meant to be the quotes).
   */
  function HeldTag(ifNoneMatch: ETags): string {
    DropEnds(ETagsText(ifNoneMatch))
  }

  /**
   * GET /subordinates/<sub_id>: behind the 404 check, 304 with an empty
   * body when the held tag equals the record's hash, otherwise 200 with the
   * record and that hash as the ETag.
   */
  function GetSubInfo(l: ML.Leader, subId: string, ifNoneMatch: ETags,
                      hash: ActorInfo.SoldierInfo -> string,
                      toDict: ActorInfo.SoldierInfo -> Json): (r: Response)
    reads l
    requires l.Valid()
    ensures JStr(subId) !in OD.Keys(l.subordinates) ==> r == SubordinateNotFound
    ensures JStr(subId) in OD.Keys(l.subordinates) ==>
              exists info :: OD.Lookup(l.subordinates, JStr(subId)) == Some(info)
                             && info.id == JStr(subId)
                             && (HeldTag(ifNoneMatch) == hash(info) ==> r == Reply(304, JNull))
                             && (HeldTag(ifNoneMatch) != hash(info) ==>
                                   r == Response(200, StatusBodyWith(Success, "info", toDict(info)), Some(hash(info))))
  {
    match AccessSubordinate(l.CheckSubordinate(JStr(subId)).value)
    case Answer(resp) => resp
    case Pass =>
      var info := l.GetSubInfo(JStr(subId)).value;
      var etag := hash(info);
      if etag == HeldTag(ifNoneMatch) then Reply(304, JNull)
      else Response(200, StatusBodyWith(Success, "info", toDict(info)), Some(etag))
  }

  /** A client that sends back the one strong tag it was given is answered 304. */
  lemma StrongTagRevalidates(l: ML.Leader, subId: string, hash: ActorInfo.SoldierInfo -> string,
                             toDict: ActorInfo.SoldierInfo -> Json, info: ActorInfo.SoldierInfo)
    requires l.Valid()
    requires OD.Lookup(l.subordinates, JStr(subId)) == Some(info)
    ensures GetSubInfo(l, subId, ETags([hash(info)], [], false), hash, toDict) == Reply(304, JNull)
  {
    var tags := ETags([hash(info)], [], false);
    assert QuoteAll("", tags.strong) + QuoteAll("W/", tags.weak) == ["" + "\"" + hash(info) + "\""];
    assert ETagsText(tags) == "\"" + hash(info) + "\"";
    assert HeldTag(tags) == hash(info);
  }

  /**
   * `If-None-Match: *` never matches: the held tag is empty, and a hash that
   * is not empty differs from it.  Section 3.2 of RFC 7232 says `*` matches
   * any current representation, so this is where the handler departs from it.
   */
  lemma StarNeverRevalidates(l: ML.Leader, subId: string, hash: ActorInfo.SoldierInfo -> string,
                             toDict: ActorInfo.SoldierInfo -> Json, info: ActorInfo.SoldierInfo)
    requires l.Valid()
    requires OD.Lookup(l.subordinates, JStr(subId)) == Some(info)
    requires hash(info) != ""
    ensures GetSubInfo(l, subId, ETags([], [], true), hash, toDict).code == 200
  {
    assert HeldTag(ETags([], [], true)) == "";
  }

  /** The text of two strong tags is the first quoted tag, a comma and a space, then the second. */
  lemma TwoTagsText(t1: string, t2: string)
    ensures ETagsText(ETags([t1, t2], [], false)) == "\"" + t1 + "\"" + ", " + "\"" + t2 + "\""
  {
    var tags := ETags([t1, t2], [], false);
    assert tags.strong[1..] == [t2];
    assert QuoteAll("", tags.strong[1..]) == ["" + "\"" + t2 + "\""];
    var parts := ["" + "\"" + t1 + "\"", "" + "\"" + t2 + "\""];
    assert QuoteAll("", tags.strong) + QuoteAll("W/", tags.weak) == parts;
    assert parts[1..] == [parts[1]];
    assert JoinWith(", ", parts[1..]) == parts[1];
    assert JoinWith(", ", parts) == parts[0] + ", " + parts[1];
  }

  /**
   * A header with two strong tags never matches a hash without a comma: the
   * held text keeps the separator between the tags.
   */
  lemma TagListNeverRevalidates(l: ML.Leader, subId: string, hash: ActorInfo.SoldierInfo -> string,
                                toDict: ActorInfo.SoldierInfo -> Json, info: ActorInfo.SoldierInfo,
                                t1: string, t2: string)
    requires l.Valid()
    requires OD.Lookup(l.subordinates, JStr(subId)) == Some(info)
    requires ',' !in hash(info)
    ensures GetSubInfo(l, subId, ETags([t1, t2], [], false), hash, toDict).code == 200
  {
    TwoTagsText(t1, t2);
    var text := ETagsText(ETags([t1, t2], [], false));
    assert text[|t1| + 2] == ',';
    var held := HeldTag(ETags([t1, t2], [], false));
    assert held[|t1| + 1] == text[|t1| + 2];
    assert held != hash(info);
  }

  /**
   * POST /subordinates/<sub_id>/work: behind the 404 check and the JSON
   * check, `Work.make(request.json)` and accept_work; success echoes the
   * work whatever accept_work returns.  Since the id is registered by then,
   * the inverted guard of accept_work means the work is never cached.
   */
  method AcceptWork(l: ML.Leader, subId: string, req: Request, toDict: JobInfo.Work -> Json)
    returns (r: Response)
    requires req.verb == POST
    modifies l
    ensures JStr(subId) !in OD.Keys(l.subordinates) ==> r == SubordinateNotFound
    ensures JStr(subId) in OD.Keys(l.subordinates) && JsonInputGate(req, false).Answer? ==>
              r == JsonInputGate(req, false).resp
    ensures JStr(subId) in OD.Keys(l.subordinates) && JsonInputGate(req, false).Pass? ==>
              var work := JobInfo.WorkMake(req.body.value);
              (work.Err? ==> r == InternalError)
              && (work.Ok? ==> r == Reply(200, StatusBodyWith(Success, "accepted", toDict(work.value))))
    ensures l.workCache == old(l.workCache)
    ensures l.subordinates == old(l.subordinates) && l.missions == old(l.missions)
  {
    var access := AccessSubordinate(l.CheckSubordinate(JStr(subId)).value);
    if access.Answer? {
      return access.resp;
    }
    var gate := JsonInputGate(req, false);
    if gate.Answer? {
      return gate.resp;
    }
    var work := JobInfo.WorkMake(req.body.value);
    if work.Err? {
      return InternalError;
    }
    var cached := l.AcceptWork(JStr(subId), work.value);
    return Reply(200, StatusBodyWith(Success, "accepted", toDict(work.value)));
  }
}
