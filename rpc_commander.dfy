/**
 * rpc_impl/commander.py: the first xmlrpc commander.  It files missions
 * under their purpose and passes each mission placed "All" down to every
 * leader as an operation; a mission placed anywhere else is stored and then
 * raises AttributeError, because the loop iterates `[].values()`.  No method
 * traps exceptions: the exception is the methods' `raised` result.
 */
module RpcCommander {
  import opened Wrappers
  import opened JsonValues
  import OD = OrderedDicts
  import opened RemoteCalls

  /**
   * get_subordinate on a table of leaders: the answer, the exception raised
   * and the table afterwards.  A known leader's record loses its 'rpcc'
   * entry in place (`del res['rpcc']`), so the record is answered without
   * its client, and a record that has already lost it raises KeyError.
   */
  function Detach(subs: OD.ODict<Json, Member>, subId: Json): (r: (Json, Option<Exc>, OD.ODict<Json, Member>))
    requires OD.Valid(subs)
    ensures OD.Valid(r.2) && OD.Keys(r.2) == OD.Keys(subs)
    ensures !Hashable(subId) ==> r == (JNull, Some(TypeError), subs)
    ensures Hashable(subId) && subId !in OD.Keys(subs) ==> r == (JNull, None, subs)
    ensures Hashable(subId) && subId in OD.Keys(subs) && OD.Lookup(subs, subId).value.rpcc.None? ==>
              r == (JNull, Some(KeyError), subs)
    ensures Hashable(subId) && subId in OD.Keys(subs) && OD.Lookup(subs, subId).value.rpcc.Some? ==>
              r.0 == JObj(OD.Lookup(subs, subId).value.fields) && r.1 == None
              && OD.Lookup(r.2, subId) == Some(Member(OD.Lookup(subs, subId).value.fields, None))
              && forall k :: k != subId ==> OD.Lookup(r.2, k) == OD.Lookup(subs, k)
  {
    if !Hashable(subId) then (JNull, Some(TypeError), subs)
    else
      match OD.Lookup(subs, subId)
      case None => (JNull, None, subs)
      case Some(m) =>
        if m.rpcc.None? then (JNull, Some(KeyError), subs)
        else
          OD.PutValid(subs, subId, Member(m.fields, None));
          (JObj(m.fields), None, OD.Put(subs, subId, Member(m.fields, None)))
  }

  class CommanderBase {
    var missions: OD.ODict<Json, Json>
    var subordinates: OD.ODict<Json, Member>
    var outbox: seq<Sent>

    ghost predicate Valid()
      reads this`missions, this`subordinates
    {
      FiledByPurpose(missions, AsPosted) && OD.Valid(subordinates)
    }

    constructor()
      ensures Valid()
      ensures missions == [] && subordinates == [] && outbox == []
    {
      missions := [];
      subordinates := [];
      outbox := [];
    }

    /**
     * add_mission: the mission is filed under its purpose, replacing an
     * earlier one with the same purpose; when its place is "All" every
     * leader gets the operation, in registration order, until one raises;
     * any other place raises AttributeError after the filing.
     */
    method AddMission(mission: Json) returns (raised: Option<Exc>)
      requires Valid()
      modifies `missions, `outbox
      ensures Valid()
      ensures subordinates == old(subordinates)
      ensures PurposeOf(mission).Err? ==>
                raised == Some(PurposeOf(mission).error) && missions == old(missions) && outbox == old(outbox)
      ensures PurposeOf(mission).Ok? && !Hashable(PurposeOf(mission).value) ==>
                raised == Some(TypeError) && missions == old(missions) && outbox == old(outbox)
      ensures PurposeOf(mission).Ok? && Hashable(PurposeOf(mission).value) ==>
                missions == OD.Put(old(missions), PurposeOf(mission).value, mission)
                && outbox == old(outbox) + Dispatch(OperationFor, mission, subordinates, true).sent
                && raised == Dispatch(OperationFor, mission, subordinates, true).failure
    {
      var purpose := PurposeOf(mission);
      if purpose.Err? {
        return Some(purpose.error);
      }
      if !Hashable(purpose.value) {
        return Some(TypeError);
      }
      FiledByPurposePut(missions, AsPosted, mission);
      missions := OD.Put(missions, purpose.value, mission);
      var place := Field(mission, "place");
      if place.Err? {
        return Some(place.error);
      }
      if place.value != JStr("All") {
        return Some(AttributeError);
      }
      var sent;
      sent, raised := FanOut(OperationFor, mission, subordinates);
      outbox := outbox + sent;
    }

    /**
     * add_subordinate: the leader's record is filed under its id, then the
     * stored missions are added again in filing order; the first one that
     * raises ends the call with its exception.
     */
    method AddSubordinate(info: Json) returns (raised: Option<Exc>)
      requires Valid()
      modifies `subordinates, `missions, `outbox
      ensures Valid()
      ensures missions == old(missions)
      ensures Enlist(info).Err? ==>
                raised == Some(Enlist(info).error) && subordinates == old(subordinates) && outbox == old(outbox)
      ensures Enlist(info).Ok? ==>
                subordinates == OD.Put(old(subordinates), Enlist(info).value.0, Enlist(info).value.1)
                && outbox == old(outbox) + ReplayUntraced(OperationFor, OD.Values(missions), subordinates, true).sent
                && raised == ReplayUntraced(OperationFor, OD.Values(missions), subordinates, true).failure
    {
      var entry := Enlist(info);
      if entry.Err? {
        return Some(entry.error);
      }
      OD.PutValid(subordinates, entry.value.0, entry.value.1);
      subordinates := OD.Put(subordinates, entry.value.0, entry.value.1);
      var jobs := OD.Values(missions);
      ghost var subs := subordinates;
      var k := 0;
      while k < |jobs|
        invariant 0 <= k <= |jobs|
        invariant Valid() && missions == old(missions)
        invariant subordinates == subs
        invariant ReplayUntraced(OperationFor, jobs[..k], subs, true).failure.None?
        invariant outbox == old(outbox) + ReplayUntraced(OperationFor, jobs[..k], subs, true).sent
      {
        RefileKeeps(missions, AsPosted, k);
        ghost var before := outbox;
        raised := AddMission(jobs[k]);
        UntracedTurn(OperationFor, jobs, subs, true, k, old(outbox), before, outbox, raised);
        if raised.Some? {
          return;
        }
        k := k + 1;
      }
      assert jobs[..k] == jobs;
      return None;
    }

    /** get_subordinate: answers and updates the table as Detach says. */
    method GetSubordinate(subId: Json) returns (res: Json, raised: Option<Exc>)
      requires Valid()
      modifies `subordinates
      ensures Valid()
      ensures (res, raised, subordinates) == Detach(old(subordinates), subId)
    {
      var r := Detach(subordinates, subId);
      res, raised, subordinates := r.0, r.1, r.2;
    }
  }

  /** The record of a leader whose client is already gone cannot be asked for twice: the second call raises KeyError. */
  lemma SecondGetRaises(subs: OD.ODict<Json, Member>, subId: Json)
    requires OD.Valid(subs) && Hashable(subId) && subId in OD.Keys(subs)
    ensures Detach(Detach(subs, subId).2, subId).1 == Some(KeyError)
    ensures Detach(Detach(subs, subId).2, subId).2 == Detach(subs, subId).2
  {
  }

  /**
   * Once a leader's record has been answered by get_subordinate, every
   * mission placed "All" raises: the leader's operation cannot be built
   * without its client.
   */
  lemma DetachedBlocksMissions(subs: OD.ODict<Json, Member>, subId: Json, mission: Json)
    requires OD.Valid(subs) && Hashable(subId) && subId in OD.Keys(subs)
    requires OD.Lookup(subs, subId).value.rpcc.Some?
    requires Field(mission, "place") == Ok(JStr("All"))
    ensures Dispatch(OperationFor, mission, Detach(subs, subId).2, true).failure.Some?
  {
    var subs' := Detach(subs, subId).2;
    var i :| 0 <= i < |subs'| && OD.Keys(subs')[i] == subId;
    OD.LookupAt(subs', i);
    assert OperationFor(mission, subs'[i].1).Err?;
    assert |Spread(OperationFor, mission, subs').sent| <= i;
  }

  /**
   * A replay whose first stored mission is placed other than "All" raises
   * AttributeError at once and sends nothing, whatever the later missions.
   */
  lemma ReplayHaltsOnOtherPlace(jobs: seq<Json>, subs: seq<(Json, Member)>)
    requires |jobs| > 0 && Field(jobs[0], "place").Ok? && Field(jobs[0], "place").value != JStr("All")
    ensures ReplayUntraced(OperationFor, jobs, subs, true) == Outcome([], Some(AttributeError))
  {
    ReplayUntracedStep(OperationFor, jobs, subs, true, 0);
    ReplayUntracedStops(OperationFor, jobs, subs, true, 1);
  }
}
