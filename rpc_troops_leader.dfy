/**
 * rpc_impl/troops/leader.py: the xmlrpc leader.  It files operations under
 * their purpose, passes each operation placed "All" down to every soldier as
 * an order cut to the soldier's weapons, replays every operation when a
 * soldier joins, and forwards collected data to its superior.  Every public
 * method is wrapped by trace_error: an exception is printed and the call
 * returns None.  The printed exception is the methods' `trace` result.
 */
module RpcTroopsLeader {
  import opened Wrappers
  import opened JsonValues
  import OD = OrderedDicts
  import opened RemoteCalls

  class LeaderBase {
    var operations: OD.ODict<Json, Json>
    var subordinates: OD.ODict<Json, Member>
    /** The endpoint of the superior's client, set once the leader has joined. */
    var superior: Option<Json>
    var outbox: seq<Sent>

    ghost predicate Valid()
      reads this
    {
      FiledByPurpose(operations, AsPosted) && OD.Valid(subordinates)
    }

    constructor()
      ensures Valid()
      ensures operations == [] && subordinates == [] && superior == None && outbox == []
    {
      operations := [];
      subordinates := [];
      superior := None;
      outbox := [];
    }

    /**
     * add_operation: the operation is filed under its purpose, replacing an
     * earlier one with the same purpose; then every soldier gets its order
     * when the place is "All", in registration order, until one raises.
     */
    method AddOperation(op: Json) returns (trace: Option<Exc>)
      requires Valid()
      modifies this
      ensures Valid()
      ensures subordinates == old(subordinates) && superior == old(superior)
      ensures PurposeOf(op).Err? ==>
                trace == Some(PurposeOf(op).error) && operations == old(operations) && outbox == old(outbox)
      ensures PurposeOf(op).Ok? && !Hashable(PurposeOf(op).value) ==>
                trace == Some(TypeError) && operations == old(operations) && outbox == old(outbox)
      ensures PurposeOf(op).Ok? && Hashable(PurposeOf(op).value) ==>
                operations == OD.Put(old(operations), PurposeOf(op).value, op)
                && outbox == old(outbox) + Dispatch(OrderFor, op, subordinates, false).sent
                && trace == Dispatch(OrderFor, op, subordinates, false).failure
    {
      var purpose := PurposeOf(op);
      if purpose.Err? {
        return Some(purpose.error);
      }
      if !Hashable(purpose.value) {
        return Some(TypeError);
      }
      FiledByPurposePut(operations, AsPosted, op);
      operations := OD.Put(operations, purpose.value, op);
      var place := Field(op, "place");
      if place.Err? {
        return Some(place.error);
      }
      var targets := if place.value == JStr("All") then subordinates else [];
      var sent;
      sent, trace := FanOut(OrderFor, op, targets);
      outbox := outbox + sent;
    }

    /**
     * add_subordinate: the soldier's record is filed under its id, replacing
     * an earlier one, then every stored operation is added again; each of
     * those calls traps its own exception, so the replay goes on past it.
     */
    method AddSubordinate(info: Json) returns (trace: Option<Exc>)
      requires Valid()
      modifies this
      ensures Valid()
      ensures operations == old(operations) && superior == old(superior)
      ensures Enlist(info).Err? ==>
                trace == Some(Enlist(info).error) && subordinates == old(subordinates) && outbox == old(outbox)
      ensures Enlist(info).Ok? ==>
                trace == None
                && subordinates == OD.Put(old(subordinates), Enlist(info).value.0, Enlist(info).value.1)
                && outbox == old(outbox) + ReplayTraced(OrderFor, OD.Values(operations), subordinates)
    {
      var entry := Enlist(info);
      if entry.Err? {
        return Some(entry.error);
      }
      OD.PutValid(subordinates, entry.value.0, entry.value.1);
      subordinates := OD.Put(subordinates, entry.value.0, entry.value.1);
      var jobs := OD.Values(operations);
      ghost var subs := subordinates;
      var k := 0;
      while k < |jobs|
        invariant 0 <= k <= |jobs|
        invariant Valid() && operations == old(operations) && superior == old(superior)
        invariant subordinates == subs
        invariant outbox == old(outbox) + ReplayTraced(OrderFor, jobs[..k], subs)
      {
        RefileKeeps(operations, AsPosted, k);
        ghost var done := ReplayTraced(OrderFor, jobs[..k], subs);
        ghost var before := outbox;
        assert before == old(outbox) + done;
        var ignored := AddOperation(jobs[k]);
        ghost var sent := Dispatch(OrderFor, jobs[k], subs, false).sent;
        assert outbox == before + sent;
        ReplayTracedStep(OrderFor, jobs, subs, k);
        Appended(old(outbox), done, sent);
        k := k + 1;
      }
      assert jobs[..k] == jobs;
      return None;
    }

    /** accept_data: the data goes unchanged to the superior; before joining there is none and the call raises. */
    method AcceptData(data: Json) returns (trace: Option<Exc>)
      modifies this
      ensures operations == old(operations) && subordinates == old(subordinates) && superior == old(superior)
      ensures superior.None? ==> trace == Some(TypeError) && outbox == old(outbox)
      ensures superior.Some? ==> trace == None && outbox == old(outbox) + [Sent(superior.value, Call.AcceptData(data))]
    {
      if superior.None? {
        return Some(TypeError);
      }
      outbox := outbox + [Sent(superior.value, Call.AcceptData(data))];
      return None;
    }
  }

  /**
   * After a soldier joins, and when no replayed operation raises, the
   * newcomer holds an order for every stored operation placed "All"; jobs
   * are the stored operations in filing order.
   */
  lemma NewcomerGetsEveryOperation(jobs: seq<Json>, subs: OD.ODict<Json, Member>, info: Json, k: nat)
    requires OD.Valid(subs) && Enlist(info).Ok? && k < |jobs|
    requires var subs' := OD.Put(subs, Enlist(info).value.0, Enlist(info).value.1);
             forall j :: 0 <= j < |jobs| ==> Dispatch(OrderFor, jobs[j], subs', false).failure.None?
    requires Field(jobs[k], "place") == Ok(JStr("All"))
    ensures var subs' := OD.Put(subs, Enlist(info).value.0, Enlist(info).value.1);
            exists i :: 0 <= i < |subs'| && subs'[i] == Enlist(info).value
                        && OrderFor(jobs[k], subs'[i].1).Ok?
                        && OrderFor(jobs[k], subs'[i].1).value in ReplayTraced(OrderFor, jobs, subs')
  {
    var e := Enlist(info).value;
    OD.PutValid(subs, e.0, e.1);
    MemberReached(jobs, OD.Put(subs, e.0, e.1), e.0, e.1, k);
  }

  /** A replay that raises nowhere reaches every member of the roster, the one under id included. */
  lemma MemberReached(jobs: seq<Json>, subs: OD.ODict<Json, Member>, id: Json, m: Member, k: nat)
    requires OD.Valid(subs) && OD.Lookup(subs, id) == Some(m) && k < |jobs|
    requires forall j :: 0 <= j < |jobs| ==> Dispatch(OrderFor, jobs[j], subs, false).failure.None?
    requires Field(jobs[k], "place") == Ok(JStr("All"))
    ensures exists i :: 0 <= i < |subs| && subs[i] == (id, m)
                        && OrderFor(jobs[k], subs[i].1).Ok?
                        && OrderFor(jobs[k], subs[i].1).value in ReplayTraced(OrderFor, jobs, subs)
  {
    var i :| 0 <= i < |subs| && OD.Keys(subs)[i] == id;
    OD.LookupAt(subs, i);
    assert subs[i] == (id, m);
    ReplayReachesEveryone(OrderFor, jobs, subs, k, i);
  }
}
