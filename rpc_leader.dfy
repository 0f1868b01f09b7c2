/**
 * rpc_impl/leader.py: the first xmlrpc leader.  It behaves as the troops
 * leader does, but without trace_error: an exception leaves the method and
 * reaches the caller, and an operation that raises during the replay of
 * add_subordinate ends the replay.  The exception is the methods' `raised`
 * result.
 */
module RpcLeader {
  import opened Wrappers
  import opened JsonValues
  import OD = OrderedDicts
  import opened RemoteCalls

  class LeaderBase {
    var operations: OD.ODict<Json, Json>
    var subordinates: OD.ODict<Json, Member>
    /** The endpoint of the superior's client, set once the leader has joined. */
    var superior: Option<Json>
    var outbox: seq<Sent>

    ghost predicate Valid()
      reads this`operations, this`subordinates
    {
      FiledByPurpose(operations, AsPosted) && OD.Valid(subordinates)
    }

    constructor()
      ensures Valid()
      ensures operations == [] && subordinates == [] && superior == None && outbox == []
    {
      operations := [];
      subordinates := [];
      superior := None;
      outbox := [];
    }

    /**
     * add_operation: the operation is filed under its purpose, then every
     * soldier gets its order when the place is "All", until one raises.
     */
    method AddOperation(op: Json) returns (raised: Option<Exc>)
      requires Valid()
      modifies `operations, `outbox
      ensures Valid()
      ensures subordinates == old(subordinates) && superior == old(superior)
      ensures PurposeOf(op).Err? ==>
                raised == Some(PurposeOf(op).error) && operations == old(operations) && outbox == old(outbox)
      ensures PurposeOf(op).Ok? && !Hashable(PurposeOf(op).value) ==>
                raised == Some(TypeError) && operations == old(operations) && outbox == old(outbox)
      ensures PurposeOf(op).Ok? && Hashable(PurposeOf(op).value) ==>
                operations == OD.Put(old(operations), PurposeOf(op).value, op)
                && outbox == old(outbox) + Dispatch(OrderFor, op, subordinates, false).sent
                && raised == Dispatch(OrderFor, op, subordinates, false).failure
    {
      var purpose := PurposeOf(op);
      if purpose.Err? {
        return Some(purpose.error);
      }
      if !Hashable(purpose.value) {
        return Some(TypeError);
      }
      FiledByPurposePut(operations, AsPosted, op);
      operations := OD.Put(operations, purpose.value, op);
      var place := Field(op, "place");
      if place.Err? {
        return Some(place.error);
      }
      var targets := if place.value == JStr("All") then subordinates else [];
      var sent;
      sent, raised := FanOut(OrderFor, op, targets);
      outbox := outbox + sent;
    }

    /**
     * add_subordinate: the soldier's record is filed under its id, then the
     * stored operations are added again in filing order; the first one that
     * raises ends the call with its exception.
     */
    method AddSubordinate(info: Json) returns (raised: Option<Exc>)
      requires Valid()
      modifies `subordinates, `operations, `outbox
      ensures Valid()
      ensures operations == old(operations) && superior == old(superior)
      ensures Enlist(info).Err? ==>
                raised == Some(Enlist(info).error) && subordinates == old(subordinates) && outbox == old(outbox)
      ensures Enlist(info).Ok? ==>
                subordinates == OD.Put(old(subordinates), Enlist(info).value.0, Enlist(info).value.1)
                && outbox == old(outbox) + ReplayUntraced(OrderFor, OD.Values(operations), subordinates, false).sent
                && raised == ReplayUntraced(OrderFor, OD.Values(operations), subordinates, false).failure
    {
      var entry := Enlist(info);
      if entry.Err? {
        return Some(entry.error);
      }
      OD.PutValid(subordinates, entry.value.0, entry.value.1);
      subordinates := OD.Put(subordinates, entry.value.0, entry.value.1);
      var jobs := OD.Values(operations);
      ghost var subs := subordinates;
      var k := 0;
      while k < |jobs|
        invariant 0 <= k <= |jobs|
        invariant Valid() && operations == old(operations) && superior == old(superior)
        invariant subordinates == subs
        invariant ReplayUntraced(OrderFor, jobs[..k], subs, false).failure.None?
        invariant outbox == old(outbox) + ReplayUntraced(OrderFor, jobs[..k], subs, false).sent
      {
        RefileKeeps(operations, AsPosted, k);
        ghost var before := outbox;
        raised := AddOperation(jobs[k]);
        UntracedTurn(OrderFor, jobs, subs, false, k, old(outbox), before, outbox, raised);
        if raised.Some? {
          return;
        }
        k := k + 1;
      }
      assert jobs[..k] == jobs;
      return None;
    }

    /** accept_data: the data goes unchanged to the superior; before joining there is none and the call raises. */
    method AcceptData(data: Json) returns (raised: Option<Exc>)
      modifies `outbox
      ensures operations == old(operations) && subordinates == old(subordinates) && superior == old(superior)
      ensures superior.None? ==> raised == Some(TypeError) && outbox == old(outbox)
      ensures superior.Some? ==> raised == None && outbox == old(outbox) + [Sent(superior.value, Call.AcceptData(data))]
    {
      if superior.None? {
        return Some(TypeError);
      }
      outbox := outbox + [Sent(superior.value, Call.AcceptData(data))];
      return None;
    }
  }

  /**
   * Without trace_error the replay ends at the first operation that raises:
   * the calls of the operations before it and those it made before raising
   * are sent, the later operations are not replayed, and the exception is
   * the one that operation raised.
   */
  lemma StopsAtFirstFailure(jobs: seq<Json>, subs: seq<(Json, Member)>, k: nat)
    requires k < |jobs|
    requires forall j :: 0 <= j < k ==> Dispatch(OrderFor, jobs[j], subs, false).failure.None?
    requires Dispatch(OrderFor, jobs[k], subs, false).failure.Some?
    ensures ReplayUntraced(OrderFor, jobs, subs, false).failure == Dispatch(OrderFor, jobs[k], subs, false).failure
    ensures ReplayUntraced(OrderFor, jobs, subs, false).sent ==
              ReplayTraced(OrderFor, jobs[..k], subs) + Dispatch(OrderFor, jobs[k], subs, false).sent
  {
    var init := jobs[..k];
    forall j | 0 <= j < |init| ensures Dispatch(OrderFor, init[j], subs, false).failure.None? {
      assert init[j] == jobs[j];
    }
    NothingRaisesSoFar(jobs, subs, k);
    UntracedAgreesWhenNothingRaises(OrderFor, init, subs);
    ReplayUntracedStep(OrderFor, jobs, subs, false, k);
    ReplayUntracedStops(OrderFor, jobs, subs, false, k + 1);
  }

  /** While no operation has raised, the untraced replay has not failed. */
  lemma {:induction false} NothingRaisesSoFar(jobs: seq<Json>, subs: seq<(Json, Member)>, k: nat)
    requires k <= |jobs|
    requires forall j :: 0 <= j < k ==> Dispatch(OrderFor, jobs[j], subs, false).failure.None?
    ensures ReplayUntraced(OrderFor, jobs[..k], subs, false).failure.None?
  {
    if k > 0 {
      NothingRaisesSoFar(jobs, subs, k - 1);
      ReplayUntracedStep(OrderFor, jobs, subs, false, k - 1);
    }
  }
}
