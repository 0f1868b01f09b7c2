/**
 * The xmlrpc generation (rpc_impl/): a superior keeps each subordinate's
 * record together with a client bound to the subordinate's endpoint
 * ('rpcc'), and passes jobs down by calling those clients.  A remote call is
 * recorded as an entry of an outbox, so what was sent to whom is part of the
 * state.  The transport (connecting, marshalling, remote faults) is not
 * modelled: every call is delivered and returns.
 */
module RemoteCalls {
  import opened Wrappers
  import opened JsonValues
  import OD = OrderedDicts

  /**
   * A stored subordinate: its posted fields, without 'rpcc', and the
   * endpoint its client is bound to; None once the client entry is deleted.
   */
  datatype Member = Member(fields: OD.ODict<string, Json>, rpcc: Option<Json>)

  /** An order as a leader sends it; `list(set(...))` has no defined order, so the requirements are a set. */
  datatype Order = Order(requirements: set<Json>, trigger: Json, purpose: Json)

  datatype Call =
    | AddOrder(order: Order)
    | AddOperation(operation: Json)
    | AcceptData(data: Json)

  /** One remote call: the endpoint of the client used, and the call. */
  datatype Sent = Sent(endpoint: Json, call: Call)

  /** The calls a loop made, and the exception that ended it early, if any. */
  datatype Outcome = Outcome(sent: seq<Sent>, failure: Option<Exc>)

  /** The key a job is filed under. */
  function PurposeOf(job: Json): Result<Json, Exc> {
    Field(job, "purpose")
  }

  /** A job kept as the dictionary it was posted as: its body is itself. */
  function AsPosted(job: Json): Json {
    job
  }

  /** Each stored job is filed under its own hashable purpose. */
  predicate FiledByPurpose<V>(d: OD.ODict<Json, V>, body: V -> Json) {
    OD.Valid(d)
    && forall i :: 0 <= i < |d| ==> PurposeOf(body(d[i].1)) == Ok(d[i].0) && Hashable(d[i].0)
  }

  /** Filing a job under its own hashable purpose, new or not, keeps the store filed by purpose. */
  lemma FiledByPurposePut<V>(d: OD.ODict<Json, V>, body: V -> Json, v: V)
    requires FiledByPurpose(d, body)
    requires PurposeOf(body(v)).Ok? && Hashable(PurposeOf(body(v)).value)
    ensures FiledByPurpose(OD.Put(d, PurposeOf(body(v)).value, v), body)
  {
    var k := PurposeOf(body(v)).value;
    OD.PutValid(d, k, v);
    OD.PutEntries(d, k, v);
    var d' := OD.Put(d, k, v);
    forall i | 0 <= i < |d'| ensures PurposeOf(body(d'[i].1)) == Ok(d'[i].0) && Hashable(d'[i].0) {
      assert d'[i] in d';
      if d'[i] != (k, v) {
        var j :| 0 <= j < |d| && d[j] == d'[i];
      }
    }
  }

  /** Re-filing a stored job under its purpose leaves the store as it is. */
  lemma RefileKeeps<V>(d: OD.ODict<Json, V>, body: V -> Json, i: nat)
    requires FiledByPurpose(d, body) && i < |d|
    ensures PurposeOf(body(OD.Values(d)[i])) == Ok(d[i].0) && Hashable(d[i].0)
    ensures OD.Put(d, d[i].0, OD.Values(d)[i]) == d
  {
    OD.PutExisting(d, i, d[i].1);
    assert d[i := (d[i].0, d[i].1)] == d;
  }

  /**
   * add_subordinate's first steps: the client is bound to info["endpoint"],
   * then the record is filed under info['id'], which must be hashable.
   */
  function Enlist(info: Json): (r: Result<(Json, Member), Exc>)
    ensures r.Ok? <==>
              Field(info, "endpoint").Ok? && Field(info, "id").Ok? && Hashable(Field(info, "id").value)
    ensures r.Ok? ==>
              info.JObj? && r.value.0 == Field(info, "id").value
              && r.value.1 == Member(OD.Remove(info.fields, "rpcc"), Some(Field(info, "endpoint").value))
    ensures Field(info, "endpoint").Err? ==> r == Err(Field(info, "endpoint").error)
    ensures Field(info, "endpoint").Ok? && Field(info, "id").Err? ==> r == Err(Field(info, "id").error)
    ensures r.Err? ==> r.error in {KeyError, TypeError}
  {
    var endpoint :- Field(info, "endpoint");
    var id :- Field(info, "id");
    if !Hashable(id) then Err(TypeError)
    else Ok((id, Member(OD.Remove(info.fields, "rpcc"), Some(endpoint))))
  }

  /** The elements `set(j)` or `s.intersection(j)` takes from j; each must be hashable. */
  function HashableItems(j: Json): (r: Result<seq<Json>, Exc>)
    ensures r.Ok? <==> Iterate(j).Ok? && forall x :: x in Iterate(j).value ==> Hashable(x)
    ensures r.Ok? ==> r.value == Iterate(j).value
    ensures r.Err? ==> r.error == TypeError
  {
    var xs :- Iterate(j);
    if forall x :: x in xs ==> Hashable(x) then Ok(xs) else Err(TypeError)
  }

  /**
   * The order a leader sends a subordinate for an operation; the lookups run
   * in the source's order and the first that fails raises.
   */
  function OrderFor(op: Json, m: Member): (r: Result<Sent, Exc>)
    ensures r.Ok? ==> r.value.call.AddOrder? && m.rpcc == Some(r.value.endpoint)
  {
    var required :- Field(op, "requirements");
    var wanted :- HashableItems(required);
    var weapons :- Field(JObj(m.fields), "weapons");
    var held :- HashableItems(weapons);
    if m.rpcc.None? then Err(KeyError)
    else
      var trigger :- Field(op, "trigger");
      var purpose :- Field(op, "purpose");
      Ok(Sent(m.rpcc.value, AddOrder(Order((set x | x in wanted && x in held), trigger, purpose))))
  }

  /**
   * An order carries exactly the operation's requirements that the
   * subordinate has weapons for, and the operation's trigger and purpose;
   * it is built unless a lookup fails or an element cannot be hashed.
   */
  lemma OrderCutsToWeapons(op: Json, m: Member)
    ensures var r := OrderFor(op, m);
            r.Ok? ==>
              var o := r.value.call.order;
              Field(op, "trigger") == Ok(o.trigger) && Field(op, "purpose") == Ok(o.purpose)
              && Field(op, "requirements").Ok? && HashableItems(Field(op, "requirements").value).Ok?
              && Field(JObj(m.fields), "weapons").Ok? && HashableItems(Field(JObj(m.fields), "weapons").value).Ok?
              && forall x :: x in o.requirements <==>
                               x in Iterate(Field(op, "requirements").value).value
                               && x in Iterate(Field(JObj(m.fields), "weapons").value).value
    ensures OrderFor(op, m).Err? <==>
              Field(op, "requirements").Err? || HashableItems(Field(op, "requirements").value).Err?
              || Field(JObj(m.fields), "weapons").Err? || HashableItems(Field(JObj(m.fields), "weapons").value).Err?
              || m.rpcc.None? || Field(op, "trigger").Err? || Field(op, "purpose").Err?
  {
  }

  /** The operation dictionary `{place, requirements, trigger, purpose}`, in that key order. */
  function Operation(place: Json, requirements: Json, trigger: Json, purpose: Json): (op: Json)
    ensures op.JObj? && OD.Keys(op.fields) == ["place", "requirements", "trigger", "purpose"]
    ensures Field(op, "place") == Ok(place) && Field(op, "requirements") == Ok(requirements)
    ensures Field(op, "trigger") == Ok(trigger) && Field(op, "purpose") == Ok(purpose)
  {
    var fields := [("place", place), ("requirements", requirements), ("trigger", trigger), ("purpose", purpose)];
    assert OD.Keys(fields) == ["place", "requirements", "trigger", "purpose"];
    assert OD.Lookup(fields, "purpose") == Some(purpose) by {
      assert OD.Lookup(fields, "purpose") == OD.Lookup(fields[1..], "purpose") by { assert "place"[0] != "purpose"[1]; }
      assert OD.Lookup(fields[1..], "purpose") == OD.Lookup(fields[2..], "purpose") by { assert "requirements"[0] != "purpose"[0]; }
      assert OD.Lookup(fields[2..], "purpose") == OD.Lookup(fields[3..], "purpose") by { assert "trigger"[0] != "purpose"[0]; }
    }
    assert OD.Lookup(fields, "trigger") == Some(trigger) by {
      assert OD.Lookup(fields, "trigger") == OD.Lookup(fields[1..], "trigger") by { assert "place"[0] != "trigger"[0]; }
      assert OD.Lookup(fields[1..], "trigger") == OD.Lookup(fields[2..], "trigger") by { assert "requirements"[0] != "trigger"[0]; }
    }
    assert OD.Lookup(fields, "requirements") == Some(requirements) by {
      assert "place"[0] != "requirements"[0];
    }
    JObj(fields)
  }

  /**
   * The operation a commander sends a leader for a mission: exactly the
   * mission's place, requirements, trigger and purpose.
   */
  function OperationFor(mission: Json, m: Member): (r: Result<Sent, Exc>)
    ensures r.Ok? ==>
              m.rpcc == Some(r.value.endpoint) && r.value.call.AddOperation?
              && var op := r.value.call.operation;
                 op.JObj? && OD.Keys(op.fields) == ["place", "requirements", "trigger", "purpose"]
                 && Field(op, "place") == Field(mission, "place")
                 && Field(op, "requirements") == Field(mission, "requirements")
                 && Field(op, "trigger") == Field(mission, "trigger")
                 && Field(op, "purpose") == Field(mission, "purpose")
    ensures r.Err? <==>
              m.rpcc.None? || Field(mission, "place").Err? || Field(mission, "requirements").Err?
              || Field(mission, "trigger").Err? || Field(mission, "purpose").Err?
  {
    if m.rpcc.None? then Err(KeyError)
    else
      var place :- Field(mission, "place");
      var requirements :- Field(mission, "requirements");
      var trigger :- Field(mission, "trigger");
      var purpose :- Field(mission, "purpose");
      Ok(Sent(m.rpcc.value, AddOperation(Operation(place, requirements, trigger, purpose))))
  }

  /** How a superior turns a job into the call for one subordinate: OrderFor (leaders) or OperationFor (commanders). */
  type Relay = (Json, Member) -> Result<Sent, Exc>

  /**
   * The fan-out loop over the subordinates, in registration order: one call
   * per subordinate until the first one whose call cannot be built, which
   * raises and ends the loop.
   */
  function Spread(relay: Relay, job: Json, subs: seq<(Json, Member)>): (o: Outcome)
    ensures |o.sent| <= |subs|
    ensures forall i :: 0 <= i < |o.sent| ==> relay(job, subs[i].1) == Ok(o.sent[i])
    ensures o.failure.None? <==> |o.sent| == |subs|
    ensures o.failure.Some? ==> relay(job, subs[|o.sent|].1) == Err(o.failure.value)
    decreases |subs|
  {
    if subs == [] then Outcome([], None)
    else
      var init := subs[..|subs| - 1];
      var before := Spread(relay, job, init);
      assert forall i :: 0 <= i < |init| ==> init[i] == subs[i];
      if before.failure.Some? then before
      else
        var last := relay(job, subs[|subs| - 1].1);
        if last.Err? then Outcome(before.sent, Some(last.error))
        else Outcome(before.sent + [last.value], None)
  }

  /**
   * The fan-out loop of a superior: the call for each target in order,
   * until one cannot be built; the calls made and the exception.
   */
  method FanOut(relay: Relay, job: Json, targets: seq<(Json, Member)>) returns (sent: seq<Sent>, failure: Option<Exc>)
    ensures sent == Spread(relay, job, targets).sent && failure == Spread(relay, job, targets).failure
  {
    sent := [];
    var i := 0;
    while i < |targets|
      invariant 0 <= i <= |targets|
      invariant Spread(relay, job, targets[..i]).failure.None?
      invariant sent == Spread(relay, job, targets[..i]).sent
    {
      var call := relay(job, targets[i].1);
      SpreadStep(relay, job, targets, i);
      if call.Err? {
        SpreadStops(relay, job, targets, i + 1);
        return sent, Some(call.error);
      }
      sent := sent + [call.value];
      i := i + 1;
    }
    assert targets[..i] == targets;
    return sent, None;
  }

  /** One more turn of the fan-out loop. */
  lemma SpreadStep(relay: Relay, job: Json, subs: seq<(Json, Member)>, i: nat)
    requires i < |subs| && Spread(relay, job, subs[..i]).failure.None?
    ensures var before := Spread(relay, job, subs[..i]);
            Spread(relay, job, subs[..i + 1]) ==
              if relay(job, subs[i].1).Err? then Outcome(before.sent, Some(relay(job, subs[i].1).error))
              else Outcome(before.sent + [relay(job, subs[i].1).value], None)
  {
    assert subs[..i + 1][..i] == subs[..i];
  }

  /** Once the loop has raised, later subordinates change nothing. */
  lemma {:induction false} SpreadStops(relay: Relay, job: Json, subs: seq<(Json, Member)>, n: nat)
    requires n <= |subs| && Spread(relay, job, subs[..n]).failure.Some?
    ensures Spread(relay, job, subs) == Spread(relay, job, subs[..n])
    decreases |subs|
  {
    if n < |subs| {
      assert subs[..|subs| - 1][..n] == subs[..n];
      SpreadStops(relay, job, subs[..|subs| - 1], n);
    } else {
      assert subs[..n] == subs;
    }
  }

  /**
   * The calls that follow storing a job: to every subordinate when the
   * job's place is "All", to none otherwise; where `otherPlaceRaises`
   * (rpc_impl/commander.py, which iterates `[].values()`) any other place
   * raises AttributeError.
   */
  function Dispatch(relay: Relay, job: Json, subs: seq<(Json, Member)>, otherPlaceRaises: bool): Outcome {
    match Field(job, "place")
    case Err(e) => Outcome([], Some(e))
    case Ok(place) =>
      if place == JStr("All") then Spread(relay, job, subs)
      else if otherPlaceRaises then Outcome([], Some(AttributeError))
      else Outcome([], None)
  }

  /**
   * The replay loop of add_subordinate under trace_error: every stored job
   * is dispatched again, and one that raises is reported and skipped.
   */
  function ReplayTraced(relay: Relay, jobs: seq<Json>, subs: seq<(Json, Member)>): seq<Sent>
    decreases |jobs|
  {
    if jobs == [] then []
    else ReplayTraced(relay, jobs[..|jobs| - 1], subs) + Dispatch(relay, jobs[|jobs| - 1], subs, false).sent
  }

  /** One more turn of the traced replay loop. */
  lemma ReplayTracedStep(relay: Relay, jobs: seq<Json>, subs: seq<(Json, Member)>, k: nat)
    requires k < |jobs|
    ensures ReplayTraced(relay, jobs[..k + 1], subs) ==
              ReplayTraced(relay, jobs[..k], subs) + Dispatch(relay, jobs[k], subs, false).sent
  {
    assert jobs[..k + 1][..k] == jobs[..k];
  }

  /** The replay loop without trace_error: the first job that raises ends it. */
  function ReplayUntraced(relay: Relay, jobs: seq<Json>, subs: seq<(Json, Member)>, otherPlaceRaises: bool)
    : Outcome
    decreases |jobs|
  {
    if jobs == [] then Outcome([], None)
    else
      var before := ReplayUntraced(relay, jobs[..|jobs| - 1], subs, otherPlaceRaises);
      if before.failure.Some? then before
      else
        var last := Dispatch(relay, jobs[|jobs| - 1], subs, otherPlaceRaises);
        Outcome(before.sent + last.sent, last.failure)
  }

  /** One more turn of the untraced replay loop, while nothing has raised. */
  lemma ReplayUntracedStep(relay: Relay, jobs: seq<Json>, subs: seq<(Json, Member)>, otherPlaceRaises: bool,
                           k: nat)
    requires k < |jobs| && ReplayUntraced(relay, jobs[..k], subs, otherPlaceRaises).failure.None?
    ensures var last := Dispatch(relay, jobs[k], subs, otherPlaceRaises);
            ReplayUntraced(relay, jobs[..k + 1], subs, otherPlaceRaises) ==
              Outcome(ReplayUntraced(relay, jobs[..k], subs, otherPlaceRaises).sent + last.sent, last.failure)
  {
    assert jobs[..k + 1][..k] == jobs[..k];
  }

  /** Once a replayed job has raised, the later jobs are never dispatched. */
  lemma {:induction false} ReplayUntracedStops(relay: Relay, jobs: seq<Json>, subs: seq<(Json, Member)>,
                                               otherPlaceRaises: bool, n: nat)
    requires n <= |jobs| && ReplayUntraced(relay, jobs[..n], subs, otherPlaceRaises).failure.Some?
    ensures ReplayUntraced(relay, jobs, subs, otherPlaceRaises) == ReplayUntraced(relay, jobs[..n], subs, otherPlaceRaises)
    decreases |jobs|
  {
    if n < |jobs| {
      assert jobs[..|jobs| - 1][..n] == jobs[..n];
      ReplayUntracedStops(relay, jobs[..|jobs| - 1], subs, otherPlaceRaises, n);
    } else {
      assert jobs[..n] == jobs;
    }
  }

  /**
   * One turn of the untraced replay loop as a caller's outbox sees it: the
   * calls of job k follow those of the earlier jobs, and if job k raised
   * the replay is over.
   */
  lemma UntracedTurn(relay: Relay, jobs: seq<Json>, subs: seq<(Json, Member)>, otherPlaceRaises: bool, k: nat,
                     start: seq<Sent>, before: seq<Sent>, after: seq<Sent>, raised: Option<Exc>)
    requires k < |jobs| && ReplayUntraced(relay, jobs[..k], subs, otherPlaceRaises).failure.None?
    requires before == start + ReplayUntraced(relay, jobs[..k], subs, otherPlaceRaises).sent
    requires after == before + Dispatch(relay, jobs[k], subs, otherPlaceRaises).sent
    requires raised == Dispatch(relay, jobs[k], subs, otherPlaceRaises).failure
    ensures after == start + ReplayUntraced(relay, jobs[..k + 1], subs, otherPlaceRaises).sent
    ensures raised == ReplayUntraced(relay, jobs[..k + 1], subs, otherPlaceRaises).failure
    ensures raised.Some? ==>
              ReplayUntraced(relay, jobs, subs, otherPlaceRaises) == ReplayUntraced(relay, jobs[..k + 1], subs, otherPlaceRaises)
  {
    ReplayUntracedStep(relay, jobs, subs, otherPlaceRaises, k);
    Appended(start, ReplayUntraced(relay, jobs[..k], subs, otherPlaceRaises).sent,
             Dispatch(relay, jobs[k], subs, otherPlaceRaises).sent);
    if raised.Some? {
      ReplayUntracedStops(relay, jobs, subs, otherPlaceRaises, k + 1);
    }
  }

  /** Appending to the outbox in two steps. */
  lemma Appended(a: seq<Sent>, b: seq<Sent>, c: seq<Sent>)
    ensures (a + b) + c == a + (b + c)
  {
  }

  /**
   * A replay in which no job raises sends every subordinate, the newcomer
   * and the earlier ones alike, the call for every job whose place is "All".
   */
  lemma {:induction false} ReplayReachesEveryone(relay: Relay, jobs: seq<Json>, subs: seq<(Json, Member)>,
                                                 k: nat, i: nat)
    requires k < |jobs| && i < |subs|
    requires forall j :: 0 <= j < |jobs| ==> Dispatch(relay, jobs[j], subs, false).failure.None?
    requires Field(jobs[k], "place") == Ok(JStr("All"))
    ensures relay(jobs[k], subs[i].1).Ok?
    ensures relay(jobs[k], subs[i].1).value in ReplayTraced(relay, jobs, subs)
    decreases |jobs|
  {
    var o := Dispatch(relay, jobs[k], subs, false);
    assert o == Spread(relay, jobs[k], subs);
    assert o.sent[i] in o.sent;
    if k < |jobs| - 1 {
      var init := jobs[..|jobs| - 1];
      assert init[k] == jobs[k];
      forall j | 0 <= j < |init| ensures Dispatch(relay, init[j], subs, false).failure.None? {
        assert init[j] == jobs[j];
      }
      ReplayReachesEveryone(relay, init, subs, k, i);
    }
  }

  /** When nothing raises, the replay with and without trace_error send the same calls. */
  lemma {:induction false} UntracedAgreesWhenNothingRaises(relay: Relay, jobs: seq<Json>,
                                                           subs: seq<(Json, Member)>)
    requires ReplayUntraced(relay, jobs, subs, false).failure.None?
    ensures ReplayUntraced(relay, jobs, subs, false).sent == ReplayTraced(relay, jobs, subs)
    decreases |jobs|
  {
    if jobs != [] {
      UntracedAgreesWhenNothingRaises(relay, jobs[..|jobs| - 1], subs);
    }
  }
}
