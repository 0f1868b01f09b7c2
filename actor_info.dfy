/**
 * The actor records of model/actor_info.py.  Their `make` parsers read the
 * top-level keys and map the nested list element by element through the job
 * parsers; as in JobInfo, every failure is a TypeError.
 */
module ActorInfo {
  import opened Wrappers
  import opened JsonValues
  import opened JobInfo

  datatype SoldierInfo = SoldierInfo(id: Json, name: Json, weapons: Json, orders: seq<Order>)

  datatype LeaderInfo = LeaderInfo(
    id: Json, name: Json, endpoint: Json, subordinates: Json, missions: seq<Mission>)

  datatype CommanderInfo = CommanderInfo(
    id: Json, name: Json, endpoint: Json, subordinates: Json, campaigns: seq<Campaign>)

  /**
   * A list comprehension `[make(x) for x in xs]`: the first failing element
   * stops it, otherwise element i of the result is made from element i.
   */
  function MakeAll<T>(xs: seq<Json>, make: Json -> Result<T, Exc>): (r: Result<seq<T>, Exc>)
    ensures r.Ok? <==> forall i :: 0 <= i < |xs| ==> make(xs[i]).Ok?
    ensures r.Ok? ==>
              |r.value| == |xs| && forall i :: 0 <= i < |xs| ==> r.value[i] == make(xs[i]).value
    ensures r.Err? ==> exists i :: 0 <= i < |xs| && make(xs[i]) == Err(r.error)
  {
    if xs == [] then Ok([])
    else
      var head :- make(xs[0]);
      var rest := MakeAll(xs[1..], make);
      if rest.Err? then
        assert exists i :: 0 <= i < |xs| && make(xs[i]) == Err(rest.error) by {
          var j :| 0 <= j < |xs[1..]| && make(xs[1..][j]) == Err(rest.error);
          assert xs[j + 1] == xs[1..][j];
        }
        Err(rest.error)
      else
        assert forall i :: 1 <= i < |xs| ==> make(xs[i]).Ok? by {
          forall i | 1 <= i < |xs| ensures make(xs[i]).Ok? {
            assert xs[i] == xs[1..][i - 1];
          }
        }
        Ok([head] + rest.value)
  }

  /** The list comprehension over whatever `for x in source` visits. */
  function MakeEach<T>(source: Json, make: Json -> Result<T, Exc>): (r: Result<seq<T>, Exc>)
    ensures r.Ok? ==> Iterate(source).Ok? && MakeAll(Iterate(source).value, make).Ok?
  {
    var xs :- Iterate(source);
    MakeAll(xs, make)
  }

  function SoldierInfoMake(source: Json): (r: Result<SoldierInfo, Exc>)
    ensures r.Ok? <==>
              Has(source, "id") && Has(source, "name") && Has(source, "weapons")
              && Has(source, "orders") && MakeEach(Get(source, "orders"), OrderMake).Ok?
    ensures r.Ok? ==>
              r.value == SoldierInfo(Get(source, "id"), Get(source, "name"), Get(source, "weapons"),
                                     MakeEach(Get(source, "orders"), OrderMake).value)
    ensures r.Err? ==> r.error == TypeError
  {
    var id :- Arg(source, "id");
    var name :- Arg(source, "name");
    var weapons :- Arg(source, "weapons");
    var orderSource :- Arg(source, "orders");
    var orders :- TypeErrorOf(MakeEach(orderSource, OrderMake));
    Ok(SoldierInfo(id, name, weapons, orders))
  }

  function LeaderInfoMake(source: Json): (r: Result<LeaderInfo, Exc>)
    ensures r.Ok? <==>
              Has(source, "id") && Has(source, "name") && Has(source, "endpoint")
              && Has(source, "subordinates") && Has(source, "missions")
              && MakeEach(Get(source, "missions"), MissionMake).Ok?
    ensures r.Ok? ==>
              r.value == LeaderInfo(Get(source, "id"), Get(source, "name"), Get(source, "endpoint"),
                                    Get(source, "subordinates"),
                                    MakeEach(Get(source, "missions"), MissionMake).value)
    ensures r.Err? ==> r.error == TypeError
  {
    var id :- Arg(source, "id");
    var name :- Arg(source, "name");
    var endpoint :- Arg(source, "endpoint");
    var subordinates :- Arg(source, "subordinates");
    var missionSource :- Arg(source, "missions");
    var missions :- TypeErrorOf(MakeEach(missionSource, MissionMake));
    Ok(LeaderInfo(id, name, endpoint, subordinates, missions))
  }

  function CommanderInfoMake(source: Json): (r: Result<CommanderInfo, Exc>)
    ensures r.Ok? <==>
              Has(source, "id") && Has(source, "name") && Has(source, "endpoint")
              && Has(source, "subordinates") && Has(source, "campaigns")
              && MakeEach(Get(source, "campaigns"), CampaignMake).Ok?
    ensures r.Ok? ==>
              r.value == CommanderInfo(Get(source, "id"), Get(source, "name"), Get(source, "endpoint"),
                                       Get(source, "subordinates"),
                                       MakeEach(Get(source, "campaigns"), CampaignMake).value)
    ensures r.Err? ==> r.error == TypeError
  {
    var id :- Arg(source, "id");
    var name :- Arg(source, "name");
    var endpoint :- Arg(source, "endpoint");
    var subordinates :- Arg(source, "subordinates");
    var campaignSource :- Arg(source, "campaigns");
    var campaigns :- TypeErrorOf(MakeEach(campaignSource, CampaignMake));
    Ok(CommanderInfo(id, name, endpoint, subordinates, campaigns))
  }

  /** Every error the job parsers raise is a TypeError already. */
  function TypeErrorOf<T>(r: Result<T, Exc>): (r': Result<T, Exc>)
    ensures r'.Ok? <==> r.Ok?
    ensures r.Ok? ==> r' == r
    ensures r'.Err? ==> r'.error == TypeError
  {
    if r.Ok? then r else Err(TypeError)
  }

  /**
   * The orders of a parsed soldier are the parsed elements of the source
   * list, one for one and in the same order.
   */
  lemma SoldierOrdersElementwise(source: Json)
    requires SoldierInfoMake(source).Ok?
    requires Get(source, "orders").JArr?
    ensures var xs := Get(source, "orders").items;
            var orders := SoldierInfoMake(source).value.orders;
            |orders| == |xs| && forall i :: 0 <= i < |xs| ==> OrderMake(xs[i]) == Ok(orders[i])
  {
  }

  /**
   * Orders given as an empty string or an empty dictionary parse as no
   * orders; a non-empty string or dictionary, or a scalar, fails.
   */
  lemma OrdersFromNonLists(s: string, fs: seq<(string, Json)>)
    ensures MakeEach(JStr(""), OrderMake) == Ok([])
    ensures MakeEach(JObj([]), OrderMake) == Ok([])
    ensures s != "" ==> MakeEach(JStr(s), OrderMake).Err?
    ensures fs != [] ==> MakeEach(JObj(fs), OrderMake).Err?
    ensures MakeEach(JNull, OrderMake) == Err(TypeError)
  {
    if s != "" {
      assert !OrderMake(Iterate(JStr(s)).value[0]).Ok?;
    }
    if fs != [] {
      assert !OrderMake(Iterate(JObj(fs)).value[0]).Ok?;
    }
  }
}
