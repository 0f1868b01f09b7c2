/**
 * troops/private.py: the private of the namedtuple generation.  It has two
 * sensors, "random" and "zero", holds the orders it was given, and runs one
 * sensing thread per held order until the order's event is set.  A PUT of
 * new orders sets every held order's event and replaces the orders with the
 * new ones whose sensor it has.  The JSON check in front of its handler is
 * the one of troops/common.py, which prints the body first.
 */
module TroopsPrivate {
  import opened Wrappers
  import opened JsonValues
  import opened Http
  import opened RequestContract
  import OD = OrderedDicts
  import Records
  import opened Scans

  /** The names of the private's sensors, in the order its dictionary holds them. */
  const SensorNames: seq<string> := ["random", "zero"]

  predicate Known(sensor: Json) {
    sensor.JStr? && sensor.s in SensorNames
  }

  /** An order: the sensor to read, the period, and the event that stops its thread. */
  datatype Order = Order(sensor: Json, interval: Json, event: nat)

  /** The fields the private hands to generate_info. */
  datatype PrivateInfo = PrivateInfo(name: string, addr: string, port: int, sensors: seq<string>)

  /** A POST sent by the private: its URL and what it carried. */
  datatype Post = Post(url: string, info: PrivateInfo)

  /**
   * One turn of set_order's loop: `order.sensor not in self._sensors` raises
   * TypeError for an unhashable sensor; an unknown sensor is skipped.
   */
  function Keep(o: Order): (r: Result<Option<Order>, Exc>)
    ensures r.Ok? <==> Hashable(o.sensor)
    ensures r.Err? ==> r.error == TypeError
    ensures r.Ok? ==> (r.value.Some? <==> Known(o.sensor)) && (r.value.Some? ==> r.value.value == o)
  {
    if !Hashable(o.sensor) then Err(TypeError)
    else if Known(o.sensor) then Ok(Some(o))
    else Ok(None)
  }

  /** The orders set_order accepts, and whether its loop raised. */
  function Accepted(input: seq<Order>): (r: Scanned<Order>)
    ensures forall o <- r.kept :: o in input && Known(o.sensor)
    ensures r.raised.None? <==> forall o <- input :: Hashable(o.sensor)
    ensures r.raised.None? ==> forall o <- input :: Known(o.sensor) ==> o in r.kept
    ensures r.raised.Some? ==> r.raised == Some(TypeError)
  {
    ScanKeptFrom(Keep, input);
    Scan(Keep, input)
  }

  /** When every sensor is known, set_order keeps every order, in the order given. */
  lemma AllKnownAllKept(input: seq<Order>)
    requires forall o <- input :: Known(o.sensor)
    ensures Accepted(input) == Scanned(input, None)
  {
    ScanKeepsAll(Keep, input);
  }

  function EventsOf(os: seq<Order>): (es: seq<nat>)
    ensures |es| == |os| && forall i :: 0 <= i < |os| ==> es[i] == os[i].event
  {
    seq(|os|, i requires 0 <= i < |os| => os[i].event)
  }

  class Private {
    var orders: seq<Order>
    var info: PrivateInfo
    var superiorEp: string
    /** The events set so far, the sensing threads started so far, and how many events were made. */
    var signalled: seq<nat>
    var threads: seq<Order>
    var eventsMade: nat
    var outbox: seq<Post>

    /** Every held order reads a sensor the private has, and has its sensing thread. */
    ghost predicate Valid()
      reads this
    {
      forall o <- orders :: Known(o.sensor) && o in threads
    }

    /** A new private holds no orders, and its info lists exactly its two sensors. */
    constructor(name: string, addr: string, port: int)
      ensures Valid()
      ensures orders == [] && info == PrivateInfo(name, addr, port, ["random", "zero"])
      ensures superiorEp == "" && signalled == [] && threads == [] && eventsMade == 0 && outbox == []
    {
      orders := [];
      info := PrivateInfo(name, addr, port, SensorNames);
      superiorEp := "";
      signalled := [];
      threads := [];
      eventsMade := 0;
      outbox := [];
    }

    /** join: the superior's endpoint is addr:port, and the private's info is posted to its soldiers. */
    method Join(addr: string, port: string)
      modifies `superiorEp, `outbox
      ensures superiorEp == addr + ":" + port
      ensures outbox == old(outbox) + [Post("http://" + superiorEp + "/sergeant/soldiers", info)]
    {
      superiorEp := addr + ":" + port;
      outbox := outbox + [Post("http://" + superiorEp + "/sergeant/soldiers", info)];
    }

    /**
     * set_order: every held order's event is set and the orders emptied;
     * then each new order whose sensor the private has gets its thread and
     * is held, in the order given, until a sensor that cannot be looked up
     * raises.
     */
    method SetOrder(input: seq<Order>) returns (raised: Option<Exc>)
      requires Valid()
      modifies `orders, `signalled, `threads
      ensures Valid()
      ensures signalled == old(signalled) + EventsOf(old(orders))
      ensures orders == Accepted(input).kept && raised == Accepted(input).raised
      ensures threads == old(threads) + orders
    {
      signalled := signalled + EventsOf(orders);
      orders := [];
      var i := 0;
      while i < |input|
        invariant 0 <= i <= |input|
        invariant Scan(Keep, input[..i]).raised.None?
        invariant orders == Scan(Keep, input[..i]).kept
        invariant threads == old(threads) + orders
        invariant signalled == old(signalled) + EventsOf(old(orders))
        invariant Valid()
      {
        var o := input[i];
        ScanStep(Keep, input, i);
        if !Hashable(o.sensor) {
          ScanStops(Keep, input, i + 1);
          return Some(TypeError);
        }
        if Known(o.sensor) {
          threads := threads + [o];
          orders := orders + [o];
        }
        i := i + 1;
      }
      assert input[..i] == input;
      return None;
    }
  }

  const OrderKeys: set<string> := {"sensor", "interval"}

  /** `Order(**o, event=Event())`: the item must hold exactly a sensor and an interval. */
  function OrderOf(o: Json, event: nat): (r: Result<Order, Exc>)
    ensures r.Ok? <==> KeywordsExactly(o, OrderKeys)
    ensures r.Err? ==> r.error == TypeError
    ensures r.Ok? ==> Field(o, "sensor") == Ok(r.value.sensor) && Field(o, "interval") == Ok(r.value.interval)
                      && r.value.event == event
  {
    if !KeywordsExactly(o, OrderKeys) then Err(TypeError)
    else
      Records.KeywordsPresent(o, OrderKeys, "sensor");
      Records.KeywordsPresent(o, OrderKeys, "interval");
      Ok(Order(Field(o, "sensor").value, Field(o, "interval").value, event))
  }

  /** A PUT's 'orders': a list is taken as it is, anything else as a one-element list. */
  function Items(given: Json): (items: seq<Json>)
    ensures given.JArr? ==> items == given.items
    ensures !given.JArr? ==> items == [given]
  {
    if given.JArr? then given.items else [given]
  }

  /** Each item made an order with its own new event, numbered from firstEvent; one malformed item raises. */
  function MakeOrders(items: seq<Json>, firstEvent: nat): (r: Result<seq<Order>, Exc>)
    ensures r.Ok? <==> forall o <- items :: KeywordsExactly(o, OrderKeys)
    ensures r.Err? ==> r.error == TypeError
    ensures r.Ok? ==> |r.value| == |items|
                      && forall i :: 0 <= i < |items| ==> OrderOf(items[i], firstEvent + i) == Ok(r.value[i])
  {
    if forall o <- items :: KeywordsExactly(o, OrderKeys) then
      Ok(seq(|items|, i requires 0 <= i < |items| => OrderOf(items[i], firstEvent + i).value))
    else
      Err(TypeError)
  }

  /** The orders of a PUT body: `body['orders']` made into orders. */
  function Incoming(body: Json, firstEvent: nat): (r: Result<seq<Order>, Exc>)
    ensures Field(body, "orders").Err? ==> r == Err(Field(body, "orders").error)
    ensures Field(body, "orders").Ok? ==> r == MakeOrders(Items(Field(body, "orders").value), firstEvent)
  {
    match Field(body, "orders")
    case Err(e) => Err(e)
    case Ok(given) => MakeOrders(Items(given), firstEvent)
  }

  /** An order as answered: its sensor and interval, without its event. */
  function Stripped(o: Order): (j: Json)
    ensures j.JObj? && OD.Keys(j.fields) == ["sensor", "interval"]
    ensures Field(j, "sensor") == Ok(o.sensor) && Field(j, "interval") == Ok(o.interval)
  {
    OD.LookupPair(("sensor", o.sensor), ("interval", o.interval));
    JObj([("sensor", o.sensor), ("interval", o.interval)])
  }

  /** The answer to GET and PUT /private/order: success and the held orders. */
  function Listing(os: seq<Order>): (j: Json)
    ensures Field(j, "result") == Ok(JStr("success"))
    ensures var listed := Field(j, "orders");
            listed.Ok? && listed.value.JArr? && |listed.value.items| == |os|
            && forall i :: 0 <= i < |os| ==> listed.value.items[i] == Stripped(os[i])
  {
    var listed := JArr(seq(|os|, i requires 0 <= i < |os| => Stripped(os[i])));
    OD.LookupPair(("result", JStr("success")), ("orders", listed));
    JObj([("result", JStr("success")), ("orders", listed)])
  }

  /** What Flask answers for a method the route does not take. */
  const MethodNotAllowed: Response := Reply(405, JNull)

  /**
   * GET and PUT /private/order.  A PUT that passes the JSON check reads its
   * orders; a body without 'orders' or with a malformed item raises before
   * set_order runs; a sensor that cannot be looked up raises inside it.
   * Either answer lists the orders then held.
   */
  method OrderRoute(app: Private, req: Request) returns (resp: Response)
    requires app.Valid()
    modifies app
    ensures app.Valid()
    ensures req.verb !in {GET, PUT} ==> resp == MethodNotAllowed && app.orders == old(app.orders)
    ensures req.verb == GET ==> resp == Reply(200, Listing(app.orders)) && app.orders == old(app.orders)
    ensures req.verb == PUT && JsonInputGate(req, true).Answer? ==>
              resp == JsonInputGate(req, true).resp
              && app.orders == old(app.orders) && app.signalled == old(app.signalled)
    ensures req.verb == PUT && JsonInputGate(req, true).Pass? ==>
              var incoming := Incoming(req.body.value, old(app.eventsMade));
              (incoming.Err? ==>
                 resp == InternalError && app.orders == old(app.orders) && app.signalled == old(app.signalled))
              && (incoming.Ok? ==>
                    app.orders == Accepted(incoming.value).kept
                    && app.signalled == old(app.signalled) + EventsOf(old(app.orders))
                    && resp == if Accepted(incoming.value).raised.None? then Reply(200, Listing(app.orders))
                               else InternalError)
  {
    if req.verb == GET {
      return Reply(200, Listing(app.orders));
    }
    if req.verb != PUT {
      return MethodNotAllowed;
    }
    var gate := JsonInputGate(req, true);
    if gate.Answer? {
      return gate.resp;
    }
    var incoming := Incoming(req.body.value, app.eventsMade);
    if incoming.Err? {
      return InternalError;
    }
    app.eventsMade := app.eventsMade + |incoming.value|;
    var raised := app.SetOrder(incoming.value);
    if raised.Some? {
      return InternalError;
    }
    return Reply(200, Listing(app.orders));
  }

  /**
   * A PUT whose orders all name a sensor the private has is answered with
   * exactly the sensors and intervals it sent, in the order sent, whether it
   * sent one bare order or a list.
   */
  lemma EchoesKnownOrders(body: Json, firstEvent: nat)
    requires Incoming(body, firstEvent).Ok?
    requires forall o <- Incoming(body, firstEvent).value :: Known(o.sensor)
    ensures var items := Items(Field(body, "orders").value);
            var listed := Field(Listing(Accepted(Incoming(body, firstEvent).value).kept), "orders").value;
            Accepted(Incoming(body, firstEvent).value).raised.None?
            && |listed.items| == |items|
            && forall i :: 0 <= i < |items| ==>
                 OD.Keys(listed.items[i].fields) == ["sensor", "interval"]
                 && Field(listed.items[i], "sensor") == Field(items[i], "sensor")
                 && Field(listed.items[i], "interval") == Field(items[i], "interval")
  {
    var os := Incoming(body, firstEvent).value;
    AllKnownAllKept(os);
  }
}
