/**
 * rpc_impl/troops/soldier.py: the xmlrpc soldier's order book.  Orders are
 * kept one per purpose; each stored order carries an asyncio Event that
 * keeps its sensing loop running, and setting the event stops the loop.
 * Events are numbered in creation order; the loops themselves (`_working`)
 * are recorded as Workers and not run.  Every public method is wrapped by
 * trace_error: the printed exception is the methods' `trace` result.
 */
module RpcTroopsSoldier {
  import opened Wrappers
  import opened JsonValues
  import OD = OrderedDicts

  /**
   * A stored order: the fields of the order as posted, without 'event', and
   * the number of the Event stored under 'event'; None once get_orders has
   * popped it.
   */
  datatype Held = Held(fields: OD.ODict<string, Json>, event: Option<nat>)

  /** A sensing loop started by add_order: the Event that stops it, and the order's requirements and trigger. */
  datatype Worker = Worker(event: nat, requirements: Json, trigger: Json)

  /** The dictionary show_info answers; `orders` is None when get_orders failed. */
  datatype Info = Info(kind: string, id: Json, name: Json, place: Json, endpoint: Json,
                       weapons: seq<string>, orders: Option<OD.ODict<Json, Json>>)

  /** Two entries hold the same event. */
  predicate SameEvent(e: (Json, Held), f: (Json, Held)) {
    e.1.event.Some? && e.1.event == f.1.event
  }

  /**
   * The order book's invariant: one entry per purpose, no entry keeps an
   * 'event' field of its own, every event still stored belongs to one
   * entry only and has not been set, and every event stored or set was
   * created earlier.
   */
  ghost predicate BookValid(orders: OD.ODict<Json, Held>, events: nat, stopped: seq<nat>) {
    OD.Valid(orders)
    && (forall e :: e in orders ==> "event" !in OD.Keys(e.1.fields))
    && (forall e :: e in orders && e.1.event.Some? ==> e.1.event.value < events && e.1.event.value !in stopped)
    && (forall e, f {:trigger SameEvent(e, f)} :: e in orders && f in orders && SameEvent(e, f) ==> e == f)
    && (forall s :: s in stopped ==> s < events)
  }

  /** The number of entries get_orders gets through: those before the first whose 'event' is already gone. */
  function FirstDisarmed(orders: OD.ODict<Json, Held>): (n: nat)
    ensures n <= |orders|
    ensures forall i :: 0 <= i < n ==> orders[i].1.event.Some?
    ensures n < |orders| ==> orders[n].1.event.None?
  {
    if orders == [] || orders[0].1.event.None? then 0 else 1 + FirstDisarmed(orders[1..])
  }

  /** The book after `o.pop('event')` on its first n entries, through the shallow copy. */
  function Disarm(orders: OD.ODict<Json, Held>, n: nat): (r: OD.ODict<Json, Held>)
    ensures |r| == |orders| && OD.Keys(r) == OD.Keys(orders)
    ensures forall i :: 0 <= i < |r| ==>
              r[i].1.fields == orders[i].1.fields
              && r[i].1.event == (if i < n then None else orders[i].1.event)
  {
    var r := seq(|orders|, i requires 0 <= i < |orders| =>
                 if i < n then (orders[i].0, Held(orders[i].1.fields, None)) else orders[i]);
    assert OD.Keys(r) == OD.Keys(orders);
    r
  }

  /** The answer of get_orders: each purpose with its order's fields, without the event. */
  function Listing(orders: OD.ODict<Json, Held>): (r: OD.ODict<Json, Json>)
    ensures OD.Keys(r) == OD.Keys(orders)
    ensures forall i :: 0 <= i < |r| ==> r[i].1 == JObj(orders[i].1.fields)
  {
    var r := seq(|orders|, i requires 0 <= i < |orders| => (orders[i].0, JObj(orders[i].1.fields)));
    assert OD.Keys(r) == OD.Keys(orders);
    r
  }

  /** The state add_order changes: the orders, the events created, the loops started and the events set. */
  datatype Book = Book(orders: OD.ODict<Json, Held>, events: nat, workers: seq<Worker>, stopped: seq<nat>)

  /**
   * add_order: an order already stored under the purpose has its event set
   * and is deleted; then a new Event is created, the sensing loop is started
   * with the order's requirements and trigger, and the order is stored with
   * the event.  A stored order whose event get_orders popped makes the call
   * raise KeyError before anything changes; missing requirements or trigger
   * raise after the old order is gone and the new Event exists.
   */
  function Assign(b: Book, order: Json): (r: (Book, Option<Exc>))
    ensures r.1 != None ==> r.0.workers == b.workers
    ensures r.1 == None ==> |r.0.workers| == |b.workers| + 1 && r.0.workers[..|b.workers|] == b.workers
  {
    match Field(order, "purpose")
    case Err(e) => (b, Some(e))
    case Ok(p) =>
      if !Hashable(p) then (b, Some(TypeError))
      else
        var replaced := OD.Lookup(b.orders, p);
        if replaced.Some? && replaced.value.event.None? then (b, Some(KeyError))
        else
          var cleared := if replaced.Some? then OD.Remove(b.orders, p) else b.orders;
          var stopped := if replaced.Some? then b.stopped + [replaced.value.event.value] else b.stopped;
          var started := Book(cleared, b.events + 1, b.workers, stopped);
          match Field(order, "requirements")
          case Err(e) => (started, Some(e))
          case Ok(requirements) =>
            match Field(order, "trigger")
            case Err(e) => (started, Some(e))
            case Ok(trigger) =>
              (Book(OD.Put(cleared, p, Held(OD.Remove(order.fields, "event"), Some(b.events))),
                    b.events + 1, b.workers + [Worker(b.events, requirements, trigger)], stopped),
               None)
  }

  class SoldierBase {
    var id: Json
    var name: Json
    var place: Json
    var endpoint: Json
    var orders: OD.ODict<Json, Held>
    /** The names of the weapons, in the order of the weapons dictionary. */
    var weapons: seq<string>
    /** The number of Events created so far; the next one gets this number. */
    var events: nat
    var workers: seq<Worker>
    /** The events set so far, in order. */
    var stopped: seq<nat>

    ghost predicate Valid()
      reads this
    {
      BookValid(orders, events, stopped)
    }

    constructor()
      ensures Valid()
      ensures id == JStr("") && name == JStr("") && place == JStr("") && endpoint == JStr("")
      ensures orders == [] && weapons == ["zero", "random"]
      ensures events == 0 && workers == [] && stopped == []
    {
      id := JStr("");
      name := JStr("");
      place := JStr("");
      endpoint := JStr("");
      orders := [];
      weapons := ["zero", "random"];
      events := 0;
      workers := [];
      stopped := [];
    }

    /** add_order: the order book changes as Assign says. */
    method AddOrder(order: Json) returns (trace: Option<Exc>)
      requires Valid()
      modifies `orders, `events, `workers, `stopped
      ensures Valid()
      ensures (Book(orders, events, workers, stopped), trace) ==
                Assign(Book(old(orders), old(events), old(workers), old(stopped)), order)
    {
      AssignKeepsValid(Book(orders, events, workers, stopped), order);
      var purpose := Field(order, "purpose");
      if purpose.Err? {
        return Some(purpose.error);
      }
      var p := purpose.value;
      if !Hashable(p) {
        return Some(TypeError);
      }
      var replaced := OD.Lookup(orders, p);
      if replaced.Some? {
        if replaced.value.event.None? {
          return Some(KeyError);
        }
        stopped := stopped + [replaced.value.event.value];
        orders := OD.Remove(orders, p);
      }
      var event := events;
      events := events + 1;
      var requirements := Field(order, "requirements");
      if requirements.Err? {
        return Some(requirements.error);
      }
      var trigger := Field(order, "trigger");
      if trigger.Err? {
        return Some(trigger.error);
      }
      workers := workers + [Worker(event, requirements.value, trigger.value)];
      orders := OD.Put(orders, p, Held(OD.Remove(order.fields, "event"), Some(event)));
      return None;
    }

    /**
     * get_orders: the events are popped from the stored orders one by one,
     * in filing order; an order whose event is already gone raises KeyError
     * and leaves the earlier ones popped.
     */
    method GetOrders() returns (res: Option<OD.ODict<Json, Json>>, trace: Option<Exc>)
      requires Valid()
      modifies `orders
      ensures Valid()
      ensures orders == Disarm(old(orders), FirstDisarmed(old(orders)))
      ensures FirstDisarmed(old(orders)) == |old(orders)| ==> res == Some(Listing(old(orders))) && trace == None
      ensures FirstDisarmed(old(orders)) < |old(orders)| ==> res == None && trace == Some(KeyError)
    {
      var book := orders;
      var i := 0;
      while i < |book|
        invariant 0 <= i <= |book|
        invariant forall j :: 0 <= j < i ==> book[j].1.event.Some?
        invariant orders == Disarm(book, i)
      {
        if book[i].1.event.None? {
          FirstDisarmedIs(book, i);
          DisarmKeeps(book, i, events, stopped);
          return None, Some(KeyError);
        }
        DisarmStep(book, i);
        orders := orders[i := (book[i].0, Held(book[i].1.fields, None))];
        i := i + 1;
      }
      FirstDisarmedIs(book, i);
      DisarmKeeps(book, i, events, stopped);
      return Some(Listing(book)), None;
    }

    /** show_info: the soldier's description, its weapon names and the answer of get_orders. */
    method ShowInfo() returns (info: Info)
      requires Valid()
      modifies `orders
      ensures Valid()
      ensures orders == Disarm(old(orders), FirstDisarmed(old(orders)))
      ensures info == Info("Soldier", id, name, place, endpoint, weapons,
                           if FirstDisarmed(old(orders)) == |old(orders)| then Some(Listing(old(orders))) else None)
    {
      var listed, _ := GetOrders();
      info := Info("Soldier", id, name, place, endpoint, weapons, listed);
    }
  }

  /** Deleting a purpose, after its event was set, keeps the book valid. */
  lemma ClearKeeps(orders: OD.ODict<Json, Held>, events: nat, stopped: seq<nat>, p: Json, i: nat)
    requires BookValid(orders, events, stopped)
    requires i < |orders| && orders[i].0 == p && orders[i].1.event.Some?
    ensures BookValid(OD.Remove(orders, p), events, stopped + [orders[i].1.event.value])
  {
    OD.RemoveValid(orders, p);
    var cleared := OD.Remove(orders, p);
    var x := orders[i];
    assert x in orders;
    var stopped' := stopped + [x.1.event.value];
    forall e | e in cleared
      ensures e in orders && e != x && !SameEvent(e, x)
      ensures "event" !in OD.Keys(e.1.fields)
      ensures e.1.event.Some? ==> e.1.event.value < events && e.1.event.value !in stopped'
    {
    }
    forall s | s in stopped' ensures s < events {
    }
  }

  /** Storing a new order under a purpose the book does not hold, with a new event, keeps the book valid. */
  lemma StoreKeeps(orders: OD.ODict<Json, Held>, events: nat, stopped: seq<nat>, p: Json,
                   fields: OD.ODict<string, Json>)
    requires BookValid(orders, events, stopped) && p !in OD.Keys(orders) && "event" !in OD.Keys(fields)
    ensures BookValid(OD.Put(orders, p, Held(fields, Some(events))), events + 1, stopped)
  {
    var h := Held(fields, Some(events));
    OD.PutNew(orders, p, h);
    OD.PutValid(orders, p, h);
    var r := orders + [(p, h)];
    assert OD.Put(orders, p, h) == r && OD.Valid(r);
    forall e | e in r
      ensures "event" !in OD.Keys(e.1.fields)
      ensures e.1.event.Some? ==> e.1.event.value < events + 1 && e.1.event.value !in stopped
    {
      if e != (p, h) {
        assert e in orders;
      }
    }
    StoreUnique(orders, events, stopped, (p, h));
  }

  /** An entry with an event newer than every stored one shares its event with no stored entry. */
  lemma StoreUnique(orders: OD.ODict<Json, Held>, events: nat, stopped: seq<nat>, x: (Json, Held))
    requires BookValid(orders, events, stopped) && x.1.event == Some(events)
    ensures forall e, f {:trigger SameEvent(e, f)} :: e in orders + [x] && f in orders + [x] && SameEvent(e, f) ==> e == f
  {
    var r := orders + [x];
    forall e, f | e in r && f in r && SameEvent(e, f) ensures e == f {
      if e == x || f == x {
        assert e == x && f == x;
      }
    }
  }

  /** Creating an event keeps the book valid. */
  lemma Later(orders: OD.ODict<Json, Held>, events: nat, stopped: seq<nat>)
    requires BookValid(orders, events, stopped)
    ensures BookValid(orders, events + 1, stopped)
  {
  }

  /** add_order keeps the order book valid, whatever the order and whether or not it raises. */
  lemma AssignKeepsValid(b: Book, order: Json)
    requires BookValid(b.orders, b.events, b.stopped)
    ensures var b' := Assign(b, order).0; BookValid(b'.orders, b'.events, b'.stopped)
  {
    var purpose := Field(order, "purpose");
    if purpose.Ok? && Hashable(purpose.value) {
      var p := purpose.value;
      var replaced := OD.Lookup(b.orders, p);
      if !(replaced.Some? && replaced.value.event.None?) {
        var cleared := if replaced.Some? then OD.Remove(b.orders, p) else b.orders;
        var stopped := if replaced.Some? then b.stopped + [replaced.value.event.value] else b.stopped;
        if replaced.Some? {
          var i :| 0 <= i < |b.orders| && OD.Keys(b.orders)[i] == p;
          OD.LookupAt(b.orders, i);
          ClearKeeps(b.orders, b.events, b.stopped, p, i);
          OD.RemoveValid(b.orders, p);
        }
        assert BookValid(cleared, b.events, stopped);
        if Field(order, "requirements").Ok? && Field(order, "trigger").Ok? {
          StoreKeeps(cleared, b.events, stopped, p, OD.Remove(order.fields, "event"));
        } else {
          Later(cleared, b.events, stopped);
        }
      }
    }
  }

  /** add_order succeeds exactly when the purpose is a hashable key whose stored order, if any, still has its event, and the requirements and trigger are there. */
  lemma AssignSucceeds(b: Book, order: Json)
    ensures Assign(b, order).1 == None <==>
              Field(order, "purpose").Ok? && Hashable(Field(order, "purpose").value)
              && (OD.Lookup(b.orders, Field(order, "purpose").value).Some? ==>
                    OD.Lookup(b.orders, Field(order, "purpose").value).value.event.Some?)
              && Field(order, "requirements").Ok? && Field(order, "trigger").Ok?
  {
  }

  /**
   * A successful add_order stores the order's fields with a new event under
   * its purpose and starts one loop with the new event and the order's
   * requirements and trigger.
   */
  lemma AssignStores(b: Book, order: Json)
    requires Assign(b, order).1 == None
    ensures var r := Assign(b, order).0;
            OD.Lookup(r.orders, Field(order, "purpose").value) ==
              Some(Held(OD.Remove(order.fields, "event"), Some(b.events)))
            && r.workers == b.workers + [Worker(b.events, Field(order, "requirements").value,
                                                Field(order, "trigger").value)]
            && r.events == b.events + 1
  {
    var cleared := AssignShape(b, order);
  }

  /** add_order leaves the orders of the other purposes alone, whether or not it raises. */
  lemma AssignLeavesOthers(b: Book, order: Json, k: Json)
    requires Field(order, "purpose").Ok? ==> k != Field(order, "purpose").value
    ensures OD.Lookup(Assign(b, order).0.orders, k) == OD.Lookup(b.orders, k)
  {
    if Assign(b, order).1 == None {
      var cleared := AssignShape(b, order);
    }
  }

  /** The book a successful add_order leaves: the purpose's old order deleted, the new one put behind the rest. */
  lemma AssignShape(b: Book, order: Json) returns (cleared: OD.ODict<Json, Held>)
    requires Assign(b, order).1 == None
    ensures Field(order, "purpose").Ok? && Field(order, "requirements").Ok? && Field(order, "trigger").Ok?
    ensures order.JObj?
    ensures var p := Field(order, "purpose").value;
            cleared == (if OD.Lookup(b.orders, p).Some? then OD.Remove(b.orders, p) else b.orders)
            && Assign(b, order).0.orders == OD.Put(cleared, p, Held(OD.Remove(order.fields, "event"), Some(b.events)))
            && Assign(b, order).0.workers == b.workers + [Worker(b.events, Field(order, "requirements").value,
                                                                   Field(order, "trigger").value)]
            && Assign(b, order).0.events == b.events + 1
  {
    AssignSucceeds(b, order);
    var p := Field(order, "purpose").value;
    cleared := if OD.Lookup(b.orders, p).Some? then OD.Remove(b.orders, p) else b.orders;
  }

  /**
   * Replacing an order sets the old order's event, so its sensing loop
   * stops, and no stored order holds that event afterwards.
   */
  lemma ReplacedLoopStops(b: Book, order: Json)
    requires BookValid(b.orders, b.events, b.stopped)
    requires Assign(b, order).1 == None
    requires OD.Lookup(b.orders, Field(order, "purpose").value).Some?
    ensures var ev := OD.Lookup(b.orders, Field(order, "purpose").value).value.event;
            ev.Some? && ev.value in Assign(b, order).0.stopped
            && forall e :: e in Assign(b, order).0.orders ==> e.1.event != ev
  {
    AssignKeepsValid(b, order);
  }

  /** Where get_orders stops: the first entry whose event is gone, or the end of the book. */
  lemma {:induction false} FirstDisarmedIs(orders: OD.ODict<Json, Held>, n: nat)
    requires n <= |orders|
    requires forall j :: 0 <= j < n ==> orders[j].1.event.Some?
    requires n < |orders| ==> orders[n].1.event.None?
    ensures FirstDisarmed(orders) == n
  {
    if n > 0 {
      FirstDisarmedIs(orders[1..], n - 1);
    }
  }

  /** Disarming one more order is one update of the book disarmed so far. */
  lemma DisarmStep(orders: OD.ODict<Json, Held>, i: nat)
    requires i < |orders|
    ensures Disarm(orders, i)[i := (orders[i].0, Held(orders[i].1.fields, None))] == Disarm(orders, i + 1)
  {
    var a, b := Disarm(orders, i)[i := (orders[i].0, Held(orders[i].1.fields, None))], Disarm(orders, i + 1);
    assert forall k :: 0 <= k < |a| ==> a[k] == b[k];
  }

  /** Popping events keeps the book valid. */
  lemma DisarmKeeps(orders: OD.ODict<Json, Held>, n: nat, events: nat, stopped: seq<nat>)
    requires BookValid(orders, events, stopped)
    ensures BookValid(Disarm(orders, n), events, stopped)
  {
    var r := Disarm(orders, n);
    forall e | e in r ensures "event" !in OD.Keys(e.1.fields) && (e.1.event.Some? ==> e in orders) {
      var i :| 0 <= i < |r| && r[i] == e;
      assert orders[i] in orders;
      if i >= n {
        assert e == orders[i];
      }
    }
    forall e, f | e in r && f in r && SameEvent(e, f) ensures e == f {
      assert e in orders && f in orders;
    }
  }

  /** After a successful get_orders, a second one raises KeyError at the first entry. */
  lemma SecondGetOrdersRaises(orders: OD.ODict<Json, Held>)
    requires orders != [] && FirstDisarmed(orders) == |orders|
    ensures FirstDisarmed(Disarm(orders, |orders|)) == 0 < |orders|
  {
  }

  /**
   * After a successful get_orders every stored order has lost its event,
   * so add_order for a stored purpose raises KeyError and changes nothing.
   */
  lemma ListedOrdersRefuseRepeats(b: Book, order: Json)
    requires OD.Valid(b.orders) && FirstDisarmed(b.orders) == |b.orders|
    requires Field(order, "purpose").Ok? && Field(order, "purpose").value in OD.Keys(b.orders)
    requires Hashable(Field(order, "purpose").value)
    ensures var listed := b.(orders := Disarm(b.orders, |b.orders|));
            Assign(listed, order) == (listed, Some(KeyError))
  {
    var r := Disarm(b.orders, |b.orders|);
    var p := Field(order, "purpose").value;
    var i :| 0 <= i < |r| && OD.Keys(r)[i] == p;
    OD.LookupAt(r, i);
  }

  /**
   * A replaced order is deleted and stored again, so its purpose moves to
   * the end of the book's iteration order.
   */
  lemma ReplacedMovesLast(orders: OD.ODict<Json, Held>, p: Json, h: Held)
    requires OD.Valid(orders) && p in OD.Keys(orders)
    ensures OD.Put(OD.Remove(orders, p), p, h) == OD.Remove(orders, p) + [(p, h)]
    ensures OD.Keys(OD.Put(OD.Remove(orders, p), p, h)) == OD.Keys(OD.Remove(orders, p)) + [p]
    ensures |OD.Put(OD.Remove(orders, p), p, h)| == |orders|
  {
    OD.RemoveValid(orders, p);
    OD.PutNew(OD.Remove(orders, p), p, h);
    OD.RemoveShrinks(orders, p);
  }
}
