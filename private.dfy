/**
 * private.py: the private of the first HTTP generation.  It has two sensors,
 * "random" and "zero", each with a period and at most one running timer.
 * An order names sensors and periods; for each known sensor the period is
 * stored, the sensor's timer is replaced by a new one, and its first reading
 * is posted to the sergeant at once.  Its REST handlers read the body with
 * common.py's get_dict.
 */
module HttpPrivate {
  import opened Wrappers
  import opened JsonValues
  import opened Http
  import opened RequestContract
  import OD = OrderedDicts
  import opened Scans

  /** The names of the private's sensors, in the order its dictionary holds them. */
  const SensorNames: seq<string> := ["random", "zero"]

  /** A timer: the order in which it was started and its period. */
  datatype Timer = Timer(serial: nat, interval: Json)

  /**
   * A POST sent by the private: the join, with its URL and body, or a
   * reading, sent to http://{superiorEp}/pvt/{pvtId}/work for a sensor.
   */
  datatype Post = JoinPost(url: string, body: Json) | WorkPost(superiorEp: string, pvtId: Json, sensor: string)

  /** An accepted item of an order: a known sensor and its new period. */
  datatype Setting = Setting(sensor: string, interval: Json)

  /**
   * One turn of set_order's loop: `item['sensor']`, then `item['interval']`,
   * then the membership test, which raises TypeError for an unhashable
   * sensor; an unknown sensor is skipped.
   */
  function Pick(item: Json): Result<Option<Setting>, Exc>
  {
    match Field(item, "sensor")
    case Err(e) => Err(e)
    case Ok(sensor) =>
      match Field(item, "interval")
      case Err(e) => Err(e)
      case Ok(interval) =>
        if !Hashable(sensor) then Err(TypeError)
        else if sensor.JStr? && sensor.s in SensorNames then Ok(Some(Setting(sensor.s, interval)))
        else Ok(None)
  }

  /**
   * An item without 'sensor' or 'interval' raises the lookup's exception,
   * an unhashable sensor raises TypeError, an unknown one is skipped, and a
   * known one is accepted with the item's interval.
   */
  lemma PickMeans(item: Json)
    ensures var r := Pick(item);
            (Field(item, "sensor").Err? ==> r == Err(Field(item, "sensor").error))
            && (Field(item, "sensor").Ok? && Field(item, "interval").Err? ==> r == Err(Field(item, "interval").error))
            && (Field(item, "sensor").Ok? && Field(item, "interval").Ok? ==>
                  var sensor := Field(item, "sensor").value;
                  (r.Ok? <==> Hashable(sensor))
                  && (r.Err? ==> r.error == TypeError)
                  && (r.Ok? ==> (r.value.Some? <==> sensor.JStr? && sensor.s in SensorNames))
                  && (r.Ok? && r.value.Some? ==> r.value.value == Setting(sensor.s, Field(item, "interval").value)))
  {
  }

  /** set_order's loop over the order: the settings it accepts, and what raised. */
  function Plan(order: Json): (r: Scanned<Setting>)
    ensures Iterate(order).Err? ==> r == Scanned([], Some(TypeError))
    ensures Iterate(order).Ok? ==> r == Scan(Pick, Iterate(order).value)
    ensures KnownSensors(r.kept)
  {
    match Iterate(order)
    case Err(e) => Scanned([], Some(e))
    case Ok(items) =>
      ScanKeptFrom(Pick, items);
      Scan(Pick, items)
  }

  predicate KnownSensors(ss: seq<Setting>) {
    forall s <- ss :: s.sensor in SensorNames
  }

  /** set_order's loop only ever accepts the sensors the private has. */
  lemma KeptKnown(items: seq<Json>)
    ensures KnownSensors(Scan(Pick, items).kept)
  {
    ScanKeptFrom(Pick, items);
  }

  /** An item that names a known sensor and gives an interval. */
  predicate WellFormed(item: Json) {
    var sensor := Field(item, "sensor");
    sensor.Ok? && sensor.value.JStr? && sensor.value.s in SensorNames && Field(item, "interval").Ok?
  }

  /** The sensor and interval a well-formed item gives. */
  function SettingOf(item: Json): Setting
    requires WellFormed(item)
  {
    Setting(Field(item, "sensor").value.s, Field(item, "interval").value)
  }

  /**
   * An order whose every item names a known sensor and gives an interval is
   * accepted in full: nothing raises, and the k-th setting is the k-th
   * item's sensor and interval.
   */
  lemma {:induction false} WellFormedAccepted(items: seq<Json>)
    requires forall k :: 0 <= k < |items| ==> WellFormed(items[k])
    ensures var scan := Scan(Pick, items);
            scan.raised.None? && |scan.kept| == |items|
            && forall k :: 0 <= k < |items| ==> scan.kept[k] == SettingOf(items[k])
  {
    if items != [] {
      WellFormedAccepted(items[1..]);
      assert Pick(items[0]) == Ok(Some(SettingOf(items[0])));
      forall k | 0 <= k < |items| ensures Scan(Pick, items).kept[k] == SettingOf(items[k]) {
        if k > 0 {
          assert items[k] == items[1..][k - 1];
        }
      }
    }
  }

  /** One more turn of set_order's loop, after items that did not raise. */
  lemma PickStep(items: seq<Json>, i: nat, kept: seq<Setting>)
    requires i < |items| && Scan(Pick, items[..i]) == Scanned(kept, None)
    ensures var pick := Pick(items[i]);
            var after := Scan(Pick, items[..i + 1]);
            (pick.Err? ==> after == Scanned(kept, Some(pick.error)))
            && (pick == Ok(None) ==> after == Scanned(kept, None))
            && (pick.Ok? && pick.value.Some? ==>
                  after == Scanned(kept + [pick.value.value], None) && pick.value.value.sensor in SensorNames)
  {
    ScanStep(Pick, items, i);
  }

  /** An accepted setting as set_order answers it. */
  function Echo(s: Setting): (j: Json)
    ensures j.JObj? && OD.Keys(j.fields) == ["sensor", "interval"]
    ensures Field(j, "sensor") == Ok(JStr(s.sensor)) && Field(j, "interval") == Ok(s.interval)
  {
    OD.LookupPair(("sensor", JStr(s.sensor)), ("interval", s.interval));
    JObj([("sensor", JStr(s.sensor)), ("interval", s.interval)])
  }

  function Echoes(ss: seq<Setting>): (js: seq<Json>)
    ensures |js| == |ss| && forall i :: 0 <= i < |ss| ==> js[i] == Echo(ss[i])
  {
    seq(|ss|, i requires 0 <= i < |ss| => Echo(ss[i]))
  }

  /** The position of the last setting for a sensor. */
  function Latest(ss: seq<Setting>, name: string): (r: Option<nat>)
    ensures r.Some? ==> r.value < |ss| && ss[r.value].sensor == name
                        && forall j :: r.value < j < |ss| ==> ss[j].sensor != name
    ensures r.None? ==> forall j :: 0 <= j < |ss| ==> ss[j].sensor != name
  {
    if ss == [] then None
    else if ss[|ss| - 1].sensor == name then Some(|ss| - 1)
    else Latest(ss[..|ss| - 1], name)
  }

  /** The readings the settings post at once, one per setting, in order. */
  function Readings(ss: seq<Setting>, superiorEp: string, pvtId: Json): (ps: seq<Post>)
    ensures |ps| == |ss| && forall i :: 0 <= i < |ss| ==> ps[i] == WorkPost(superiorEp, pvtId, ss[i].sensor)
  {
    seq(|ss|, i requires 0 <= i < |ss| => WorkPost(superiorEp, pvtId, ss[i].sensor))
  }

  lemma EchoesSnoc(ss: seq<Setting>, s: Setting)
    ensures Echoes(ss + [s]) == Echoes(ss) + [Echo(s)]
  {
  }

  lemma ReadingsSnoc(sent: seq<Post>, ss: seq<Setting>, s: Setting, superiorEp: string, pvtId: Json)
    ensures sent + Readings(ss + [s], superiorEp, pvtId)
            == (sent + Readings(ss, superiorEp, pvtId)) + [WorkPost(superiorEp, pvtId, s.sensor)]
  {
    assert Readings(ss + [s], superiorEp, pvtId) == Readings(ss, superiorEp, pvtId) + [WorkPost(superiorEp, pvtId, s.sensor)];
  }

  /** One more setting: the last position for its sensor is the new one. */
  lemma LatestSnoc(ss: seq<Setting>, s: Setting, name: string)
    ensures Latest(ss + [s], name) == if s.sensor == name then Some(|ss|) else Latest(ss, name)
  {
    assert (ss + [s])[..|ss|] == ss;
  }

  /** A sensor's period and its current timer. */
  datatype SensorState = SensorState(interval: Json, timer: Option<Timer>)

  /** The state of both sensors, with how many timers were started and which were cancelled. */
  datatype Bank = Bank(random: SensorState, zero: SensorState, started: nat, cancelled: seq<nat>) {
    function Of(name: string): SensorState {
      if name == "random" then random else zero
    }
  }

  /** Timer n is the one a sensor holds. */
  predicate Holds(t: Option<Timer>, n: nat) {
    t.Some? && t.value.serial == n
  }

  /**
   * The sensors' current timers are distinct timers already started and not
   * cancelled, only started timers are cancelled, and every other timer
   * started has been cancelled, so each sensor has exactly one timer running
   * once it has been ordered.
   */
  ghost predicate BankValid(b: Bank) {
    (b.random.timer.Some? ==> b.random.timer.value.serial < b.started && b.random.timer.value.serial !in b.cancelled)
    && (b.zero.timer.Some? ==> b.zero.timer.value.serial < b.started && b.zero.timer.value.serial !in b.cancelled)
    && (forall n <- b.cancelled :: n < b.started)
    && (b.random.timer.Some? && b.zero.timer.Some? ==> b.random.timer.value.serial != b.zero.timer.value.serial)
    && forall n :: 0 <= n < b.started && !Holds(b.random.timer, n) && !Holds(b.zero.timer, n) ==> n in b.cancelled
  }

  /**
   * One accepted setting: the sensor takes the period, its timer is
   * cancelled and a new one with that period is started.
   */
  function Apply(b: Bank, s: Setting): Bank
    requires s.sensor in SensorNames
  {
    var mine := b.Of(s.sensor);
    var cancelled := b.cancelled + (if mine.timer.Some? then [mine.timer.value.serial] else []);
    var restarted := SensorState(s.interval, Some(Timer(b.started, s.interval)));
    if s.sensor == "random" then Bank(restarted, b.zero, b.started + 1, cancelled)
    else Bank(b.random, restarted, b.started + 1, cancelled)
  }

  /** The settings applied in order. */
  function After(b: Bank, ss: seq<Setting>): Bank
    requires forall s <- ss :: s.sensor in SensorNames
  {
    if ss == [] then b
    else
      assert forall s <- ss[..|ss| - 1] :: s in ss;
      Apply(After(b, ss[..|ss| - 1]), ss[|ss| - 1])
  }

  lemma AfterSnoc(b: Bank, ss: seq<Setting>, s: Setting)
    requires forall t <- ss :: t.sensor in SensorNames
    requires s.sensor in SensorNames
    ensures After(b, ss + [s]) == Apply(After(b, ss), s)
  {
    assert (ss + [s])[..|ss|] == ss;
  }

  /** Replacing a sensor's timer keeps every other timer cancelled. */
  lemma ApplyKeepsValid(b: Bank, s: Setting)
    requires BankValid(b) && s.sensor in SensorNames
    ensures BankValid(Apply(b, s))
  {
  }

  /** One setting restarts the sensor it names and leaves the other as it was. */
  lemma ApplyOf(b: Bank, s: Setting, name: string)
    requires s.sensor in SensorNames && name in SensorNames
    ensures Apply(b, s).started == b.started + 1
    ensures Apply(b, s).Of(name)
            == if s.sensor == name then SensorState(s.interval, Some(Timer(b.started, s.interval))) else b.Of(name)
  {
  }

  /** Any run of settings keeps one timer per sensor, and starts one timer per setting. */
  lemma {:induction false} AfterKeepsValid(b: Bank, ss: seq<Setting>)
    requires BankValid(b) && forall s <- ss :: s.sensor in SensorNames
    ensures BankValid(After(b, ss)) && After(b, ss).started == b.started + |ss|
  {
    if ss != [] {
      assert forall s <- ss[..|ss| - 1] :: s in ss;
      AfterKeepsValid(b, ss[..|ss| - 1]);
      ApplyKeepsValid(After(b, ss[..|ss| - 1]), ss[|ss| - 1]);
    }
  }

  /**
   * After the settings, a sensor has the period of the last setting naming
   * it and the timer that setting started (the k-th setting starts timer
   * started + k); a sensor no setting names is as it was.
   */
  lemma {:induction false} LastSettingWins(b: Bank, ss: seq<Setting>, name: string)
    requires forall s <- ss :: s.sensor in SensorNames
    requires name in SensorNames
    ensures After(b, ss).started == b.started + |ss|
    ensures Latest(ss, name).None? ==> After(b, ss).Of(name) == b.Of(name)
    ensures Latest(ss, name).Some? ==>
              var k := Latest(ss, name).value;
              After(b, ss).Of(name) == SensorState(ss[k].interval, Some(Timer(b.started + k, ss[k].interval)))
  {
    if ss != [] {
      var init, last := ss[..|ss| - 1], ss[|ss| - 1];
      assert forall s <- init :: s in ss;
      LastSettingWins(b, init, name);
      ApplyOf(After(b, init), last, name);
    }
  }

  /** The other sensor's timer, after any settings, is never the timer a sensor held before them. */
  lemma OtherTimer(b: Bank, ss: seq<Setting>, other: string, name: string)
    requires BankValid(b) && forall s <- ss :: s.sensor in SensorNames
    requires other in SensorNames && name in SensorNames && other != name && b.Of(name).timer.Some?
    ensures var t := After(b, ss).Of(other).timer;
            t.Some? ==> t.value.serial != b.Of(name).timer.value.serial
  {
    LastSettingWins(b, ss, other);
  }

  /**
   * set_order stops no sensor it does not name: such a sensor's timer is
   * still its own afterwards and was not cancelled.
   */
  lemma {:induction false} AbsentSensorKeepsRunning(b: Bank, ss: seq<Setting>, name: string)
    requires BankValid(b) && forall s <- ss :: s.sensor in SensorNames
    requires name in SensorNames && Latest(ss, name).None? && b.Of(name).timer.Some?
    ensures After(b, ss).Of(name).timer == b.Of(name).timer
    ensures b.Of(name).timer.value.serial !in After(b, ss).cancelled
  {
    LastSettingWins(b, ss, name);
    if ss != [] {
      var init := ss[..|ss| - 1];
      var s := ss[|ss| - 1];
      assert forall t <- init :: t in ss;
      assert ss == init + [s];
      LatestSnoc(init, s, name);
      AbsentSensorKeepsRunning(b, init, name);
      OtherTimer(b, init, s.sensor, name);
      var prior := After(b, init).Of(s.sensor).timer;
      assert After(b, ss).cancelled == After(b, init).cancelled + (if prior.Some? then [prior.value.serial] else []);
    }
  }

  class Sensor {
    var interval: Json
    var timer: Option<Timer>

    constructor(period: Json)
      ensures interval == period && timer == None
    {
      interval := period;
      timer := None;
    }
  }

  /**
   * After the first i items, set_order's loop has accepted `kept`: the
   * answer, the sensors' state and the posts so far all follow from it.
   */
  ghost predicate Progressed(items: seq<Json>, i: nat, kept: seq<Setting>, raised: Option<Exc>, accepted: seq<Json>,
                             bank: Bank, sent: seq<Post>, ep: string, id: Json, state: Bank, posted: seq<Post>)
  {
    i <= |items| && Scan(Pick, items[..i]) == Scanned(kept, raised)
    && KnownSensors(kept) && BankValid(state)
    && accepted == Echoes(kept)
    && state == After(bank, kept)
    && posted == sent + Readings(kept, ep, id)
  }

  /** A turn of set_order's loop whose item raises ends the loop with that exception. */
  lemma ProgressedRaise(items: seq<Json>, i: nat, kept: seq<Setting>, accepted: seq<Json>,
                        bank: Bank, sent: seq<Post>, ep: string, id: Json, state: Bank, posted: seq<Post>, e: Exc)
    requires i < |items| && Progressed(items, i, kept, None, accepted, bank, sent, ep, id, state, posted)
    requires Pick(items[i]) == Err(e)
    ensures Progressed(items, i + 1, kept, Some(e), accepted, bank, sent, ep, id, state, posted)
  {
    PickStep(items, i, kept);
  }

  /** A turn of set_order's loop whose item is skipped changes nothing. */
  lemma ProgressedSkip(items: seq<Json>, i: nat, kept: seq<Setting>, accepted: seq<Json>,
                       bank: Bank, sent: seq<Post>, ep: string, id: Json, state: Bank, posted: seq<Post>)
    requires i < |items| && Progressed(items, i, kept, None, accepted, bank, sent, ep, id, state, posted)
    requires Pick(items[i]) == Ok(None)
    ensures Progressed(items, i + 1, kept, None, accepted, bank, sent, ep, id, state, posted)
  {
    PickStep(items, i, kept);
  }

  /** A turn of set_order's loop that accepts a setting applies it, echoes it and posts one reading. */
  lemma ProgressedAccept(items: seq<Json>, i: nat, kept: seq<Setting>, accepted: seq<Json>,
                         bank: Bank, sent: seq<Post>, ep: string, id: Json, state: Bank, posted: seq<Post>, s: Setting)
    requires i < |items| && Progressed(items, i, kept, None, accepted, bank, sent, ep, id, state, posted)
    requires Pick(items[i]) == Ok(Some(s))
    ensures s.sensor in SensorNames
    ensures Progressed(items, i + 1, kept + [s], None, accepted + [Echo(s)], bank, sent, ep, id,
                       Apply(state, s), posted + [WorkPost(ep, id, s.sensor)])
  {
    PickStep(items, i, kept);
    AfterSnoc(bank, kept, s);
    EchoesSnoc(kept, s);
    ReadingsSnoc(sent, kept, s, ep, id);
    ApplyKeepsValid(state, s);
  }

  class Private {
    var info: OD.ODict<string, Json>
    var superiorEp: string
    const randomSensor: Sensor
    const zeroSensor: Sensor
    /** How many timers have been started, and which of them were cancelled. */
    var timersStarted: nat
    var cancelled: seq<nat>
    var outbox: seq<Post>

    function SensorNamed(name: string): Sensor {
      if name == "random" then randomSensor else zeroSensor
    }

    /** The sensors' periods and timers, as a value. */
    ghost function State(): Bank
      reads this`timersStarted, this`cancelled, randomSensor, zeroSensor
    {
      Bank(SensorState(randomSensor.interval, randomSensor.timer),
           SensorState(zeroSensor.interval, zeroSensor.timer), timersStarted, cancelled)
    }

    /** The two sensors are distinct objects and their timers are valid. */
    ghost predicate Valid()
      reads this`timersStarted, this`cancelled, randomSensor, zeroSensor
    {
      randomSensor != zeroSensor && BankValid(State())
    }

    /** The info keeps its id. */
    predicate HasId()
      reads this`info
    {
      "id" in OD.Keys(info)
    }

    /** A new private: an empty id, both sensors with period 0 and no timer. */
    constructor()
      ensures Valid() && HasId() && fresh(randomSensor) && fresh(zeroSensor)
      ensures info == [("id", JStr("")), ("name", JStr("pvt-http")), ("port", JNum(0.0))]
      ensures superiorEp == ""
      ensures randomSensor.interval == JNum(0.0) && randomSensor.timer == None
      ensures zeroSensor.interval == JNum(0.0) && zeroSensor.timer == None
      ensures timersStarted == 0 && cancelled == [] && outbox == []
    {
      info := [("id", JStr("")), ("name", JStr("pvt-http")), ("port", JNum(0.0))];
      superiorEp := "";
      randomSensor := new Sensor(JNum(0.0));
      zeroSensor := new Sensor(JNum(0.0));
      timersStarted := 0;
      cancelled := [];
      outbox := [];
      new;
      assert OD.Keys(info)[0] == "id";
    }

    /** `self.info['id']`. */
    function Id(): Json
      reads this`info
      requires HasId()
    {
      OD.Lookup(info, "id").value
    }

    /**
     * join: the superior's endpoint is addr:port; the info gains the sensor
     * names and is posted; the answer's 'id' becomes the private's id, and an
     * answer without one raises.
     */
    method Join(addr: string, port: string, answer: Json) returns (raised: Option<Exc>)
      requires HasId()
      modifies `superiorEp, `info, `outbox
      ensures HasId()
      ensures superiorEp == addr + ":" + port
      ensures var sent := OD.Put(old(info), "sensors", JArr([JStr("random"), JStr("zero")]));
              outbox == old(outbox) + [JoinPost("http://" + superiorEp + "/pvt/join", JObj(sent))]
              && (Field(answer, "id").Err? ==> raised == Some(Field(answer, "id").error) && info == sent)
              && (Field(answer, "id").Ok? ==> raised == None && info == OD.Put(sent, "id", Field(answer, "id").value))
    {
      var ep := addr + ":" + port;
      var sent := OD.Put(info, "sensors", JArr([JStr("random"), JStr("zero")]));
      var id := Field(answer, "id");
      superiorEp, outbox := ep, outbox + [JoinPost("http://" + ep + "/pvt/join", JObj(sent))];
      if id.Err? {
        info := sent;
        return Some(id.error);
      }
      info := OD.Put(sent, "id", id.value);
      return None;
    }

    /**
     * __working: the sensor's timer is cancelled and replaced by a new one
     * with its period, and a reading is posted at once.
     */
    method Working(name: string)
      requires Valid() && HasId() && name in SensorNames
      modifies `timersStarted, `cancelled, `outbox, SensorNamed(name)`timer
      ensures Valid()
      ensures State() == Apply(old(State()), Setting(name, SensorNamed(name).interval))
      ensures outbox == old(outbox) + [WorkPost(superiorEp, Id(), name)]
    {
      var sensor := SensorNamed(name);
      ApplyKeepsValid(State(), Setting(name, sensor.interval));
      var stopped := if sensor.timer.Some? then [sensor.timer.value.serial] else [];
      sensor.timer, timersStarted, cancelled, outbox :=
        Some(Timer(timersStarted, sensor.interval)), timersStarted + 1, cancelled + stopped,
        outbox + [WorkPost(superiorEp, Id(), name)];
    }

    /** One accepted item of an order: the sensor's period is set, then __working runs for it. */
    method Enact(s: Setting)
      requires Valid() && HasId() && s.sensor in SensorNames
      modifies `timersStarted, `cancelled, `outbox, randomSensor, zeroSensor
      ensures Valid()
      ensures State() == Apply(old(State()), s)
      ensures outbox == old(outbox) + [WorkPost(superiorEp, Id(), s.sensor)]
    {
      var sensor := SensorNamed(s.sensor);
      sensor.interval := s.interval;
      Working(s.sensor);
    }

    /**
     * set_order: for each item of the order naming a known sensor, in order,
     * the sensor's period is set and its timer replaced, a reading is posted,
     * and the item is answered as accepted; the loop stops at the first item
     * that raises, leaving what it did so far in place.
     */
    method SetOrder(order: Json) returns (accepted: seq<Json>, raised: Option<Exc>)
      requires Valid() && HasId()
      modifies `timersStarted, `cancelled, `outbox, randomSensor, zeroSensor
      ensures Valid()
      ensures var plan := Plan(order);
              accepted == Echoes(plan.kept) && raised == plan.raised
              && State() == After(old(State()), plan.kept)
              && outbox == old(outbox) + Readings(plan.kept, superiorEp, Id())
    {
      var iterated := Iterate(order);
      if iterated.Err? {
        return [], Some(iterated.error);
      }
      accepted, raised := Run(iterated.value);
    }

    /**
     * After the first i items, set_order's loop has accepted `kept` (what is
     * answered, the sensors' state and the readings posted all follow from
     * it) and has raised `raised`, if anything.
     */
    ghost predicate Progress(items: seq<Json>, i: nat, kept: seq<Setting>, raised: Option<Exc>, accepted: seq<Json>,
                             bank: Bank, sent: seq<Post>, ep: string, id: Json)
      reads this`timersStarted, this`cancelled, this`outbox, this`info, this`superiorEp, randomSensor, zeroSensor
    {
      Valid() && HasId() && ep == superiorEp && id == Id()
      && Progressed(items, i, kept, raised, accepted, bank, sent, ep, id, State(), outbox)
    }

    /** One turn of set_order's loop: the i-th item is picked and, when accepted, enacted. */
    method Turn(items: seq<Json>, i: nat, ghost kept: seq<Setting>, accepted: seq<Json>,
                ghost bank: Bank, ghost sent: seq<Post>, ghost ep: string, ghost id: Json)
      returns (accepted': seq<Json>, raised': Option<Exc>, ghost kept': seq<Setting>)
      requires i < |items| && Progress(items, i, kept, None, accepted, bank, sent, ep, id)
      modifies `timersStarted, `cancelled, `outbox, randomSensor, zeroSensor
      ensures Progress(items, i + 1, kept', raised', accepted', bank, sent, ep, id)
    {
      var pick := Pick(items[i]);
      accepted', raised', kept' := accepted, None, kept;
      if pick.Err? {
        ProgressedRaise(items, i, kept, accepted, bank, sent, ep, id, State(), outbox, pick.error);
        raised' := Some(pick.error);
      } else if pick.value.None? {
        ProgressedSkip(items, i, kept, accepted, bank, sent, ep, id, State(), outbox);
      } else {
        var s := pick.value.value;
        ProgressedAccept(items, i, kept, accepted, bank, sent, ep, id, State(), outbox, s);
        Enact(s);
        accepted', kept' := accepted + [Echo(s)], kept + [s];
      }
    }

    /** set_order's loop over the items of the order. */
    method Run(items: seq<Json>) returns (accepted: seq<Json>, raised: Option<Exc>)
      requires Valid() && HasId()
      modifies `timersStarted, `cancelled, `outbox, randomSensor, zeroSensor
      ensures Valid()
      ensures var scan := Scan(Pick, items);
              KnownSensors(scan.kept)
              && accepted == Echoes(scan.kept) && raised == scan.raised
              && State() == After(old(State()), scan.kept)
              && outbox == old(outbox) + Readings(scan.kept, superiorEp, Id())
    {
      ghost var bank, sent, ep, id := State(), outbox, superiorEp, Id();
      ghost var kept: seq<Setting> := [];
      accepted, raised := [], None;
      var i := 0;
      while i < |items| && raised.None?
        invariant Progress(items, i, kept, raised, accepted, bank, sent, ep, id)
      {
        accepted, raised, kept := Turn(items, i, kept, accepted, bank, sent, ep, id);
        i := i + 1;
      }
      if raised.Some? {
        ScanStops(Pick, items, i);
      } else {
        assert items[..i] == items;
      }
    }
  }

  /** The body of a successful PUT /order: success and the accepted items. */
  function AcceptedBody(accepted: seq<Json>): (j: Json)
    ensures Field(j, "result") == Ok(JStr("success")) && Field(j, "accepted") == Ok(JArr(accepted))
  {
    OD.LookupPair(("result", JStr("success")), ("accepted", JArr(accepted)));
    JObj([("result", JStr("success")), ("accepted", JArr(accepted))])
  }

  /**
   * PUT /order: a body get_dict rejects is answered as get_dict says;
   * otherwise the order is set, and an order that raises part-way is
   * answered as an internal error, with what it did so far left in place.
   */
  method OrderRoute(app: Private, req: Request) returns (resp: Response)
    requires app.Valid() && app.HasId()
    modifies app`timersStarted, app`cancelled, app`outbox, app.randomSensor, app.zeroSensor
    ensures app.Valid()
    ensures GetDict(req).Rejected? ==>
              resp == GetDict(req).resp && app.State() == old(app.State()) && app.outbox == old(app.outbox)
    ensures GetDict(req).Parsed? ==>
              var plan := Plan(GetDict(req).value);
              app.State() == After(old(app.State()), plan.kept)
              && app.outbox == old(app.outbox) + Readings(plan.kept, app.superiorEp, app.Id())
              && resp == (if plan.raised.Some? then InternalError else Reply(200, AcceptedBody(Echoes(plan.kept))))
  {
    var value := GetDict(req);
    if value.Rejected? {
      return value.resp;
    }
    var accepted, raised := app.SetOrder(value.value);
    if raised.Some? {
      return InternalError;
    }
    return Reply(200, AcceptedBody(accepted));
  }

  /** GET /info: get_dict is applied to the request even here; then success and the private's info. */
  function InfoRoute(app: Private, req: Request): (resp: Response)
    reads app
    ensures GetDict(req).Rejected? ==> resp == GetDict(req).resp
    ensures GetDict(req).Parsed? ==>
              resp.code == 200 && Field(resp.body, "result") == Ok(JStr("success"))
              && Field(resp.body, "info") == Ok(JObj(app.info))
  {
    match GetDict(req)
    case Rejected(r) => r
    case Parsed(_) =>
      OD.LookupPair(("result", JStr("success")), ("info", JObj(app.info)));
      Reply(200, JObj([("result", JStr("success")), ("info", JObj(app.info))]))
  }
}
