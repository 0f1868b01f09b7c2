/**
 * model/commander.py: a commander keeps its leaders in a dictionary keyed by
 * id, the campaigns it accepted and a cache of reports.  Accepting a campaign
 * for place "All" is meant to give every registered leader one mission
 * (ServeCampaign); as written, the author of each copy is assigned on the
 * namedtuple Mission, which refuses it, so the first registered leader
 * makes the campaign raise AttributeError (AcceptCampaign).
 */
module ModelCommander {
  import opened Wrappers
  import opened JsonValues
  import OD = OrderedDicts
  import Records
  import Registries

  /** An element of a leader's missions list: posted with the leader, or assigned here. */
  datatype MissionEntry = Posted(raw: Json) | Assigned(mission: Records.Mission)

  /**
   * The `missions` attribute of a stored leader.  The posted value need not
   * be a list; only a list has `append`.
   */
  datatype MissionList = Missions(entries: seq<MissionEntry>) | NotAList(value: Json)

  datatype LeaderInfo = LeaderInfo(
    id: Json, name: Json, endpoint: Json, subordinates: Json, missions: MissionList)

  datatype CommanderInfo = CommanderInfo(
    id: string, name: string, endpoint: string, subordinates: seq<Json>,
    campaigns: seq<Records.Campaign>)

  /** The leader a handler builds with `LeaderInfo(**body)`. */
  function FromPosted(info: Records.LeaderInfo): LeaderInfo {
    LeaderInfo(info.id, info.name, info.endpoint, info.subordinates,
               if info.missions.JArr?
               then Missions(seq(|info.missions.items|, i requires 0 <= i < |info.missions.items| =>
                                   Posted(info.missions.items[i])))
               else NotAList(info.missions))
  }

  type Registry = OD.ODict<Json, LeaderInfo>

  function IdOf(l: LeaderInfo): Json {
    l.id
  }

  /** Each leader is stored once, under its own hashable id. */
  predicate WellFormed(subs: Registry) {
    Registries.KeyedBy(subs, IdOf)
  }

  /**
   * The mission template of accept_campaign, built from the campaign's
   * requirements dictionary; a requirements value without "values" or
   * "trigger" raises before anything changes.
   */
  function BaseMission(c: Records.Campaign): (r: Result<Records.Mission, Exc>)
    ensures r.Ok? <==> Field(c.requirements, "values").Ok? && Field(c.requirements, "trigger").Ok?
    ensures r.Ok? ==>
              r.value.place == JStr("All") && r.value.destination == JStr("Superior")
              && r.value.purpose == c.purpose
              && r.value.requirements == Field(c.requirements, "values").value
              && r.value.trigger == Field(c.requirements, "trigger").value
    ensures r.Err? ==> r.error in {KeyError, TypeError}
  {
    var values :- Field(c.requirements, "values");
    var trigger :- Field(c.requirements, "trigger");
    Ok(Records.Mission(JStr(""), values, trigger, JStr("All"), c.purpose, JStr("Superior")))
  }

  /**
   * `mission.author = t_id` on a copy of the template: Mission is a
   * namedtuple, whose fields cannot be assigned, so the assignment raises
   * AttributeError whatever the author.
   */
  function SetAuthor(m: Records.Mission, author: Json): (r: Result<Records.Mission, Exc>)
    ensures r.Err? && r.error == AttributeError
  {
    Err(AttributeError)
  }

  /** A leader entry after receiving its copy of the template. */
  function WithMission(e: (Json, LeaderInfo), base: Records.Mission): (Json, LeaderInfo) {
    if e.1.missions.Missions?
    then (e.0, e.1.(missions := Missions(e.1.missions.entries + [Assigned(base.(author := e.0))])))
    else e
  }

  /** The registry after the first n leaders received their missions. */
  function AssignFirst(subs: Registry, base: Records.Mission, n: nat): Registry {
    seq(|subs|, j requires 0 <= j < |subs| => if j < n then WithMission(subs[j], base) else subs[j])
  }

  /** The position of the first leader whose missions value is not a list. */
  function FirstNotAList(subs: Registry): (n: nat)
    ensures n <= |subs|
    ensures forall j :: 0 <= j < n ==> subs[j].1.missions.Missions?
    ensures n < |subs| ==> subs[n].1.missions.NotAList?
  {
    if subs == [] then 0
    else if subs[0].1.missions.NotAList? then 0
    else 1 + FirstNotAList(subs[1..])
  }

  /** The leaders before n all have lists and leader n (if any) has none: n is the first without. */
  lemma {:induction false} FirstNotAListIs(subs: Registry, n: nat)
    requires n <= |subs|
    requires forall j :: 0 <= j < n ==> subs[j].1.missions.Missions?
    requires n < |subs| ==> subs[n].1.missions.NotAList?
    ensures FirstNotAList(subs) == n
  {
    if n > 0 {
      assert forall j :: 0 <= j < n - 1 ==> subs[1..][j] == subs[j + 1];
      FirstNotAListIs(subs[1..], n - 1);
    }
  }

  lemma AssignFirstKeeps(subs: Registry, base: Records.Mission, n: nat)
    requires WellFormed(subs)
    ensures OD.Keys(AssignFirst(subs, base, n)) == OD.Keys(subs)
    ensures WellFormed(AssignFirst(subs, base, n))
  {
    assert OD.Keys(AssignFirst(subs, base, n)) == OD.Keys(subs);
  }

  /**
   * When every leader's missions value is a list, the fan-out gives each
   * registered leader exactly one new mission, authored with its own id,
   * and changes nothing else.
   */
  lemma {:induction false} EveryLeaderGetsOneMission(subs: Registry, base: Records.Mission, k: Json)
    requires WellFormed(subs) && FirstNotAList(subs) == |subs|
    requires OD.Lookup(subs, k).Some?
    ensures var before := OD.Lookup(subs, k).value;
            before.missions.Missions?
            && OD.Lookup(AssignFirst(subs, base, |subs|), k) ==
                 Some(before.(missions := Missions(before.missions.entries + [Assigned(base.(author := k))])))
  {
    var i :| 0 <= i < |subs| && OD.Keys(subs)[i] == k;
    OD.LookupAt(subs, i);
    AssignFirstKeeps(subs, base, |subs|);
    OD.LookupAt(AssignFirst(subs, base, |subs|), i);
  }

  /**
   * Serving a campaign as intended changes the registry as soon as one
   * leader is registered, whereas accept_campaign as written leaves it as it
   * was: the first leader's missions list grows by one.
   */
  lemma ServingChangesRegistry(subs: Registry, base: Records.Mission)
    requires WellFormed(subs) && FirstNotAList(subs) == |subs| && subs != []
    ensures AssignFirst(subs, base, |subs|) != subs
    ensures |AssignFirst(subs, base, |subs|)[0].1.missions.entries| == |subs[0].1.missions.entries| + 1
  {
    assert subs[0].1.missions.Missions?;
    assert AssignFirst(subs, base, |subs|)[0] == WithMission(subs[0], base);
  }

  /** Serving leader i extends the served prefix by one. */
  lemma AssignStep(subs: Registry, base: Records.Mission, i: nat)
    requires i < |subs|
    ensures AssignFirst(subs, base, i)[i := WithMission(subs[i], base)] == AssignFirst(subs, base, i + 1)
  {
  }

  /**
   * At leader i of the fan-out: the registry still holds that leader's
   * original entry, and storing its copy of the template serves it.
   */
  lemma ServeNext(subs: Registry, base: Records.Mission, i: nat)
    requires WellFormed(subs) && i < |subs|
    ensures WellFormed(AssignFirst(subs, base, i))
    ensures OD.Lookup(AssignFirst(subs, base, i), subs[i].0) == Some(subs[i].1)
    ensures subs[i].1.missions.Missions? ==>
              var info := subs[i].1;
              OD.Put(AssignFirst(subs, base, i), subs[i].0,
                     info.(missions := Missions(info.missions.entries + [Assigned(base.(author := subs[i].0))])))
              == AssignFirst(subs, base, i + 1)
  {
    var served := AssignFirst(subs, base, i);
    AssignFirstKeeps(subs, base, i);
    OD.LookupAt(served, i);
    assert served[i] == subs[i];
    if subs[i].1.missions.Missions? {
      var info := subs[i].1;
      var updated := info.(missions := Missions(info.missions.entries + [Assigned(base.(author := subs[i].0))]));
      assert (subs[i].0, updated) == WithMission(subs[i], base);
      OD.PutExisting(served, i, updated);
      AssignStep(subs, base, i);
    }
  }

  class Commander {
    var id: string
    var name: string
    var endpoint: string
    var subordinates: Registry
    var campaigns: seq<Records.Campaign>
    var reportCache: seq<Records.Report>

    ghost predicate Valid()
      reads this
    {
      WellFormed(subordinates)
    }

    constructor(comId: string, name: string, endpoint: string)
      ensures Valid()
      ensures this.id == comId && this.name == name && this.endpoint == endpoint
      ensures subordinates == [] && campaigns == [] && reportCache == []
    {
      this.id := comId;
      this.name := name;
      this.endpoint := endpoint;
      subordinates := [];
      campaigns := [];
      reportCache := [];
    }

    /** generate_info: the ids of the registered leaders, in join order, and the campaigns. */
    function GenerateInfo(): (info: CommanderInfo)
      reads this
      ensures info.subordinates == OD.Keys(subordinates) && info.campaigns == campaigns
      ensures info.id == id && info.name == name && info.endpoint == endpoint
    {
      CommanderInfo(id, name, endpoint, OD.Keys(subordinates), campaigns)
    }

    /** check_subordinate: membership of the id; an unhashable id raises TypeError. */
    function CheckSubordinate(subId: Json): (r: Result<bool, Exc>)
      reads this
      ensures r.Ok? <==> Hashable(subId)
      ensures r.Ok? ==> (r.value <==> subId in OD.Keys(subordinates))
      ensures r.Err? ==> r.error == TypeError
    {
      Registries.Contains(subordinates, subId)
    }

    /** get_sub_info: the stored leader; an unknown id raises KeyError. */
    function GetSubInfo(subId: Json): (r: Result<LeaderInfo, Exc>)
      reads this
      requires Valid()
      ensures r.Ok? <==> Hashable(subId) && subId in OD.Keys(subordinates)
      ensures r.Ok? ==> r.value.id == subId && OD.Lookup(subordinates, subId) == Some(r.value)
      ensures !Hashable(subId) ==> r == Err(TypeError)
      ensures Hashable(subId) && subId !in OD.Keys(subordinates) ==> r == Err(KeyError)
    {
      var r := Registries.Index(subordinates, subId);
      if r.Ok? then Registries.IndexCarriesId(subordinates, IdOf, subId); r else r
    }

    /**
     * accept_subordinate: a new id is stored and the record returned; a
     * registered id gives None and changes nothing.
     */
    method AcceptSubordinate(info: LeaderInfo) returns (r: Result<Option<LeaderInfo>, Exc>)
      requires Valid()
      modifies this
      ensures Valid()
      ensures !Hashable(info.id) ==> r == Err(TypeError) && subordinates == old(subordinates)
      ensures Hashable(info.id) && info.id in OD.Keys(old(subordinates)) ==>
                r == Ok(None) && subordinates == old(subordinates)
      ensures Hashable(info.id) && info.id !in OD.Keys(old(subordinates)) ==>
                r == Ok(Some(info)) && subordinates == old(subordinates) + [(info.id, info)]
                && GenerateInfo().subordinates == old(GenerateInfo().subordinates) + [info.id]
                && OD.Lookup(subordinates, info.id) == Some(info)
      ensures campaigns == old(campaigns) && reportCache == old(reportCache)
      ensures id == old(id) && name == old(name) && endpoint == old(endpoint)
    {
      var registered := CheckSubordinate(info.id);
      if registered.Err? {
        return Err(registered.error);
      }
      if registered.value {
        return Ok(None);
      }
      Registries.JoinKeeps(subordinates, IdOf, info);
      subordinates := OD.Put(subordinates, info.id, info);
      return Ok(Some(info));
    }

    /**
     * accept_campaign, as written: a template that cannot be built raises
     * first; a campaign for place "All" with a registered leader raises
     * AttributeError at the first leader's copy, before any leader is served
     * and before the campaign is kept; otherwise the campaign is appended and
     * returned.
     */
    method AcceptCampaign(c: Records.Campaign) returns (r: Result<Records.Campaign, Exc>)
      requires Valid()
      modifies `campaigns
      ensures Valid() && subordinates == old(subordinates)
      ensures BaseMission(c).Err? ==> r == Err(BaseMission(c).error) && campaigns == old(campaigns)
      ensures BaseMission(c).Ok? && c.place == JStr("All") && subordinates != [] ==>
                r == Err(AttributeError) && campaigns == old(campaigns)
      ensures BaseMission(c).Ok? && (c.place != JStr("All") || subordinates == []) ==>
                r == Ok(c) && campaigns == old(campaigns) + [c]
    {
      var base := BaseMission(c);
      if base.Err? {
        return Err(base.error);
      }
      var targets := if c.place == JStr("All") then OD.Keys(subordinates) else [];
      if targets != [] {
        var authored := SetAuthor(base.value, targets[0]);
        return Err(authored.error);
      }
      campaigns := campaigns + [c];
      return Ok(c);
    }

    /**
     * accept_campaign as evidently intended, with each copy authored by
     * building a new Mission: for place "All" each registered leader, in join
     * order, receives a copy of the template authored with its id; a leader
     * whose missions value is not a list raises AttributeError there, after
     * the earlier leaders were served.  The campaign is appended and returned.
     */
    method ServeCampaign(c: Records.Campaign) returns (r: Result<Records.Campaign, Exc>)
      requires Valid()
      modifies this
      ensures Valid()
      ensures BaseMission(c).Err? ==>
                r == Err(BaseMission(c).error)
                && subordinates == old(subordinates) && campaigns == old(campaigns)
      ensures BaseMission(c).Ok? && c.place != JStr("All") ==>
                r == Ok(c) && subordinates == old(subordinates) && campaigns == old(campaigns) + [c]
      ensures BaseMission(c).Ok? && c.place == JStr("All") ==>
                var stop := FirstNotAList(old(subordinates));
                subordinates == AssignFirst(old(subordinates), BaseMission(c).value, stop)
                && (r.Ok? <==> stop == |old(subordinates)|)
                && (r.Ok? ==> r.value == c && campaigns == old(campaigns) + [c])
                && (r.Err? ==> r.error == AttributeError && campaigns == old(campaigns))
      ensures reportCache == old(reportCache)
      ensures id == old(id) && name == old(name) && endpoint == old(endpoint)
    {
      var base := BaseMission(c);
      if base.Err? {
        return Err(base.error);
      }
      if c.place == JStr("All") {
        var stop := GiveMissions(base.value);
        if stop < |subordinates| {
          return Err(AttributeError);
        }
      }
      campaigns := campaigns + [c];
      return Ok(c);
    }

    /**
     * The fan-out loop of accept_campaign as intended: the leaders, in join order, each
     * get their copy of the template until one has no missions list; the
     * position where it stopped.
     */
    method GiveMissions(base: Records.Mission) returns (stop: nat)
      requires Valid()
      modifies `subordinates
      ensures Valid()
      ensures stop == FirstNotAList(old(subordinates)) && |subordinates| == |old(subordinates)|
      ensures subordinates == AssignFirst(old(subordinates), base, stop)
    {
      var targets := OD.Keys(subordinates);
      ghost var before := subordinates;
      var i := 0;
      while i < |targets|
        invariant 0 <= i <= |targets| == |before|
        invariant targets == OD.Keys(before)
        invariant subordinates == AssignFirst(before, base, i)
        invariant forall j :: 0 <= j < i ==> before[j].1.missions.Missions?
      {
        var tId := targets[i];
        ServeNext(before, base, i);
        var info := OD.Lookup(subordinates, tId).value;
        if info.missions.NotAList? {
          FirstNotAListIs(before, i);
          return i;
        }
        var updated := info.(missions := Missions(info.missions.entries + [Assigned(base.(author := tId))]));
        subordinates := OD.Put(subordinates, tId, updated);
        i := i + 1;
      }
      AssignFirstKeeps(before, base, i);
      FirstNotAListIs(before, i);
      return i;
    }

    /**
     * accept_report, as written: a registered id returns False and caches
     * nothing, an unregistered id has its report cached and returns True.
     */
    method AcceptReport(subId: Json, report: Records.Report) returns (r: Result<bool, Exc>)
      modifies this
      ensures !Hashable(subId) ==> r == Err(TypeError) && reportCache == old(reportCache)
      ensures Hashable(subId) && subId in OD.Keys(subordinates) ==>
                r == Ok(false) && reportCache == old(reportCache)
      ensures Hashable(subId) && subId !in OD.Keys(subordinates) ==>
                r == Ok(true) && reportCache == old(reportCache) + [report]
      ensures subordinates == old(subordinates) && campaigns == old(campaigns)
      ensures id == old(id) && name == old(name) && endpoint == old(endpoint)
    {
      var registered := CheckSubordinate(subId);
      if registered.Err? {
        return Err(registered.error);
      }
      if registered.value {
        return Ok(false);
      }
      reportCache := reportCache + [report];
      return Ok(true);
    }
  }
}
