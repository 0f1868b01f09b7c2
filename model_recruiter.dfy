/**
 * model/recruiter.py: the recruiter holds the org chart read from its
 * configuration file: TroopList maps each commander id to its leaders' ids,
 * SquadList each leader id to its soldiers' ids.  The file reading is not
 * modelled; the configured troops and squads, in file order, are inputs.
 * Configured ids are strings.
 */
module ModelRecruiter {
  import opened Wrappers
  import opened JsonValues
  import OD = OrderedDicts
  import ActorInfo
  import OrgCharts

  /** A configured unit: the superior's id and its subordinates' ids as read. */
  type Unit = (string, Json)

  class Recruiter {
    var squadList: OD.ODict<string, Json>
    var troopList: OD.ODict<string, Json>
    var leaderCache: OD.ODict<string, ActorInfo.LeaderInfo>
    var commanderCache: OD.ODict<string, ActorInfo.CommanderInfo>

    ghost predicate Valid()
      reads this
    {
      OD.Valid(squadList) && OD.Valid(troopList) && OD.Valid(leaderCache) && OD.Valid(commanderCache)
    }

    /** The recruiter starts from empty tables and caches, then loads the configuration. */
    constructor(troops: seq<Unit>, squads: seq<Unit>)
      ensures Valid()
      ensures troopList == OD.PutAll([], troops) && squadList == OD.PutAll([], squads)
      ensures leaderCache == [] && commanderCache == []
    {
      squadList := [];
      troopList := [];
      leaderCache := [];
      commanderCache := [];
      new;
      LoadConfig(troops, squads);
    }

    /**
     * load_config: each troop's subordinates stored under its commander id,
     * then each squad's under its leader id, in file order; a repeated id
     * replaces the earlier entry in place.
     */
    method LoadConfig(troops: seq<Unit>, squads: seq<Unit>)
      requires Valid()
      modifies this
      ensures Valid()
      ensures troopList == OD.PutAll(old(troopList), troops)
      ensures squadList == OD.PutAll(old(squadList), squads)
      ensures leaderCache == old(leaderCache) && commanderCache == old(commanderCache)
    {
      troopList := LoadTable(troopList, troops);
      squadList := LoadTable(squadList, squads);
    }

    /**
     * get_squad_leader: the first leader, in SquadList order, whose
     * soldiers include the id; None when none does.
     */
    function GetSquadLeader(soldierId: Json): (r: Result<Option<string>, Exc>)
      reads this
      ensures r == OrgCharts.FirstListing(squadList, soldierId)
    {
      OrgCharts.FirstListing(squadList, soldierId)
    }

    /**
     * get_troop_commander: the first commander, in TroopList order, whose
     * leaders include the id; None when none does.
     */
    function GetTroopCommander(leaderId: Json): (r: Result<Option<string>, Exc>)
      reads this
      ensures r == OrgCharts.FirstListing(troopList, leaderId)
    {
      OrgCharts.FirstListing(troopList, leaderId)
    }

    /** resolve_commander: the cached record, None when the id is not cached. */
    function ResolveCommander(commanderId: string): (r: Option<ActorInfo.CommanderInfo>)
      reads this
      requires Valid()
      ensures r.None? <==> commanderId !in OD.Keys(commanderCache)
      ensures r.Some? ==> exists i :: 0 <= i < |commanderCache| && commanderCache[i] == (commanderId, r.value)
    {
      var r := OD.Lookup(commanderCache, commanderId);
      if r.Some? then
        var i :| 0 <= i < |commanderCache| && OD.Keys(commanderCache)[i] == commanderId;
        OD.LookupAt(commanderCache, i);
        r
      else r
    }
  }

  /** One loop of load_config: each unit's subordinates stored under its superior's id, in order. */
  method LoadTable(table: OD.ODict<string, Json>, units: seq<Unit>) returns (r: OD.ODict<string, Json>)
    requires OD.Valid(table)
    ensures r == OD.PutAll(table, units) && OD.Valid(r)
  {
    r := table;
    var i := 0;
    while i < |units|
      invariant 0 <= i <= |units|
      invariant r == OD.PutAll(table, units[..i]) && OD.Valid(r)
    {
      OD.PutAllStep(table, units, i);
      r := OD.Put(r, units[i].0, units[i].1);
      i := i + 1;
    }
    assert units[..i] == units;
  }

  /**
   * After loading, a configured commander's entry holds the subordinates of
   * its last occurrence in the file, and an id not configured has no entry.
   */
  lemma LoadedTroopEntry(troops: seq<Unit>, comId: string)
    ensures OD.Lookup(OD.PutAll([], troops), comId) == OD.LastValue(troops, comId)
  {
    OD.PutAllLookup([], troops, comId);
  }

  /** A commander configured once holds exactly the subordinates given for it. */
  lemma {:induction false} SingleTroopEntry(troops: seq<Unit>, i: nat)
    requires i < |troops|
    requires forall j :: 0 <= j < |troops| && j != i ==> troops[j].0 != troops[i].0
    ensures OD.Lookup(OD.PutAll([], troops), troops[i].0) == Some(troops[i].1)
  {
    OD.PutAllLookup([], troops, troops[i].0);
    LastValueOfUnique(troops, i);
  }

  lemma {:induction false} LastValueOfUnique(ps: seq<Unit>, i: nat)
    requires i < |ps|
    requires forall j :: 0 <= j < |ps| && j != i ==> ps[j].0 != ps[i].0
    ensures OD.LastValue(ps, ps[i].0) == Some(ps[i].1)
    decreases |ps|
  {
    if i < |ps| - 1 {
      LastValueOfUnique(ps[..|ps| - 1], i);
    }
  }
}
