/**
 * model/leader.py: a leader keeps its soldiers in a dictionary keyed by id,
 * the missions it accepted and a cache of works.
 */
module ModelLeader {
  import opened Wrappers
  import opened JsonValues
  import OD = OrderedDicts
  import JobInfo
  import ActorInfo
  import Registries

  datatype LeaderInfo = LeaderInfo(
    id: string, name: string, endpoint: string, subordinates: seq<Json>,
    missions: seq<JobInfo.Mission>)

  type Registry = OD.ODict<Json, ActorInfo.SoldierInfo>

  function IdOf(s: ActorInfo.SoldierInfo): Json {
    s.id
  }

  class Leader {
    var id: string
    var name: string
    var endpoint: string
    var subordinates: Registry
    var missions: seq<JobInfo.Mission>
    var workCache: seq<JobInfo.Work>

    ghost predicate Valid()
      reads this
    {
      Registries.KeyedBy(subordinates, IdOf)
    }

    constructor(leaderId: string, name: string, endpoint: string)
      ensures Valid()
      ensures this.id == leaderId && this.name == name && this.endpoint == endpoint
      ensures subordinates == [] && missions == [] && workCache == []
    {
      this.id := leaderId;
      this.name := name;
      this.endpoint := endpoint;
      subordinates := [];
      missions := [];
      workCache := [];
    }

    /** generate_info: the ids of the soldiers, in join order, and the missions. */
    function GenerateInfo(): (info: LeaderInfo)
      reads this
      ensures info.subordinates == OD.Keys(subordinates) && info.missions == missions
      ensures info.id == id && info.name == name && info.endpoint == endpoint
    {
      LeaderInfo(id, name, endpoint, OD.Keys(subordinates), missions)
    }

    /** check_subordinate: membership of the id; an unhashable id raises TypeError. */
    function CheckSubordinate(subId: Json): (r: Result<bool, Exc>)
      reads this
      ensures r.Ok? <==> Hashable(subId)
      ensures r.Ok? ==> (r.value <==> subId in OD.Keys(subordinates))
    {
      Registries.Contains(subordinates, subId)
    }

    /** get_sub_info: the stored soldier; an unknown id raises KeyError. */
    function GetSubInfo(subId: Json): (r: Result<ActorInfo.SoldierInfo, Exc>)
      reads this
      requires Valid()
      ensures r.Ok? <==> Hashable(subId) && subId in OD.Keys(subordinates)
      ensures r.Ok? ==> r.value.id == subId && OD.Lookup(subordinates, subId) == Some(r.value)
      ensures Hashable(subId) && subId !in OD.Keys(subordinates) ==> r == Err(KeyError)
    {
      var r := Registries.Index(subordinates, subId);
      if r.Ok? then Registries.IndexCarriesId(subordinates, IdOf, subId); r else r
    }

    /** accept_mission: the mission is appended and returned. */
    method AcceptMission(mission: JobInfo.Mission) returns (r: JobInfo.Mission)
      modifies this
      ensures r == mission && missions == old(missions) + [mission]
      ensures subordinates == old(subordinates) && workCache == old(workCache)
      ensures id == old(id) && name == old(name) && endpoint == old(endpoint)
    {
      missions := missions + [mission];
      return mission;
    }

    /**
     * accept_subordinate: a new id is stored and True returned; a registered
     * id gives False and changes nothing.
     */
    method AcceptSubordinate(info: ActorInfo.SoldierInfo) returns (r: Result<bool, Exc>)
      requires Valid()
      modifies this
      ensures Valid()
      ensures !Hashable(info.id) ==> r == Err(TypeError) && subordinates == old(subordinates)
      ensures Hashable(info.id) && info.id in OD.Keys(old(subordinates)) ==>
                r == Ok(false) && subordinates == old(subordinates)
      ensures Hashable(info.id) && info.id !in OD.Keys(old(subordinates)) ==>
                r == Ok(true) && subordinates == old(subordinates) + [(info.id, info)]
                && GenerateInfo().subordinates == old(GenerateInfo().subordinates) + [info.id]
      ensures missions == old(missions) && workCache == old(workCache)
      ensures id == old(id) && name == old(name) && endpoint == old(endpoint)
    {
      var registered := CheckSubordinate(info.id);
      if registered.Err? {
        return Err(registered.error);
      }
      if registered.value {
        return Ok(false);
      }
      Registries.JoinKeeps(subordinates, IdOf, info);
      subordinates := OD.Put(subordinates, info.id, info);
      return Ok(true);
    }

    /**
     * accept_work, as written: a registered id returns False and caches
     * nothing, an unregistered id has its work cached and returns True.
     */
    method AcceptWork(subId: Json, work: JobInfo.Work) returns (r: Result<bool, Exc>)
      modifies this
      ensures !Hashable(subId) ==> r == Err(TypeError) && workCache == old(workCache)
      ensures Hashable(subId) && subId in OD.Keys(subordinates) ==>
                r == Ok(false) && workCache == old(workCache)
      ensures Hashable(subId) && subId !in OD.Keys(subordinates) ==>
                r == Ok(true) && workCache == old(workCache) + [work]
      ensures subordinates == old(subordinates) && missions == old(missions)
      ensures id == old(id) && name == old(name) && endpoint == old(endpoint)
    {
      var registered := CheckSubordinate(subId);
      if registered.Err? {
        return Err(registered.error);
      }
      if registered.value {
        return Ok(false);
      }
      workCache := workCache + [work];
      return Ok(true);
    }
  }
}
