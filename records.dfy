/**
 * The record shapes that troops/common.py (and troops/objects.py) declare as
 * namedtuples, and the keyword constructor `Cls(**value)` that the REST
 * handlers apply to a request body: the body must be a dictionary with
 * exactly the record's field names, otherwise the call raises TypeError.
 */
module Records {
  import opened Wrappers
  import opened JsonValues
  import OD = OrderedDicts

  datatype Campaign = Campaign(
    author: Json, requirements: Json, trigger: Json, place: Json, purpose: Json, destination: Json)

  datatype Mission = Mission(
    author: Json, requirements: Json, trigger: Json, place: Json, purpose: Json, destination: Json)

  datatype Report = Report(time: Json, purpose: Json, values: Json)

  /** Work has the single field `value`, unlike Report's `values`. */
  datatype Work = Work(time: Json, purpose: Json, value: Json)

  datatype SoldierInfo = SoldierInfo(id: Json, name: Json, endpoint: Json, weapons: Json, orders: Json)

  datatype LeaderInfo = LeaderInfo(id: Json, name: Json, endpoint: Json, subordinates: Json, missions: Json)

  datatype CommanderInfo = CommanderInfo(
    id: Json, name: Json, endpoint: Json, subordinates: Json, campaigns: Json)

  function Get(v: Json, k: string): Json
    requires Field(v, k).Ok?
  {
    Field(v, k).value
  }

  /** Every name of a keyword set is a key of the dictionary. */
  lemma KeywordsPresent(v: Json, names: set<string>, k: string)
    requires KeywordsExactly(v, names) && k in names
    ensures Field(v, k).Ok?
  {
    var i :| 0 <= i < |v.fields| && v.fields[i].0 == k;
    assert k == OD.Keys(v.fields)[i];
  }

  function CampaignOf(v: Json): (r: Result<Campaign, Exc>)
    ensures r.Ok? <==>
              KeywordsExactly(v, {"author", "requirements", "trigger", "place", "purpose", "destination"})
    ensures r.Ok? ==>
              r.value == Campaign(Get(v, "author"), Get(v, "requirements"), Get(v, "trigger"),
                                  Get(v, "place"), Get(v, "purpose"), Get(v, "destination"))
    ensures r.Err? ==> r.error == TypeError
  {
    var names := {"author", "requirements", "trigger", "place", "purpose", "destination"};
    if !KeywordsExactly(v, names) then Err(TypeError)
    else
      KeywordsPresent(v, names, "author");
      KeywordsPresent(v, names, "requirements");
      KeywordsPresent(v, names, "trigger");
      KeywordsPresent(v, names, "place");
      KeywordsPresent(v, names, "purpose");
      KeywordsPresent(v, names, "destination");
      Ok(Campaign(Get(v, "author"), Get(v, "requirements"), Get(v, "trigger"),
                  Get(v, "place"), Get(v, "purpose"), Get(v, "destination")))
  }

  function MissionOf(v: Json): (r: Result<Mission, Exc>)
    ensures r.Ok? <==>
              KeywordsExactly(v, {"author", "requirements", "trigger", "place", "purpose", "destination"})
    ensures r.Ok? ==>
              r.value == Mission(Get(v, "author"), Get(v, "requirements"), Get(v, "trigger"),
                                 Get(v, "place"), Get(v, "purpose"), Get(v, "destination"))
    ensures r.Err? ==> r.error == TypeError
  {
    var names := {"author", "requirements", "trigger", "place", "purpose", "destination"};
    if !KeywordsExactly(v, names) then Err(TypeError)
    else
      KeywordsPresent(v, names, "author");
      KeywordsPresent(v, names, "requirements");
      KeywordsPresent(v, names, "trigger");
      KeywordsPresent(v, names, "place");
      KeywordsPresent(v, names, "purpose");
      KeywordsPresent(v, names, "destination");
      Ok(Mission(Get(v, "author"), Get(v, "requirements"), Get(v, "trigger"),
                 Get(v, "place"), Get(v, "purpose"), Get(v, "destination")))
  }

  function ReportOf(v: Json): (r: Result<Report, Exc>)
    ensures r.Ok? <==> KeywordsExactly(v, {"time", "purpose", "values"})
    ensures r.Ok? ==> r.value == Report(Get(v, "time"), Get(v, "purpose"), Get(v, "values"))
    ensures r.Err? ==> r.error == TypeError
  {
    var names := {"time", "purpose", "values"};
    if !KeywordsExactly(v, names) then Err(TypeError)
    else
      KeywordsPresent(v, names, "time");
      KeywordsPresent(v, names, "purpose");
      KeywordsPresent(v, names, "values");
      Ok(Report(Get(v, "time"), Get(v, "purpose"), Get(v, "values")))
  }

  function WorkOf(v: Json): (r: Result<Work, Exc>)
    ensures r.Ok? <==> KeywordsExactly(v, {"time", "purpose", "value"})
    ensures r.Ok? ==> r.value == Work(Get(v, "time"), Get(v, "purpose"), Get(v, "value"))
    ensures r.Err? ==> r.error == TypeError
  {
    var names := {"time", "purpose", "value"};
    if !KeywordsExactly(v, names) then Err(TypeError)
    else
      KeywordsPresent(v, names, "time");
      KeywordsPresent(v, names, "purpose");
      KeywordsPresent(v, names, "value");
      Ok(Work(Get(v, "time"), Get(v, "purpose"), Get(v, "value")))
  }

  function LeaderInfoOf(v: Json): (r: Result<LeaderInfo, Exc>)
    ensures r.Ok? <==> KeywordsExactly(v, {"id", "name", "endpoint", "subordinates", "missions"})
    ensures r.Ok? ==>
              r.value == LeaderInfo(Get(v, "id"), Get(v, "name"), Get(v, "endpoint"),
                                    Get(v, "subordinates"), Get(v, "missions"))
    ensures r.Err? ==> r.error == TypeError
  {
    var names := {"id", "name", "endpoint", "subordinates", "missions"};
    if !KeywordsExactly(v, names) then Err(TypeError)
    else
      KeywordsPresent(v, names, "id");
      KeywordsPresent(v, names, "name");
      KeywordsPresent(v, names, "endpoint");
      KeywordsPresent(v, names, "subordinates");
      KeywordsPresent(v, names, "missions");
      Ok(LeaderInfo(Get(v, "id"), Get(v, "name"), Get(v, "endpoint"),
                    Get(v, "subordinates"), Get(v, "missions")))
  }

  function SoldierInfoOf(v: Json): (r: Result<SoldierInfo, Exc>)
    ensures r.Ok? <==> KeywordsExactly(v, {"id", "name", "endpoint", "weapons", "orders"})
    ensures r.Ok? ==>
              r.value == SoldierInfo(Get(v, "id"), Get(v, "name"), Get(v, "endpoint"),
                                     Get(v, "weapons"), Get(v, "orders"))
    ensures r.Err? ==> r.error == TypeError
  {
    var names := {"id", "name", "endpoint", "weapons", "orders"};
    if !KeywordsExactly(v, names) then Err(TypeError)
    else
      KeywordsPresent(v, names, "id");
      KeywordsPresent(v, names, "name");
      KeywordsPresent(v, names, "endpoint");
      KeywordsPresent(v, names, "weapons");
      KeywordsPresent(v, names, "orders");
      Ok(SoldierInfo(Get(v, "id"), Get(v, "name"), Get(v, "endpoint"),
                     Get(v, "weapons"), Get(v, "orders")))
  }

  function CommanderInfoOf(v: Json): (r: Result<CommanderInfo, Exc>)
    ensures r.Ok? <==> KeywordsExactly(v, {"id", "name", "endpoint", "subordinates", "campaigns"})
    ensures r.Ok? ==>
              r.value == CommanderInfo(Get(v, "id"), Get(v, "name"), Get(v, "endpoint"),
                                       Get(v, "subordinates"), Get(v, "campaigns"))
    ensures r.Err? ==> r.error == TypeError
  {
    var names := {"id", "name", "endpoint", "subordinates", "campaigns"};
    if !KeywordsExactly(v, names) then Err(TypeError)
    else
      KeywordsPresent(v, names, "id");
      KeywordsPresent(v, names, "name");
      KeywordsPresent(v, names, "endpoint");
      KeywordsPresent(v, names, "subordinates");
      KeywordsPresent(v, names, "campaigns");
      Ok(CommanderInfo(Get(v, "id"), Get(v, "name"), Get(v, "endpoint"),
                       Get(v, "subordinates"), Get(v, "campaigns")))
  }
}
