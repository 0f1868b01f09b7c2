/**
 * The job records of model/job_info.py and their `make` parsers.  Each parser
 * reads its keys from a decoded JSON value; a missing key (KeyError) is
 * turned into TypeError, and a value that is not a dictionary raises
 * TypeError by itself, so every failure is a TypeError.
 */
module JobInfo {
  import opened Wrappers
  import opened JsonValues

  datatype Requirement = Requirement(values: Json, trigger: Json)

  datatype Campaign = Campaign(
    author: Json, requirement: Requirement, trigger: Json,
    place: Json, purpose: Json, destination: Json)

  datatype Mission = Mission(
    author: Json, requirement: Requirement, trigger: Json, place: Json, purpose: Json)

  datatype Order = Order(author: Json, values: Json, trigger: Json, purpose: Json)

  datatype Report = Report(time: Json, purpose: Json, values: Json)

  datatype Work = Work(time: Json, purpose: Json, values: Json)

  /** The source is a dictionary holding the key. */
  predicate Has(source: Json, k: string) {
    Field(source, k).Ok?
  }

  /** `source[k]` inside a `make`, where a KeyError becomes TypeError. */
  function Arg(source: Json, k: string): (r: Result<Json, Exc>)
    ensures r.Ok? <==> Field(source, k).Ok?
    ensures r.Ok? ==> r.value == Field(source, k).value
    ensures r.Err? ==> r.error == TypeError
  {
    match Field(source, k)
    case Ok(v) => Ok(v)
    case Err(_) => Err(TypeError)
  }

  /** The value under a key the caller knows is present. */
  function Get(source: Json, k: string): Json
    requires Field(source, k).Ok?
  {
    Field(source, k).value
  }

  function RequirementMake(source: Json): (r: Result<Requirement, Exc>)
    ensures r.Ok? <==> Has(source, "values") && Has(source, "trigger")
    ensures r.Ok? ==> r.value == Requirement(Get(source, "values"), Get(source, "trigger"))
    ensures r.Err? ==> r.error == TypeError
  {
    var values :- Arg(source, "values");
    var trigger :- Arg(source, "trigger");
    Ok(Requirement(values, trigger))
  }

  function CampaignMake(source: Json): (r: Result<Campaign, Exc>)
    ensures r.Ok? <==>
              Has(source, "author") && Has(source, "requirement") && Has(source, "trigger")
              && Has(source, "place") && Has(source, "purpose") && Has(source, "destination")
              && RequirementMake(Get(source, "requirement")).Ok?
    ensures r.Ok? ==>
              r.value == Campaign(
                Get(source, "author"), RequirementMake(Get(source, "requirement")).value,
                Get(source, "trigger"), Get(source, "place"), Get(source, "purpose"),
                Get(source, "destination"))
    ensures r.Err? ==> r.error == TypeError
  {
    var author :- Arg(source, "author");
    var requirementSource :- Arg(source, "requirement");
    var requirement :- RequirementMake(requirementSource);
    var trigger :- Arg(source, "trigger");
    var place :- Arg(source, "place");
    var purpose :- Arg(source, "purpose");
    var destination :- Arg(source, "destination");
    Ok(Campaign(author, requirement, trigger, place, purpose, destination))
  }

  function MissionMake(source: Json): (r: Result<Mission, Exc>)
    ensures r.Ok? <==>
              Has(source, "author") && Has(source, "requirement") && Has(source, "trigger")
              && Has(source, "place") && Has(source, "purpose")
              && RequirementMake(Get(source, "requirement")).Ok?
    ensures r.Ok? ==>
              r.value == Mission(
                Get(source, "author"), RequirementMake(Get(source, "requirement")).value,
                Get(source, "trigger"), Get(source, "place"), Get(source, "purpose"))
    ensures r.Err? ==> r.error == TypeError
  {
    var author :- Arg(source, "author");
    var requirementSource :- Arg(source, "requirement");
    var requirement :- RequirementMake(requirementSource);
    var trigger :- Arg(source, "trigger");
    var place :- Arg(source, "place");
    var purpose :- Arg(source, "purpose");
    Ok(Mission(author, requirement, trigger, place, purpose))
  }

  function OrderMake(source: Json): (r: Result<Order, Exc>)
    ensures r.Ok? <==>
              Has(source, "author") && Has(source, "values") && Has(source, "trigger")
              && Has(source, "purpose")
    ensures r.Ok? ==>
              r.value == Order(Get(source, "author"), Get(source, "values"),
                               Get(source, "trigger"), Get(source, "purpose"))
    ensures r.Err? ==> r.error == TypeError
  {
    var author :- Arg(source, "author");
    var values :- Arg(source, "values");
    var trigger :- Arg(source, "trigger");
    var purpose :- Arg(source, "purpose");
    Ok(Order(author, values, trigger, purpose))
  }

  function ReportMake(source: Json): (r: Result<Report, Exc>)
    ensures r.Ok? <==> Has(source, "time") && Has(source, "purpose") && Has(source, "values")
    ensures r.Ok? ==>
              r.value == Report(Get(source, "time"), Get(source, "purpose"), Get(source, "values"))
    ensures r.Err? ==> r.error == TypeError
  {
    var time :- Arg(source, "time");
    var purpose :- Arg(source, "purpose");
    var values :- Arg(source, "values");
    Ok(Report(time, purpose, values))
  }

  function WorkMake(source: Json): (r: Result<Work, Exc>)
    ensures r.Ok? <==> Has(source, "time") && Has(source, "purpose") && Has(source, "values")
    ensures r.Ok? ==>
              r.value == Work(Get(source, "time"), Get(source, "purpose"), Get(source, "values"))
    ensures r.Err? ==> r.error == TypeError
  {
    var time :- Arg(source, "time");
    var purpose :- Arg(source, "purpose");
    var values :- Arg(source, "values");
    Ok(Work(time, purpose, values))
  }

  /**
   * Extra keys are ignored: adding a key that a parser does not read never
   * changes what it builds.
   */
  lemma ExtraKeysIgnored(fields: seq<(string, Json)>, extra: string, v: Json)
    requires extra !in ["time", "purpose", "values"]
    ensures ReportMake(JObj(fields + [(extra, v)])) == ReportMake(JObj(fields))
    ensures WorkMake(JObj(fields + [(extra, v)])) == WorkMake(JObj(fields))
  {
    forall k | k in ["time", "purpose", "values"]
      ensures Field(JObj(fields + [(extra, v)]), k) == Field(JObj(fields), k)
    {
      LookupPastEnd(fields, extra, v, k);
    }
  }

  lemma {:induction false} LookupPastEnd(fields: seq<(string, Json)>, extra: string, v: Json, k: string)
    requires k != extra
    ensures OD.Lookup(fields + [(extra, v)], k) == OD.Lookup(fields, k)
  {
    if fields != [] {
      assert (fields + [(extra, v)])[1..] == fields[1..] + [(extra, v)];
      LookupPastEnd(fields[1..], extra, v, k);
    }
  }

  /** Python's `a + b` on the JSON values get_id concatenates. */
  function PyAdd(a: Json, b: Json): (r: Result<Json, Exc>)
    ensures a.JStr? && b.JStr? ==> r == Ok(JStr(a.s + b.s))
    ensures r.Err? ==> r.error == TypeError
  {
    match (a, b)
    case (JStr(x), JStr(y)) => Ok(JStr(x + y))
    case (JArr(x), JArr(y)) => Ok(JArr(x + y))
    case _ =>
      if (a.JNum? || a.JBool?) && (b.JNum? || b.JBool?) then Ok(JNum(AsNumber(a) + AsNumber(b)))
      else Err(TypeError)
  }

  function AsNumber(j: Json): real {
    match j
    case JNum(n) => n
    case JBool(b) => if b then 1.0 else 0.0
    case _ => 0.0
  }

  /**
   * `get_id`: the md5 hex digest of `str(purpose + place)`.  The digest and
   * `str` of a non-string value are opaque and passed in.
   */
  function GetId(purpose: Json, place: Json, pyStr: Json -> string, md5: string -> string): (r: Result<string, Exc>)
    ensures purpose.JStr? && place.JStr? ==> r == Ok(md5(purpose.s + place.s))
  {
    var source :- PyAdd(purpose, place);
    Ok(md5(if source.JStr? then source.s else pyStr(source)))
  }

  function CampaignId(c: Campaign, pyStr: Json -> string, md5: string -> string): Result<string, Exc> {
    GetId(c.purpose, c.place, pyStr, md5)
  }

  function MissionId(m: Mission, pyStr: Json -> string, md5: string -> string): Result<string, Exc> {
    GetId(m.purpose, m.place, pyStr, md5)
  }

  /**
   * The id depends only on the concatenated string: two campaigns (or a
   * campaign and a mission) whose purpose + place agree get the same id, even
   * when they split the string differently.
   */
  lemma SameConcatenationSameId(c: Campaign, m: Mission, pyStr: Json -> string, md5: string -> string)
    requires c.purpose.JStr? && c.place.JStr? && m.purpose.JStr? && m.place.JStr?
    requires c.purpose.s + c.place.s == m.purpose.s + m.place.s
    ensures CampaignId(c, pyStr, md5) == MissionId(m, pyStr, md5)
    ensures CampaignId(c, pyStr, md5).Ok?
  {
  }

  /** For instance purpose "ab" at place "c" and purpose "a" at place "bc" collide. */
  lemma SplitCollision(pyStr: Json -> string, md5: string -> string)
    ensures GetId(JStr("ab"), JStr("c"), pyStr, md5) == GetId(JStr("a"), JStr("bc"), pyStr, md5)
  {
    assert "ab" + "c" == "a" + "bc";
  }
}
