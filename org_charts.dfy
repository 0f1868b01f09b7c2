/**
 * The recruiters' org-chart tables: entries pairing a superior's id with the
 * list of its subordinates' ids, searched for the first entry that lists a
 * given id.  model/recruiter.py keeps the entries in a dictionary and scans
 * its items, returning at the first entry listing the id (FirstListing);
 * troops/recruiter.py keeps Troop and Squad tuples in a list and filters the
 * whole list before it takes the first entry kept (FilterFirst), so a
 * membership test that raises after the first match still raises.  When no
 * membership test raises, the two searches agree.
 */
module OrgCharts {
  import opened Wrappers
  import opened JsonValues

  /**
   * The head of the first entry whose subordinates contain x, None when no
   * entry does, or the exception the membership test raised on the way.
   */
  function FirstListing<K(==)>(entries: seq<(K, Json)>, x: Json): (r: Result<Option<K>, Exc>)
    ensures r == Ok(None) <==> forall i :: 0 <= i < |entries| ==> In(x, entries[i].1) == Ok(false)
    ensures r.Ok? && r.value.Some? ==>
              exists i :: 0 <= i < |entries| && entries[i].0 == r.value.value
                          && In(x, entries[i].1) == Ok(true)
                          && forall j :: 0 <= j < i ==> In(x, entries[j].1) == Ok(false)
    ensures r.Err? ==>
              exists i :: 0 <= i < |entries| && In(x, entries[i].1) == Err(r.error)
                          && forall j :: 0 <= j < i ==> In(x, entries[j].1) == Ok(false)
  {
    if entries == [] then Ok(None)
    else
      match In(x, entries[0].1)
      case Err(e) => Err(e)
      case Ok(true) => Ok(Some(entries[0].0))
      case Ok(false) =>
        var rest := FirstListing(entries[1..], x);
        if rest == Ok(None) then
          assert forall i :: 1 <= i < |entries| ==> In(x, entries[i].1) == In(x, entries[1..][i - 1].1);
          rest
        else if rest.Ok? then
          var i :| 0 <= i < |entries| - 1 && entries[1..][i].0 == rest.value.value
                   && In(x, entries[1..][i].1) == Ok(true)
                   && forall j :: 0 <= j < i ==> In(x, entries[1..][j].1) == Ok(false);
          assert forall j :: 0 <= j < i + 1 ==> In(x, entries[j].1) == Ok(false) by {
            forall j | 0 <= j < i + 1 ensures In(x, entries[j].1) == Ok(false) {
              if j > 0 {
                assert entries[j] == entries[1..][j - 1];
              }
            }
          }
          assert entries[i + 1] == entries[1..][i];
          rest
        else
          var i :| 0 <= i < |entries| - 1 && In(x, entries[1..][i].1) == Err(rest.error)
                   && forall j :: 0 <= j < i ==> In(x, entries[1..][j].1) == Ok(false);
          assert forall j :: 0 <= j < i + 1 ==> In(x, entries[j].1) == Ok(false) by {
            forall j | 0 <= j < i + 1 ensures In(x, entries[j].1) == Ok(false) {
              if j > 0 {
                assert entries[j] == entries[1..][j - 1];
              }
            }
          }
          assert entries[i + 1] == entries[1..][i];
          rest
  }

  /**
   * The first entry listing x is the one found: the search answers its
   * head whatever the later entries say.
   */
  lemma {:induction false} FirstListingFindsFirst<K>(entries: seq<(K, Json)>, x: Json, i: nat)
    requires i < |entries| && In(x, entries[i].1) == Ok(true)
    requires forall j :: 0 <= j < i ==> In(x, entries[j].1) == Ok(false)
    ensures FirstListing(entries, x) == Ok(Some(entries[i].0))
    decreases i
  {
    if i > 0 {
      assert In(x, entries[0].1) == Ok(false);
      forall j | 0 <= j < i - 1 ensures In(x, entries[1..][j].1) == Ok(false) {
        assert entries[1..][j] == entries[j + 1];
      }
      FirstListingFindsFirst(entries[1..], x, i - 1);
    }
  }

  /**
   * When every subordinate list is a list, the search never raises, and it
   * finds nothing exactly when no list holds x.
   */
  lemma ListTablesNeverRaise<K>(entries: seq<(K, Json)>, x: Json)
    requires forall i :: 0 <= i < |entries| ==> entries[i].1.JArr?
    ensures FirstListing(entries, x).Ok?
    ensures FirstListing(entries, x) == Ok(None) <==>
              forall i :: 0 <= i < |entries| ==> x !in entries[i].1.items
  {
  }

  /**
   * `list(filter(lambda e: x in e.subordinates, entries))`: the membership
   * test runs on every entry in order and the first one that raises
   * propagates; otherwise the heads of the entries kept, in order.
   */
  function Filter<K>(entries: seq<(K, Json)>, x: Json): (r: Result<seq<K>, Exc>)
    ensures r.Ok? <==> forall i :: 0 <= i < |entries| ==> In(x, entries[i].1).Ok?
    ensures r.Err? ==>
              exists i :: 0 <= i < |entries| && In(x, entries[i].1) == Err(r.error)
                          && forall j :: 0 <= j < i ==> In(x, entries[j].1).Ok?
    ensures r.Ok? ==> |r.value| <= |entries|
  {
    if entries == [] then Ok([])
    else
      match In(x, entries[0].1)
      case Err(e) => Err(e)
      case Ok(listed) =>
        var rest := Filter(entries[1..], x);
        assert forall i :: 1 <= i < |entries| ==> entries[i] == entries[1..][i - 1];
        if rest.Err? then
          var i :| 0 <= i < |entries| - 1 && In(x, entries[1..][i].1) == Err(rest.error)
                   && forall j :: 0 <= j < i ==> In(x, entries[1..][j].1).Ok?;
          assert In(x, entries[i + 1].1) == Err(rest.error);
          Err(rest.error)
        else
          Ok(if listed then [entries[0].0] + rest.value else rest.value)
  }

  /** get_squad_leader / get_troop_commander: the head of the first entry the filter kept, or None. */
  function FilterFirst<K>(entries: seq<(K, Json)>, x: Json): (r: Result<Option<K>, Exc>)
    ensures (forall i :: 0 <= i < |entries| ==> In(x, entries[i].1).Ok?) ==> r == FirstListing(entries, x)
    ensures r.Err? ==>
              exists i :: 0 <= i < |entries| && In(x, entries[i].1) == Err(r.error)
                          && forall j :: 0 <= j < i ==> In(x, entries[j].1).Ok?
  {
    FilterAgrees(entries, x);
    match Filter(entries, x)
    case Err(e) => Err(e)
    case Ok(heads) => if heads == [] then Ok(None) else Ok(Some(heads[0]))
  }

  /**
   * When no membership test raises, filtering keeps nothing exactly when the
   * early-return search finds nothing, and otherwise keeps the entry it finds first.
   */
  lemma {:induction false} FilterAgrees<K>(entries: seq<(K, Json)>, x: Json)
    ensures (forall i :: 0 <= i < |entries| ==> In(x, entries[i].1).Ok?) ==>
              Filter(entries, x).Ok?
              && (Filter(entries, x).value == [] ==> FirstListing(entries, x) == Ok(None))
              && (Filter(entries, x).value != [] ==> FirstListing(entries, x) == Ok(Some(Filter(entries, x).value[0])))
  {
    if entries != [] && forall i :: 0 <= i < |entries| ==> In(x, entries[i].1).Ok? {
      assert forall i :: 0 <= i < |entries| - 1 ==> entries[1..][i] == entries[i + 1];
      FilterAgrees(entries[1..], x);
    }
  }

  /**
   * A membership test that raises decides the filter's answer, whatever the
   * entries before it listed.
   */
  lemma RaiseAnywhereRaises<K>(entries: seq<(K, Json)>, x: Json, i: nat)
    requires i < |entries| && In(x, entries[i].1).Err?
    ensures FilterFirst(entries, x) == Err(TypeError)
  {
  }

  /**
   * A squad table whose first squad lists "s1" and whose second has a null
   * subordinates value: the early-return search answers the first squad's
   * leader, the filter raises TypeError at the second.
   */
  lemma FilterRaisesAfterMatch()
    ensures var entries := [(JStr("L1"), JArr([JStr("s1")])), (JStr("L2"), JNull)];
            FirstListing(entries, JStr("s1")) == Ok(Some(JStr("L1")))
            && FilterFirst(entries, JStr("s1")) == Err(TypeError)
  {
    var entries := [(JStr("L1"), JArr([JStr("s1")])), (JStr("L2"), JNull)];
    RaiseAnywhereRaises(entries, JStr("s1"), 1);
  }
}
