/**
 * dummy_sensor.py: a stand-in for a sensor board.  It holds eight fixed
 * readings and answers one of them by name, or all of them for 'all'; an
 * unknown name is answered 404.
 */
module DummySensor {
  import opened Wrappers
  import opened JsonValues
  import opened Http
  import OD = OrderedDicts

  /** The readings the board starts with, in the order they are set. */
  const InitialTable: OD.ODict<string, Json> := [
    ("brightness", JNum(400.0)),
    ("button", JBool(true)),
    ("mpltemp", JNum(20.0)),
    ("pressure", JNum(1024.0)),
    ("humidity", JNum(40.0)),
    ("temprature", JNum(20.0)),
    ("currentpir", JBool(true)),
    ("pircount", JNum(27.0))
  ]

  /** The eight names of the initial table are distinct. */
  lemma InitialTableValid()
    ensures OD.Valid(InitialTable) && |OD.Keys(InitialTable)| == 8
  {
    assert OD.Keys(InitialTable) == InitialNames;
    InitialNamesDistinct();
  }

  /** The names of the initial table, in order. */
  const InitialNames: seq<string> :=
    ["brightness", "button", "mpltemp", "pressure", "humidity", "temprature", "currentpir", "pircount"]

  /** No two of the names agree in length and first two letters. */
  lemma InitialNamesDistinct()
    ensures OD.Distinct(InitialNames)
  {
    var ks := InitialNames;
    forall a, b | 0 <= a < b < |ks| ensures ks[a] != ks[b] {
      assert (|ks[a]|, ks[a][0], ks[a][1]) != (|ks[b]|, ks[b][0], ks[b][1]);
    }
  }

  /** One reading as the board answers it: its name and its value. */
  function Reading(name: string, value: Json): (j: Json)
    ensures j.JObj? && OD.Keys(j.fields) == ["name", "value"]
    ensures Field(j, "name") == Ok(JStr(name)) && Field(j, "value") == Ok(value)
  {
    OD.LookupPair(("name", JStr(name)), ("value", value));
    JObj([("name", JStr(name)), ("value", value)])
  }

  /** Every reading of a table, in its order. */
  function AllReadings(table: OD.ODict<string, Json>): (rs: seq<Json>)
    ensures |rs| == |table| && forall i :: 0 <= i < |table| ==> rs[i] == Reading(table[i].0, table[i].1)
  {
    seq(|table|, i requires 0 <= i < |table| => Reading(table[i].0, table[i].1))
  }

  /** In a table with distinct names, 'all' lists exactly what asking for each name answers. */
  lemma AllAgreesWithEach(table: OD.ODict<string, Json>)
    requires OD.Valid(table)
    ensures forall i :: 0 <= i < |table| ==>
              OD.Lookup(table, table[i].0).Some?
              && AllReadings(table)[i] == Reading(table[i].0, OD.Lookup(table, table[i].0).value)
  {
    forall i | 0 <= i < |table| ensures OD.Lookup(table, table[i].0) == Some(table[i].1) {
      OD.LookupAt(table, i);
    }
  }

  class Sensor {
    var sensorValues: OD.ODict<string, Json>

    /** A new board holds the eight initial readings. */
    constructor()
      ensures sensorValues == InitialTable
    {
      sensorValues := InitialTable;
    }

    /**
     * json_value: for 'all', every reading in table order, built by
     * appending one at a time; for a known name, that reading; otherwise
     * nothing.  The table is left as it was.
     */
    method JsonValue(sensor: string) returns (result: Option<Json>)
      ensures sensor == "all" ==> result == Some(JArr(AllReadings(sensorValues)))
      ensures sensor != "all" && sensor in OD.Keys(sensorValues) ==>
                result == Some(Reading(sensor, OD.Lookup(sensorValues, sensor).value))
      ensures sensor != "all" && sensor !in OD.Keys(sensorValues) ==> result == None
    {
      if sensor == "all" {
        var readings: seq<Json> := [];
        var i := 0;
        while i < |sensorValues|
          invariant 0 <= i <= |sensorValues|
          invariant readings == AllReadings(sensorValues[..i])
        {
          assert sensorValues[..i + 1] == sensorValues[..i] + [sensorValues[i]];
          readings := readings + [Reading(sensorValues[i].0, sensorValues[i].1)];
          i := i + 1;
        }
        assert sensorValues[..i] == sensorValues;
        return Some(JArr(readings));
      }
      var value := OD.Lookup(sensorValues, sensor);
      if value.Some? {
        return Some(Reading(sensor, value.value));
      }
      return None;
    }
  }

  /** GET or POST /sensor/<path>: 404 for an unknown name, else the answer as JSON. */
  method GetSensor(box: Sensor, path: string) returns (resp: Response)
    ensures path == "all" ==> resp == Reply(200, JArr(AllReadings(box.sensorValues)))
    ensures path != "all" && path in OD.Keys(box.sensorValues) ==>
              resp == Reply(200, Reading(path, OD.Lookup(box.sensorValues, path).value))
    ensures path != "all" && path !in OD.Keys(box.sensorValues) ==> resp.code == 404
  {
    var result := box.JsonValue(path);
    if result.None? {
      return Reply(404, JNull);
    }
    return Reply(200, result.value);
  }

  /** A new board answers 'all' with its eight readings, and each name with its reading. */
  lemma NewBoardAnswers()
    ensures |AllReadings(InitialTable)| == 8
    ensures forall i :: 0 <= i < 8 ==>
              InitialTable[i].0 in OD.Keys(InitialTable)
              && OD.Lookup(InitialTable, InitialTable[i].0) == Some(InitialTable[i].1)
  {
    InitialTableValid();
    forall i | 0 <= i < 8 ensures OD.Lookup(InitialTable, InitialTable[i].0) == Some(InitialTable[i].1) {
      OD.LookupAt(InitialTable, i);
    }
  }
}
