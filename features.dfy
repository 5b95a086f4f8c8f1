/**
 * prepare_data in app.py: from the weather service's JSON answer to the
 * classifier's feature row. The `current` block is read, a one-row record is
 * built (MinTemp and Temp9am both from the temperature, three readings passed
 * through, cloud cover in oktas, the wind bearing as a compass point), the
 * compass point is one-hot encoded and the row is aligned on the column list
 * the classifier was trained with.
 */
module Features {
  import opened Results
  import opened Compass
  import opened Oktas
  import opened Frame

  /** A decoded JSON document; `JNull` is Python's None. */
  datatype Json =
    | JNull
    | JBool(b: bool)
    | JNum(num: real)
    | JStr(str: string)
    | JArr(items: seq<Json>)
    | JObj(fields: map<string, Json>)

  /**
   * What building the record can raise: a key that is not there (KeyError),
   * subscripting a value that is not a dict (TypeError), or a reading that is
   * not a number.
   */
  datatype Failure = KeyMissing(key: string) | NotSubscriptable(key: string) | NotNumeric(key: string)

  /** The readings of the `current` block that the record uses. */
  datatype Current = Current(
    temperature: real,
    humidity: real,
    pressure: real,
    windSpeed: real,
    windDirection: real,
    cloudCover: real)

  /** `j[key]` in Python on a decoded JSON value: KeyError for a dict without the key, TypeError for anything but a dict. */
  function Subscript(j: Json, key: string): (r: Result<Json, Failure>)
    ensures r.Ok? <==> j.JObj? && key in j.fields
    ensures r.Ok? ==> r.value == j.fields[key]
    ensures r.Err? ==> r.error == if j.JObj? then KeyMissing(key) else NotSubscriptable(key)
  {
    match j
    case JObj(fields) => if key in fields then Ok(fields[key]) else Err(KeyMissing(key))
    case _ => Err(NotSubscriptable(key))
  }

  /** `j[key]`, which the record then uses as a number. */
  function NumberAt(j: Json, key: string): (r: Result<real, Failure>)
    ensures r.Ok? <==> j.JObj? && key in j.fields && j.fields[key].JNum?
    ensures r.Ok? ==> j.fields[key] == JNum(r.value)
    ensures r.Err? && j.JObj? && key in j.fields ==> r.error == NotNumeric(key)
  {
    var v :- Subscript(j, key);
    if v.JNum? then Ok(v.num) else Err(NotNumeric(key))
  }

  /** The `current` block of `w` is a dict carrying the six readings of `c` as numbers (other keys may be present). */
  ghost predicate Carries(w: Json, c: Current) {
    && w.JObj? && "current" in w.fields
    && var cur := w.fields["current"];
    && cur.JObj?
    && cur.fields.Keys >= {"temperature_2m", "relative_humidity_2m", "surface_pressure",
                           "wind_speed_10m", "cloud_cover", "wind_direction_10m"}
    && cur.fields["temperature_2m"] == JNum(c.temperature)
    && cur.fields["relative_humidity_2m"] == JNum(c.humidity)
    && cur.fields["surface_pressure"] == JNum(c.pressure)
    && cur.fields["wind_speed_10m"] == JNum(c.windSpeed)
    && cur.fields["cloud_cover"] == JNum(c.cloudCover)
    && cur.fields["wind_direction_10m"] == JNum(c.windDirection)
  }

  /**
   * The lookups of prepare_data, in the order Python evaluates the record:
   * `current`, then temperature (read twice, for MinTemp and Temp9am),
   * humidity, pressure, wind speed, cloud cover and wind direction. The first
   * one that fails is the error.
   */
  function ReadCurrent(w: Json): (r: Result<Current, Failure>)
    ensures r.Ok? ==> Carries(w, r.value)
    ensures r.Err? ==> forall c :: !Carries(w, c)
    ensures !w.JObj? ==> r == Err(NotSubscriptable("current"))
    ensures w.JObj? && "current" !in w.fields ==> r == Err(KeyMissing("current"))
  {
    var cur :- Subscript(w, "current");
    var temperature :- NumberAt(cur, "temperature_2m");
    var humidity :- NumberAt(cur, "relative_humidity_2m");
    var pressure :- NumberAt(cur, "surface_pressure");
    var windSpeed :- NumberAt(cur, "wind_speed_10m");
    var cloudCover :- NumberAt(cur, "cloud_cover");
    var windDirection :- NumberAt(cur, "wind_direction_10m");
    Ok(Current(temperature, humidity, pressure, windSpeed, windDirection, cloudCover))
  }

  /**
   * The numeric columns of the record, in the order of the dict literal:
   * all numbers, MinTemp and Temp9am both the temperature.
   */
  function NumericColumns(c: Current): (row: Row)
    ensures |row| == 6
    ensures forall i :: 0 <= i < |row| ==> row[i].cell.Num?
    ensures row[0].cell == row[1].cell == Num(c.temperature)
  {
    [ Column("MinTemp", Num(c.temperature)),
      Column("Temp9am", Num(c.temperature)),
      Column("Humidity9am", Num(c.humidity)),
      Column("Pressure9am", Num(c.pressure)),
      Column("WindSpeed9am", Num(c.windSpeed)),
      Column("Cloud9am", Num(CloudOktas(c.cloudCover) as real)) ]
  }

  /**
   * The one-row record `data` of prepare_data: the numeric columns, then the
   * wind's compass point as its only categorical column.
   */
  function RawRecord(c: Current): (row: Row)
    ensures |row| == 7
    ensures forall i :: 0 <= i < |row| ==> (row[i].cell.Category? <==> i == 6)
    ensures row[6] == Column("WindDir9am", Category(DegreesToCardinal(c.windDirection)))
  {
    NumericColumns(c) + [Column("WindDir9am", Category(DegreesToCardinal(c.windDirection)))]
  }

  /** The name of the indicator column for the compass point of bearing d. */
  function WindDummy(d: real): string {
    DummyName("WindDir9am", DegreesToCardinal(d))
  }

  /** A label of the one-hot encoded wind-direction column. */
  predicate IsWindDummy(name: string) {
    "WindDir9am_" <= name
  }

  /**
   * The value the classifier receives in column `name`, stated directly from
   * the readings: both temperatures, the three pass-through readings, the
   * okta count, a set flag for the compass point of the wind, and 0 for every
   * other column.
   */
  function FeatureValue(c: Current, name: string): Cell {
    if name == "MinTemp" || name == "Temp9am" then Num(c.temperature)
    else if name == "Humidity9am" then Num(c.humidity)
    else if name == "Pressure9am" then Num(c.pressure)
    else if name == "WindSpeed9am" then Num(c.windSpeed)
    else if name == "Cloud9am" then Num(CloudOktas(c.cloudCover) as real)
    else if name == WindDummy(c.windDirection) then Flag(true)
    else Num(0.0)
  }

  /** No numeric column label is a wind-direction indicator label. */
  lemma NumericNamesAreNotDummies(c: Current, i: nat)
    requires i < |NumericColumns(c)|
    ensures !IsWindDummy(NumericColumns(c)[i].name)
  {
    var n := NumericColumns(c)[i].name;
    if |n| >= 11 {
      assert n[0] != 'W' || n[4] != 'D';
    }
  }

  /** The record after get_dummies, as EncodedRecord shows it to be. */
  function Encoded(c: Current): Row {
    NumericColumns(c) + [Column(WindDummy(c.windDirection), Flag(true))]
  }

  /** The labels of the encoded record. */
  function EncodedNames(c: Current): seq<string> {
    ["MinTemp", "Temp9am", "Humidity9am", "Pressure9am", "WindSpeed9am", "Cloud9am", WindDummy(c.windDirection)]
  }

  /**
   * After get_dummies the record is its six numeric columns followed by the
   * single set indicator of the wind's compass point.
   */
  lemma EncodedRecord(c: Current)
    ensures GetDummies(RawRecord(c)) == Encoded(c)
  {
    var num := NumericColumns(c);
    var dir := Column("WindDir9am", Category(DegreesToCardinal(c.windDirection)));
    assert RawRecord(c) == num + [dir];
    GetDummiesAppend(num, [dir]);
    assert forall k :: 0 <= k < |num| ==> num[k].cell.Num?;
    GetDummiesNoCategory(num);
    assert [dir][1..] == [];
    assert Kept([dir]) == [];
    assert Dummies([dir]) == [Column(WindDummy(c.windDirection), Flag(true))];
  }

  /** A wind indicator label starts "WindD" and is at least 12 characters long. */
  lemma WindDummyShape(d: real)
    ensures |WindDummy(d)| >= 12 && WindDummy(d)[0] == 'W' && WindDummy(d)[4] == 'D'
    ensures IsWindDummy(WindDummy(d))
  {
    var p := DegreesToCardinal(d);
    assert |p| >= 1;
    assert WindDummy(d) == "WindDir9am_" + p;
  }

  /** The labels of the encoded record are distinct. */
  lemma EncodedNamesUnique(c: Current)
    ensures Names(Encoded(c)) == EncodedNames(c)
    ensures UniqueNames(Encoded(c))
  {
    var enc := Encoded(c);
    WindDummyShape(c.windDirection);
    assert Names(enc) == EncodedNames(c);
    var names := EncodedNames(c);
    forall i, j | 0 <= i < j < |names|
      ensures names[i] != names[j]
    {
      assert |names[i]| != |names[j]| || names[i][0] != names[j][0] || names[i][4] != names[j][4];
    }
  }

  /** Exactly one column of the encoded record is a wind-direction indicator: the one of the wind's compass point, set. */
  lemma OneHotWindDirection(c: Current)
    ensures Column(WindDummy(c.windDirection), Flag(true)) in GetDummies(RawRecord(c))
    ensures forall col :: col in GetDummies(RawRecord(c)) && IsWindDummy(col.name) ==>
      col == Column(WindDummy(c.windDirection), Flag(true))
    ensures "WindDir9am" !in Names(GetDummies(RawRecord(c)))
  {
    EncodedRecord(c);
    EncodedNamesUnique(c);
    var enc := Encoded(c);
    var last := Column(WindDummy(c.windDirection), Flag(true));
    assert enc == NumericColumns(c) + [last];
    forall col | col in enc && IsWindDummy(col.name)
      ensures col == last
    {
      if col != last {
        var i :| 0 <= i < 6 && NumericColumns(c)[i] == col;
        NumericNamesAreNotDummies(c, i);
        assert false;
      }
    }
    NotRawWindName(c);
  }

  /** The raw WindDir9am label is not among the encoded labels. */
  lemma NotRawWindName(c: Current)
    ensures "WindDir9am" !in EncodedNames(c)
  {
    WindDummyShape(c.windDirection);
    var names := EncodedNames(c);
    forall i | 0 <= i < |names|
      ensures names[i] != "WindDir9am"
    {
      assert |names[i]| != |"WindDir9am"|;
    }
  }

  /**
   * The feature row of prepare_data: the encoded record reindexed on the
   * classifier's columns. Its labels are exactly those columns, in order, and
   * every cell is the one FeatureValue states.
   */
  function FeatureRow(c: Current, columns: seq<string>): (out: Row)
    ensures Names(out) == columns
    ensures forall i :: 0 <= i < |columns| ==> out[i].cell == FeatureValue(c, columns[i])
  {
    EncodedRecord(c);
    EncodedNamesUnique(c);
    var out := Reindex(GetDummies(RawRecord(c)), columns);
    FeatureRowCells(c, columns, out);
    out
  }

  /** The cell-by-cell proof behind FeatureRow. */
  lemma FeatureRowCells(c: Current, columns: seq<string>, out: Row)
    requires UniqueNames(Encoded(c))
    requires out == Reindex(Encoded(c), columns)
    ensures forall i :: 0 <= i < |columns| ==> out[i].cell == FeatureValue(c, columns[i])
  {
    EncodedNamesUnique(c);
    var enc := Encoded(c);
    var names := EncodedNames(c);
    assert forall j :: 0 <= j < 6 ==> names[j] != names[6];
    assert Names(enc) == names;
    forall i | 0 <= i < |columns|
      ensures out[i].cell == FeatureValue(c, columns[i])
    {
      var n := columns[i];
      if n in names {
        var j :| 0 <= j < |enc| && names[j] == n;
        assert enc[j].name == n;
        assert out[i].cell == enc[j].cell;
        assert forall k :: 0 <= k < j ==> names[k] != n;
        assert names[0] == "MinTemp" && names[1] == "Temp9am" && names[2] == "Humidity9am";
        assert names[3] == "Pressure9am" && names[4] == "WindSpeed9am" && names[5] == "Cloud9am";
        assert names[6] == WindDummy(c.windDirection);
        assert enc[j] == (NumericColumns(c) + [Column(WindDummy(c.windDirection), Flag(true))])[j];
      } else {
        assert out[i].cell == Num(0.0);
        assert n != names[0] && n != names[1] && n != names[2] && n != names[3];
        assert n != names[4] && n != names[5] && n != names[6];
      }
    }
  }

  /** What prepare_data returns: the aligned feature row and the raw record. */
  datatype Prepared = Prepared(features: Row, record: Row)

  /**
   * prepare_data: fails exactly when the answer does not carry the six
   * readings; otherwise the features are aligned on `columns` and hold the
   * values FeatureValue gives for the readings.
   */
  function PrepareData(w: Json, columns: seq<string>): (r: Result<Prepared, Failure>)
    ensures r.Err? <==> forall c :: !Carries(w, c)
    ensures r.Ok? ==> Names(r.value.features) == columns
    ensures forall c :: Carries(w, c) ==>
      r.Ok? && forall i :: 0 <= i < |columns| ==> r.value.features[i].cell == FeatureValue(c, columns[i])
    ensures forall c :: Carries(w, c) ==> r.Ok? && r.value.record == RawRecord(c)
  {
    var c :- ReadCurrent(w);
    CarriesDetermines(w, c);
    Ok(Prepared(FeatureRow(c, columns), RawRecord(c)))
  }

  /** An answer carries at most one set of readings. */
  lemma CarriesDetermines(w: Json, c: Current)
    requires Carries(w, c)
    ensures forall c' :: Carries(w, c') ==> c' == c
  {
  }

  /**
   * `raw['Temp9am'][0]`: the number held by the record's Temp9am entry, which
   * predict reports as `temp` (0.0 stands for a record without one, which
   * prepare_data never builds).
   */
  function RecordTemperature(record: Row): (t: real)
    ensures forall k :: 0 <= k < |record| && UniqueNames(record) && record[k].name == "Temp9am" && record[k].cell.Num? ==>
      t == record[k].cell.value
  {
    var k := IndexOf(record, "Temp9am");
    if k < |record| && record[k].cell.Num? then record[k].cell.value else 0.0
  }

  /** The record reports the reading's temperature, and MinTemp and Temp9am hold the same value. */
  lemma RecordTemperatureIsReading(c: Current)
    ensures RecordTemperature(RawRecord(c)) == c.temperature
    ensures RawRecord(c)[0].cell == RawRecord(c)[1].cell == Num(c.temperature)
  {
    var record := RawRecord(c);
    EncodedNamesUnique(c);
    assert Names(Encoded(c))[1] == "Temp9am";
    assert UniqueNames(record) by {
      assert forall i :: 0 <= i < 6 ==> record[i].name == Encoded(c)[i].name;
      assert record[6].name != Encoded(c)[6].name ==> true;
      forall i, j | 0 <= i < j < 7
        ensures record[i].name != record[j].name
      {
        if j == 6 {
          assert |record[6].name| == 10;
        }
      }
    }
    assert record[1].name == "Temp9am";
  }

  /** An answer that is a dict with a `current` dict holding the six readings yields exactly those readings. */
  lemma ReadCurrentOfAnswer(c: Current, extra: map<string, Json>, top: map<string, Json>)
    ensures ReadCurrent(JObj(top["current" := JObj(extra + Block(c))])) == Ok(c)
  {
    var w := JObj(top["current" := JObj(extra + Block(c))]);
    assert Carries(w, c);
  }

  /** The six readings as the weather service writes them. */
  function Block(c: Current): map<string, Json> {
    map[
      "temperature_2m" := JNum(c.temperature),
      "relative_humidity_2m" := JNum(c.humidity),
      "surface_pressure" := JNum(c.pressure),
      "wind_speed_10m" := JNum(c.windSpeed),
      "cloud_cover" := JNum(c.cloudCover),
      "wind_direction_10m" := JNum(c.windDirection)]
  }

  /**
   * The indicator column of compass point k holds a set flag when k is the
   * wind's compass point and 0 otherwise.
   */
  lemma WindIndicatorValue(c: Current, k: nat)
    requires k < |Directions|
    ensures FeatureValue(c, DummyName("WindDir9am", Directions[k])) ==
      if Directions[k] == DegreesToCardinal(c.windDirection) then Flag(true) else Num(0.0)
  {
    var n := DummyName("WindDir9am", Directions[k]);
    assert n[..11] == "WindDir9am_";
    assert n[11..] == Directions[k];
    assert WindDummy(c.windDirection)[11..] == DegreesToCardinal(c.windDirection);
    assert |Directions[k]| >= 1;
    assert n[0] == 'W' && n[4] == 'D' && |n| >= 12;
    assert n != "WindSpeed9am" by { assert n[4] != "WindSpeed9am"[4]; }
  }

  /**
   * For a reading of 10 degrees, 80 %, 1013 hPa, 15 km/h, wind from 0 degrees
   * and full cloud: Cloud9am is 8, the north indicator is set and the other
   * fifteen direction indicators are 0.
   */
  lemma OvercastNortherly()
    ensures var c := Current(10.0, 80.0, 1013.0, 15.0, 0.0, 100.0);
      && FeatureValue(c, "Cloud9am") == Num(8.0)
      && FeatureValue(c, "WindDir9am_N") == Flag(true)
      && FeatureValue(c, "Temp9am") == Num(10.0)
      && (forall k :: 1 <= k < |Directions| ==> FeatureValue(c, DummyName("WindDir9am", Directions[k])) == Num(0.0))
  {
    var c := Current(10.0, 80.0, 1013.0, 15.0, 0.0, 100.0);
    CloudOktasEnds();
    NorthWraps(0.0);
    WindIndicatorValue(c, 0);
    forall k | 1 <= k < |Directions|
      ensures FeatureValue(c, DummyName("WindDir9am", Directions[k])) == Num(0.0)
    {
      WindIndicatorValue(c, k);
      DirectionsDistinct(0, k);
    }
  }
}
