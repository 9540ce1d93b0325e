/**
 * The record cleaner of lib/services/data-processor.ts: `cleanWeather` repairs a
 * weather record field by field and logs one issue per repair, and `aggregateDaily`
 * averages hourly temperatures.
 *
 * A JavaScript field that is null or undefined is `None`. A field is "truthy" when it
 * is present and not 0. The text form of a number inside a message is the parameter
 * `show`, standing for JavaScript's number-to-string conversion.
 */
module DataProcessor {
  import opened Wrappers
  import opened Numerics

  /** A weather record: the four fields the cleaner inspects and everything else it copies. */
  datatype WeatherRecord = WeatherRecord(
    temperature: Option<real>,
    humidity: Option<real>,
    windSpeed: Option<real>,
    precipitation: Option<real>,
    otherFields: map<string, string>)

  datatype CleanedDataResult = CleanedDataResult(valid: bool, data: WeatherRecord, issues: seq<string>)

  /** One repair the cleaner makes, carrying the value it found. */
  datatype Repair =
    | TemperatureOutlier(temperature: real)
    | HumidityClamped(humidity: real)
    | WindSpeedZeroed(windSpeed: real)
    | PrecipitationDefaulted
  {
    /** The issue text logged for this repair. */
    function Message(show: real -> string): string {
      match this
      case TemperatureOutlier(t) =>
        "Outlier Detected: Temperature " + show(t) + "C is out of bounds (-50 to 60). Marking as null."
      case HumidityClamped(h) => "Invalid Humidity: " + show(h) + "%. Clamping to range."
      case WindSpeedZeroed(w) => "Invalid Wind Speed: " + show(w) + ". Setting to 0."
      case PrecipitationDefaulted => "Missing Precipitation: Defaulting to 0."
    }

    /** Position of the field in the order the cleaner visits them. */
    function FieldIndex(): nat {
      match this
      case TemperatureOutlier(_) => 0
      case HumidityClamped(_) => 1
      case WindSpeedZeroed(_) => 2
      case PrecipitationDefaulted => 3
    }
  }

  /** JavaScript truthiness of a numeric field: present and not 0. */
  predicate Truthy(v: Option<real>) {
    v.Some? && v.value != 0.0
  }

  predicate TemperatureOutOfBounds(t: Option<real>) {
    Truthy(t) && (t.value > 60.0 || t.value < -50.0)
  }

  predicate HumidityOutOfRange(h: Option<real>) {
    Truthy(h) && (h.value < 0.0 || h.value > 100.0)
  }

  predicate WindSpeedNegative(w: Option<real>) {
    Truthy(w) && w.value < 0.0
  }

  function TemperatureRepairs(data: WeatherRecord): seq<Repair> {
    if TemperatureOutOfBounds(data.temperature) then [TemperatureOutlier(data.temperature.value)] else []
  }

  function HumidityRepairs(data: WeatherRecord): seq<Repair> {
    if HumidityOutOfRange(data.humidity) then [HumidityClamped(data.humidity.value)] else []
  }

  function WindSpeedRepairs(data: WeatherRecord): seq<Repair> {
    if WindSpeedNegative(data.windSpeed) then [WindSpeedZeroed(data.windSpeed.value)] else []
  }

  function PrecipitationRepairs(data: WeatherRecord): seq<Repair> {
    if data.precipitation.None? then [PrecipitationDefaulted] else []
  }

  /** The four checks in order; each contributes its repair when it fires. */
  function Repairs(data: WeatherRecord): (rs: seq<Repair>) {
    TemperatureRepairs(data) + HumidityRepairs(data) + WindSpeedRepairs(data) + PrecipitationRepairs(data)
  }

  function Messages(rs: seq<Repair>, show: real -> string): (ms: seq<string>)
    ensures |ms| == |rs|
    ensures forall i :: 0 <= i < |rs| ==> ms[i] == rs[i].Message(show)
  {
    seq(|rs|, i requires 0 <= i < |rs| => rs[i].Message(show))
  }

  /** Logging one more repair appends its message. */
  lemma MessagesAppend(rs: seq<Repair>, r: Repair, show: real -> string)
    ensures Messages(rs + [r], show) == Messages(rs, show) + [r.Message(show)]
  {
  }

  /** The record after every repair: what each field becomes, independently of the others. */
  function Cleaned(data: WeatherRecord): WeatherRecord {
    data.(
      temperature := if TemperatureOutOfBounds(data.temperature) then None else data.temperature,
      humidity := if HumidityOutOfRange(data.humidity) then Some(Max(0.0, Min(100.0, data.humidity.value))) else data.humidity,
      windSpeed := if WindSpeedNegative(data.windSpeed) then Some(0.0) else data.windSpeed,
      precipitation := if data.precipitation.None? then Some(0.0) else data.precipitation)
  }

  /** What a cleaned record satisfies: every present value within its bounds, precipitation present. */
  predicate IsClean(data: WeatherRecord) {
    (data.temperature.Some? ==> -50.0 <= data.temperature.value <= 60.0)
    && (data.humidity.Some? ==> 0.0 <= data.humidity.value <= 100.0)
    && (data.windSpeed.Some? ==> 0.0 <= data.windSpeed.value)
    && data.precipitation.Some?
  }

  /**
   * cleanWeather: copy the record, then visit temperature, humidity, wind speed and
   * precipitation in turn, overwriting the copy and appending an issue for each
   * repair. The result is always marked valid.
   */
  method CleanWeather(data: WeatherRecord, show: real -> string) returns (result: CleanedDataResult)
    ensures result.valid
    ensures result.data == Cleaned(data)
    ensures result.issues == Messages(Repairs(data), show)
    ensures IsClean(result.data)
    ensures result.data.otherFields == data.otherFields
  {
    var issues: seq<string> := [];
    var valid := true;
    var cleaned := data;
    ghost var repairs: seq<Repair> := [];

    if TemperatureOutOfBounds(cleaned.temperature) {
      var r := TemperatureOutlier(cleaned.temperature.value);
      MessagesAppend(repairs, r, show);
      issues, repairs := issues + [r.Message(show)], repairs + [r];
      cleaned := cleaned.(temperature := None);
    }
    assert issues == Messages(repairs, show) && repairs == TemperatureRepairs(data);

    if HumidityOutOfRange(cleaned.humidity) {
      var r := HumidityClamped(cleaned.humidity.value);
      MessagesAppend(repairs, r, show);
      issues, repairs := issues + [r.Message(show)], repairs + [r];
      cleaned := cleaned.(humidity := Some(Max(0.0, Min(100.0, cleaned.humidity.value))));
    }
    assert issues == Messages(repairs, show) && repairs == TemperatureRepairs(data) + HumidityRepairs(data);

    if WindSpeedNegative(cleaned.windSpeed) {
      var r := WindSpeedZeroed(cleaned.windSpeed.value);
      MessagesAppend(repairs, r, show);
      issues, repairs := issues + [r.Message(show)], repairs + [r];
      cleaned := cleaned.(windSpeed := Some(0.0));
    }
    assert issues == Messages(repairs, show);
    assert repairs == TemperatureRepairs(data) + HumidityRepairs(data) + WindSpeedRepairs(data);

    if cleaned.precipitation.None? {
      var r := PrecipitationDefaulted;
      MessagesAppend(repairs, r, show);
      issues, repairs := issues + [r.Message(show)], repairs + [r];
      cleaned := cleaned.(precipitation := Some(0.0));
    }
    assert repairs == Repairs(data);

    CleanedIsClean(data);
    result := CleanedDataResult(valid, cleaned, issues);
  }

  /** Whatever the input, the repaired record is clean. */
  lemma CleanedIsClean(data: WeatherRecord)
    ensures IsClean(Cleaned(data))
  {
    var h := data.humidity;
    if HumidityOutOfRange(h) {
      assert 0.0 <= Max(0.0, Min(100.0, h.value)) <= 100.0;
    }
  }

  /** A field is changed exactly when a repair for it is logged; one issue per changed field. */
  lemma RepairsMatchChanges(data: WeatherRecord)
    ensures (exists r :: r in Repairs(data) && r.TemperatureOutlier?) <==> Cleaned(data).temperature != data.temperature
    ensures (exists r :: r in Repairs(data) && r.HumidityClamped?) <==> Cleaned(data).humidity != data.humidity
    ensures (exists r :: r in Repairs(data) && r.WindSpeedZeroed?) <==> Cleaned(data).windSpeed != data.windSpeed
    ensures PrecipitationDefaulted in Repairs(data) <==> Cleaned(data).precipitation != data.precipitation
    ensures Cleaned(data).otherFields == data.otherFields
  {
    var rs := Repairs(data);
    if TemperatureOutOfBounds(data.temperature) {
      assert rs[0] == TemperatureOutlier(data.temperature.value);
    }
    if HumidityOutOfRange(data.humidity) {
      var h := data.humidity.value;
      assert HumidityClamped(h) in rs;
      assert Max(0.0, Min(100.0, h)) != h;
    }
    if WindSpeedNegative(data.windSpeed) {
      assert WindSpeedZeroed(data.windSpeed.value) in rs;
    }
    if data.precipitation.None? {
      assert rs[|rs| - 1] == PrecipitationDefaulted;
    }
  }

  /** At most four issues, in the order temperature, humidity, wind speed, precipitation. */
  lemma RepairsOrdered(data: WeatherRecord)
    ensures |Repairs(data)| <= 4
    ensures forall i, j :: 0 <= i < j < |Repairs(data)| ==> Repairs(data)[i].FieldIndex() < Repairs(data)[j].FieldIndex()
  {
  }

  /** A clean record passes through untouched and no issue is logged. */
  lemma CleanRecordUnchanged(data: WeatherRecord)
    requires IsClean(data)
    ensures Repairs(data) == []
    ensures Cleaned(data) == data
  {
  }

  /** Cleaning twice is cleaning once: the second pass finds nothing to repair. */
  lemma CleanIdempotent(data: WeatherRecord)
    ensures Repairs(Cleaned(data)) == []
    ensures Cleaned(Cleaned(data)) == Cleaned(data)
  {
    CleanedIsClean(data);
    CleanRecordUnchanged(Cleaned(data));
  }

  /** Humidity outside [0, 100] is clamped to the nearer bound; inside it is kept. */
  lemma HumidityRepair(data: WeatherRecord)
    requires data.humidity.Some?
    ensures data.humidity.value < 0.0 ==> Cleaned(data).humidity == Some(0.0)
    ensures data.humidity.value > 100.0 ==> Cleaned(data).humidity == Some(100.0)
    ensures 0.0 <= data.humidity.value <= 100.0 ==> Cleaned(data).humidity == data.humidity
  {
  }

  /** A temperature outside [−50, 60] becomes null; inside it is kept. */
  lemma TemperatureRepair(data: WeatherRecord)
    requires data.temperature.Some?
    ensures (data.temperature.value > 60.0 || data.temperature.value < -50.0) <==> Cleaned(data).temperature.None?
    ensures -50.0 <= data.temperature.value <= 60.0 ==> Cleaned(data).temperature == data.temperature
  {
  }

  /** Missing precipitation becomes 0 with its issue; a present value, 0 included, is kept without one. */
  lemma PrecipitationRepair(data: WeatherRecord, show: real -> string)
    ensures data.precipitation.None? ==> Cleaned(data).precipitation == Some(0.0)
    ensures data.precipitation.None? ==>
              Messages(Repairs(data), show)[|Repairs(data)| - 1] == "Missing Precipitation: Defaulting to 0."
    ensures data.precipitation.Some? ==>
              Cleaned(data).precipitation == data.precipitation && PrecipitationDefaulted !in Repairs(data)
  {
  }

  // ---------------------------------------------------------------------------
  // aggregateDaily

  /** An hourly reading, as far as the aggregation reads it. */
  datatype HourlyReading = HourlyReading(temperature: Option<real>)

  datatype DailySummary = DailySummary(avgTemperature: real, sampleCount: nat)

  /** `curr.temperature || 0`: a missing (or zero) temperature counts as 0. */
  function TemperaturesOrZero(hourly: seq<HourlyReading>): (ts: seq<real>)
    ensures |ts| == |hourly|
    ensures forall i :: 0 <= i < |hourly| ==> ts[i] == hourly[i].temperature.GetOr(0.0)
  {
    seq(|hourly|, i requires 0 <= i < |hourly| => hourly[i].temperature.GetOr(0.0))
  }

  /** aggregateDaily: null for a null or empty list, else the mean temperature and the sample count. */
  function AggregateDaily(hourlyData: Option<seq<HourlyReading>>): (r: Option<DailySummary>)
    ensures r.None? <==> hourlyData.None? || |hourlyData.value| == 0
    ensures r.Some? ==> r.value.sampleCount == |hourlyData.value|
    ensures r.Some? ==> r.value.avgTemperature * |hourlyData.value| as real == Sum(TemperaturesOrZero(hourlyData.value))
  {
    match hourlyData
    case None => None
    case Some(hourly) =>
      if |hourly| == 0 then None
      else Some(DailySummary(Mean(TemperaturesOrZero(hourly)), |hourly|))
  }

  /** When every hour has a temperature in [lo, hi], so has the daily average. */
  lemma AggregateDailyBounds(hourly: seq<HourlyReading>, lo: real, hi: real)
    requires |hourly| > 0
    requires forall i :: 0 <= i < |hourly| ==> hourly[i].temperature.Some?
    requires forall i :: 0 <= i < |hourly| ==> lo <= hourly[i].temperature.value <= hi
    ensures lo <= AggregateDaily(Some(hourly)).value.avgTemperature <= hi
  {
    MeanBounds(TemperaturesOrZero(hourly), lo, hi);
  }

  /** A day whose every reading is the same temperature averages to that temperature. */
  lemma AggregateDailyConstant(hourly: seq<HourlyReading>, c: real)
    requires |hourly| > 0
    requires forall i :: 0 <= i < |hourly| ==> hourly[i].temperature == Some(c)
    ensures AggregateDaily(Some(hourly)).value.avgTemperature == c
  {
    MeanConstant(TemperaturesOrZero(hourly), c);
  }

  /** A missing temperature weighs in exactly like a reading of 0. */
  lemma MissingTemperatureCountsAsZero(hourly: seq<HourlyReading>, k: nat)
    requires k < |hourly| && hourly[k].temperature.None?
    ensures AggregateDaily(Some(hourly)) == AggregateDaily(Some(hourly[k := HourlyReading(Some(0.0))]))
  {
    assert TemperaturesOrZero(hourly) == TemperaturesOrZero(hourly[k := HourlyReading(Some(0.0))]);
  }
}
