/** The archive-record normaliser of vantageEntity.py: the filter table that
    routes every raw field of a Davis Vantage archive record to a handler,
    the unit converters, the synthesis of a single `time` value from the
    Year/Month/Day/Hour/Min sub-fields, and the wide InfluxDB point built by
    `jsonify`. */
module VantageEntity {
  import opened Wrappers
  import opened PyDateTime

  /** A Python value held by a record or an attribute: an int, a float, or
      anything else (the leaf and soil arrays, the date stamps) that is only
      passed through or skipped. */
  datatype Value = IntV(i: int) | RealV(r: real) | OtherV(text: string)

  /** One archive record as its dict iterates: (raw field name, raw value)
      pairs. Python 2 fixes no iteration order, so the order is part of the
      input. */
  type RawRecord = seq<(string, Value)>

  /** The three PyWeather unit functions the converters call. Their constants
      live in PyWeather.weather.units, so they are parameters here. */
  datatype Units = Units(
    fahrenheitToCelsius: real -> real,
    incConvToPa: real -> real,
    mphToKmHr: real -> real)

  /** The handler a raw field is routed to: one constructor per bound method
      of the filter table. */
  datatype Rule =
    | SetFinC
    | SetRainInMm
    | SetMinHgInPa
    | SetInPercent
    | SetMphInKph
    | WinDirInDeg
    | SetMilliinInMm
    | AddParameter
    | SkipValue

  /** The filter table of the constructor, one entry per raw field name. */
  const Filters: map<string, Rule> := map[
    "TempOut" := SetFinC,
    "TempOutHi" := SetFinC,
    "TempOutLow" := SetFinC,
    "RainRate" := SetRainInMm,
    "RainRateHi" := SetRainInMm,
    "Barometer" := SetMinHgInPa,
    "SolarRad" := AddParameter,
    "WindSamps" := SkipValue,
    "TempIn" := SetFinC,
    "HumIn" := SetInPercent,
    "HumOut" := SetInPercent,
    "WindAvg" := SetMphInKph,
    "WindHi" := SetMphInKph,
    "WindHiDir" := WinDirInDeg,
    "WindAvgDir" := WinDirInDeg,
    "UV" := AddParameter,
    "ETHour" := SetMilliinInMm,
    "SolarRadHi" := AddParameter,
    "UVHi" := AddParameter,
    "ForecastRuleNo" := SkipValue,
    "LeafTemps" := SkipValue,
    "LeafWetness" := SkipValue,
    "SoilTemps" := SkipValue,
    "RecType" := SkipValue,
    "ExtraHum" := SkipValue,
    "ExtraTemps" := SkipValue,
    "SoilMoist" := SkipValue,
    "HeatIndex" := SetFinC,
    "Year" := AddParameter,
    "Day" := AddParameter,
    "Month" := AddParameter,
    "Hour" := AddParameter,
    "Min" := AddParameter,
    "DateStamp" := SkipValue,
    "DewPoint" := SetFinC,
    "WindChill" := SetFinC,
    "TimeStamp" := SkipValue,
    "DateStampUtc" := AddParameter
  ]

  /** The five sub-fields folded into `time` and then deleted. */
  const TimeKeys: set<string> := {"Year", "Month", "Day", "Hour", "Min"}

  /** The fields the table routes to `skipValue`. */
  const SkipKeys: set<string> := {
    "WindSamps", "ForecastRuleNo", "LeafTemps", "LeafWetness", "SoilTemps",
    "RecType", "ExtraHum", "ExtraTemps", "SoilMoist", "DateStamp", "TimeStamp"}

  /** The fields stored as they arrive (routed to `addParameter`), time sub-fields aside. */
  const IdentityKeys: set<string> := {"SolarRad", "UV", "SolarRadHi", "UVHi", "DateStampUtc"}

  /** Why building a VantageMeasure raises. */
  datatype NormError =
    | UnmappedField(key: string)     // KeyError from `filters[measure]`
    | NotNumeric(key: string)        // TypeError in a converter's arithmetic
    | MissingTimeField(key: string)  // AttributeError on `self.Year` ... `self.Min`
    | InvalidTime                    // TypeError or ValueError from `dt.datetime(...)`

  /** The state of a successfully built VantageMeasure: its attributes other
      than `time`, and `time`. */
  datatype Reading = Reading(fields: map<string, Value>, time: DateTime)

  /** One InfluxDB point: measurement name, UTC time, field map. */
  datatype Point = Point(measurement: string, time: DateTime, fields: map<string, Value>)

  // ---------------------------------------------------------------------
  // Converters

  function AsReal(v: Value): Option<real> {
    match v
    case IntV(i) => Some(i as real)
    case RealV(r) => Some(r)
    case OtherV(_) => None
  }

  /** Python 2's `round`: to the nearest integer, halves away from zero. */
  function RoundHalfAway(x: real): (n: int)
    ensures x >= 0.0 ==> -0.5 <= x - n as real < 0.5
    ensures x < 0.0 ==> -0.5 < x - n as real <= 0.5
  {
    if x >= 0.0 then (x + 0.5).Floor else -((0.5 - x).Floor)
  }

  /** `set_rain_in_mm`: one click of the rain collector is 0.2 mm. */
  function RainInMm(clicks: real): (mm: real)
    ensures mm * 5.0 == clicks
    ensures clicks >= 0.0 ==> mm >= 0.0
  {
    clicks * 0.2
  }

  /** `set_in_percent`: a 0-255 reading as an integer percentage. */
  function InPercent(v: real): (n: int)
    ensures v >= 0.0 ==> -0.5 <= v * 100.0 / 255.0 - n as real < 0.5
    ensures 0.0 <= v <= 255.0 ==> 0 <= n <= 100
  {
    RoundHalfAway(v * 100.0 / 255.0)
  }

  /** `winDir_in_Deg`: sixteen compass points of 22.5 degrees each. */
  function WindCodeInDeg(code: real): (deg: real)
    ensures deg / 22.5 == code
    ensures 0.0 <= code <= 15.0 ==> 0.0 <= deg <= 337.5
  {
    code * 22.5
  }

  /** `set_milliin_in_mm`: thousandths of an inch to millimetres. */
  function MilliinInMm(v: real): (mm: real)
    ensures mm / 25.4 * 1000.0 == v
    ensures v >= 0.0 ==> mm >= 0.0
  {
    (v / 1000.0) * 25.4
  }

  /** What a handler does with one raw value. */
  datatype Conversion = Store(value: Value) | Skip | NotANumber

  function Numeric(v: Value, f: real -> Value): Conversion {
    match AsReal(v)
    case None => NotANumber
    case Some(x) => Store(f(x))
  }

  /** The handlers that convert: every rule but `skipValue` and `addParameter`. */
  predicate Converting(rule: Rule) {
    rule != SkipValue && rule != AddParameter
  }

  function Convert(u: Units, rule: Rule, v: Value): (c: Conversion)
    ensures c.Skip? <==> rule == SkipValue
    ensures c.NotANumber? <==> Converting(rule) && AsReal(v).None?
    ensures rule == AddParameter ==> c == Store(v)
  {
    match rule
    case SkipValue => Skip
    case AddParameter => Store(v)
    case SetFinC => Numeric(v, x => RealV(u.fahrenheitToCelsius(x)))
    case SetRainInMm => Numeric(v, x => RealV(RainInMm(x)))
    case SetMinHgInPa => Numeric(v, x => RealV(u.incConvToPa(x * 1000.0)))
    case SetInPercent => Numeric(v, x => IntV(InPercent(x)))
    case SetMphInKph => Numeric(v, x => RealV(u.mphToKmHr(x)))
    case WinDirInDeg => Numeric(v, x => RealV(WindCodeInDeg(x)))
    case SetMilliinInMm => Numeric(v, x => RealV(MilliinInMm(x)))
  }

  /** The handler of `key` accepts `v`: the key is in the table, and a
      converting handler gets a number. */
  predicate Accepted(key: string, v: Value) {
    key in Filters && (Converting(Filters[key]) ==> AsReal(v).Some?)
  }

  /** `filters[key](key, v)`: None when the handler only logs, Some(w) when
      it stores w under `key`. */
  function Handle(u: Units, key: string, v: Value): (r: Result<Option<Value>, NormError>)
    ensures r.Success? <==> Accepted(key, v)
    ensures r.Failure? ==> r.error == (if key in Filters then NotNumeric(key) else UnmappedField(key))
    ensures r.Success? ==> (r.value.None? <==> Filters[key] == SkipValue)
  {
    if key !in Filters then Failure(UnmappedField(key))
    else
      match Convert(u, Filters[key], v)
      case Skip => Success(None)
      case Store(w) => Success(Some(w))
      case NotANumber => Failure(NotNumeric(key))
  }

  // ---------------------------------------------------------------------
  // The constructor as functions on values

  /** The attribute map after the dispatch loop has run over `rec`; the
      first failing field, in iteration order, decides the error. */
  function Populate(u: Units, rec: RawRecord): (r: Result<map<string, Value>, NormError>)
    ensures r.Failure? ==> r.error.UnmappedField? || r.error.NotNumeric?
    decreases |rec|
  {
    if rec == [] then Success(map[])
    else
      var n := |rec| - 1;
      match Populate(u, rec[..n])
      case Failure(e) => Failure(e)
      case Success(attrs) =>
        match Handle(u, rec[n].0, rec[n].1)
        case Failure(e) => Failure(e)
        case Success(None) => Success(attrs)
        case Success(Some(w)) => Success(attrs[rec[n].0 := w])
  }

  /** `dt.datetime(year, month, day, hour, minute)`: ints in range only. */
  function MakeDateTime(year: Value, month: Value, day: Value, hour: Value, minute: Value): (r: Result<DateTime, NormError>)
    ensures r.Success? ==>
              IsValid(r.value) && year == IntV(r.value.year) && month == IntV(r.value.month) &&
              day == IntV(r.value.day) && hour == IntV(r.value.hour) && minute == IntV(r.value.minute)
    ensures (year.IntV? && month.IntV? && day.IntV? && hour.IntV? && minute.IntV? &&
             IsValid(DateTime(year.i, month.i, day.i, hour.i, minute.i))) ==> r.Success?
    ensures r.Failure? ==> r.error == InvalidTime
  {
    if year.IntV? && month.IntV? && day.IntV? && hour.IntV? && minute.IntV? then
      var t := DateTime(year.i, month.i, day.i, hour.i, minute.i);
      if IsValid(t) then Success(t) else Failure(InvalidTime)
    else Failure(InvalidTime)
  }

  /** `self.time = dt.datetime(self.Year, self.Month, self.Day, self.Hour, self.Min)`:
      the attributes are read in that order. */
  function SynthesizeTime(attrs: map<string, Value>): (r: Result<DateTime, NormError>)
    ensures r.Success? ==>
              TimeKeys <= attrs.Keys && IsValid(r.value) &&
              attrs["Year"] == IntV(r.value.year) && attrs["Month"] == IntV(r.value.month) &&
              attrs["Day"] == IntV(r.value.day) && attrs["Hour"] == IntV(r.value.hour) &&
              attrs["Min"] == IntV(r.value.minute)
    ensures r.Failure? ==>
              r.error == InvalidTime || (r.error.MissingTimeField? && r.error.key in TimeKeys && r.error.key !in attrs)
    ensures TimeKeys <= attrs.Keys ==> r.Success? || r.error == InvalidTime
  {
    if "Year" !in attrs then Failure(MissingTimeField("Year"))
    else if "Month" !in attrs then Failure(MissingTimeField("Month"))
    else if "Day" !in attrs then Failure(MissingTimeField("Day"))
    else if "Hour" !in attrs then Failure(MissingTimeField("Hour"))
    else if "Min" !in attrs then Failure(MissingTimeField("Min"))
    else MakeDateTime(attrs["Year"], attrs["Month"], attrs["Day"], attrs["Hour"], attrs["Min"])
  }

  /** The whole constructor: dispatch, time synthesis, deletion of the sub-fields. */
  function Normalize(u: Units, rec: RawRecord): (r: Result<Reading, NormError>)
    ensures r.Success? ==> IsValid(r.value.time) && r.value.fields.Keys !! TimeKeys
  {
    match Populate(u, rec)
    case Failure(e) => Failure(e)
    case Success(attrs) =>
      match SynthesizeTime(attrs)
      case Failure(e) => Failure(e)
      case Success(t) => Success(Reading(attrs - TimeKeys, t))
  }

  // ---------------------------------------------------------------------
  // Vocabulary for the properties

  /** The field is stored by its handler (routed to anything but `skipValue`). */
  predicate Stores(key: string) {
    key in Filters && Filters[key] != SkipValue
  }

  /** The field survives construction as an attribute other than `time`. */
  predicate Kept(key: string) {
    Stores(key) && key !in TimeKeys
  }

  /** A Python dict never holds a key twice. */
  predicate DistinctKeys(rec: RawRecord) {
    forall i, j | 0 <= i < j < |rec| :: rec[i].0 != rec[j].0
  }

  function KeysOf(rec: RawRecord): set<string> {
    set i | 0 <= i < |rec| :: rec[i].0
  }

  function StoredKeys(rec: RawRecord): set<string> {
    set i | 0 <= i < |rec| && Stores(rec[i].0) :: rec[i].0
  }

  function KeptKeys(rec: RawRecord): set<string> {
    set i | 0 <= i < |rec| && Kept(rec[i].0) :: rec[i].0
  }

  /** The value of the last entry named `key`, which the dispatch loop
      leaves in the attribute (a dict holds one entry per key anyway). */
  function Lookup(rec: RawRecord, key: string): Option<Value>
    decreases |rec|
  {
    if rec == [] then None
    else if rec[|rec| - 1].0 == key then Some(rec[|rec| - 1].1)
    else Lookup(rec[..|rec| - 1], key)
  }

  /** Year, Month, Day, Hour and Min are present, are ints, and form a date
      and time `datetime` accepts. */
  predicate TimeFieldsValid(rec: RawRecord) {
    var y, mo, d, h, mi := Lookup(rec, "Year"), Lookup(rec, "Month"), Lookup(rec, "Day"),
                           Lookup(rec, "Hour"), Lookup(rec, "Min");
    && y.Some? && mo.Some? && d.Some? && h.Some? && mi.Some?
    && y.value.IntV? && mo.value.IntV? && d.value.IntV? && h.value.IntV? && mi.value.IntV?
    && IsValid(DateTime(y.value.i, mo.value.i, d.value.i, h.value.i, mi.value.i))
  }

  /** The number of record entries that end up in the field map. */
  function CountKept(rec: RawRecord): nat
    decreases |rec|
  {
    if rec == [] then 0
    else CountKept(rec[..|rec| - 1]) + (if Kept(rec[|rec| - 1].0) then 1 else 0)
  }

  // ---------------------------------------------------------------------
  // The filter table

  /** The table routes the eleven fields of SkipKeys to `skipValue`. */
  lemma SkipTable()
    ensures forall k | k in SkipKeys :: k in Filters && Filters[k] == SkipValue
  {
    forall k | k in SkipKeys ensures k in Filters && Filters[k] == SkipValue {
      if k == "WindSamps" { assert Filters[k] == SkipValue; }
      if k == "ForecastRuleNo" { assert Filters[k] == SkipValue; }
      if k == "LeafTemps" { assert Filters[k] == SkipValue; }
      if k == "LeafWetness" { assert Filters[k] == SkipValue; }
      if k == "SoilTemps" { assert Filters[k] == SkipValue; }
      if k == "RecType" { assert Filters[k] == SkipValue; }
      if k == "ExtraHum" { assert Filters[k] == SkipValue; }
      if k == "ExtraTemps" { assert Filters[k] == SkipValue; }
      if k == "SoilMoist" { assert Filters[k] == SkipValue; }
      if k == "DateStamp" { assert Filters[k] == SkipValue; }
      if k == "TimeStamp" { assert Filters[k] == SkipValue; }
    }
  }

  /** The table routes the five fields of IdentityKeys to `addParameter`,
      so they are stored as they come. */
  lemma IdentityTable()
    ensures forall k | k in IdentityKeys :: k in Filters && Filters[k] == AddParameter && k !in TimeKeys
  {
    forall k | k in IdentityKeys ensures k in Filters && Filters[k] == AddParameter && k !in TimeKeys {
      if k == "SolarRad" { assert Filters[k] == AddParameter; }
      if k == "UV" { assert Filters[k] == AddParameter; }
      if k == "SolarRadHi" { assert Filters[k] == AddParameter; }
      if k == "UVHi" { assert Filters[k] == AddParameter; }
      if k == "DateStampUtc" { assert Filters[k] == AddParameter; }
    }
  }

  /** Only the eleven fields of SkipKeys are skipped. */
  lemma SkipOnly(k: string)
    requires k in Filters && Filters[k] == SkipValue
    ensures k in SkipKeys
  {
  }

  /** Only the five fields of IdentityKeys and the five time sub-fields are
      routed to `addParameter`. */
  lemma AddParameterOnly(k: string)
    requires k in Filters && Filters[k] == AddParameter
    ensures k in IdentityKeys + TimeKeys
  {
  }

  /** The table skips exactly the fields of SkipKeys. */
  lemma SkipRouting()
    ensures forall k | k in Filters :: Filters[k] == SkipValue <==> k in SkipKeys
  {
    SkipTable();
    forall k | k in Filters && Filters[k] == SkipValue ensures k in SkipKeys {
      SkipOnly(k);
    }
  }

  /** The table stores exactly the fields of IdentityKeys and TimeKeys unchanged. */
  lemma AddParameterRouting()
    ensures forall k | k in Filters :: Filters[k] == AddParameter <==> k in IdentityKeys + TimeKeys
  {
    IdentityTable();
    forall k | k in Filters && Filters[k] == AddParameter ensures k in IdentityKeys + TimeKeys {
      AddParameterOnly(k);
    }
    assert Filters["Year"] == Filters["Month"] == Filters["Day"] == AddParameter;
    assert Filters["Hour"] == Filters["Min"] == AddParameter;
  }

  /** No raw field is called `time`, so the synthesized `time` attribute is
      never overwritten by, nor confused with, a record field. */
  lemma NoTimeField()
    ensures "time" !in Filters
  {
  }

  /** A handler other than `skipValue` never skips, and the identity handler
      stores the raw value. */
  lemma HandleStores(u: Units, key: string, v: Value)
    requires Stores(key)
    ensures Handle(u, key, v).Success? ==> Handle(u, key, v).value.Some?
    ensures Filters[key] == AddParameter ==> Handle(u, key, v) == Success(Some(v))
  {
  }

  /** Rain fields: clicks times 0.2 mm, for an int or a float reading. */
  lemma RainFormula(u: Units, v: Value, x: real)
    requires AsReal(v) == Some(x)
    ensures Handle(u, "RainRate", v) == Success(Some(RealV(x * 0.2)))
    ensures Handle(u, "RainRateHi", v) == Success(Some(RealV(x * 0.2)))
  {
  }

  /** Wind-direction fields: code times 22.5 degrees. */
  lemma WindDirectionFormula(u: Units, v: Value, x: real)
    requires AsReal(v) == Some(x)
    ensures Handle(u, "WindHiDir", v) == Success(Some(RealV(x * 22.5)))
    ensures Handle(u, "WindAvgDir", v) == Success(Some(RealV(x * 22.5)))
  {
  }

  /** ETHour: (v / 1000) * 25.4 mm. */
  lemma EvapotranspirationFormula(u: Units, v: Value, x: real)
    requires AsReal(v) == Some(x)
    ensures Handle(u, "ETHour", v) == Success(Some(RealV((x / 1000.0) * 25.4)))
  {
  }

  /** Barometer: `incConv_to_Pa(v * 1000)`. */
  lemma BarometerFormula(u: Units, v: Value, x: real)
    requires AsReal(v) == Some(x)
    ensures Handle(u, "Barometer", v) == Success(Some(RealV(u.incConvToPa(x * 1000.0))))
  {
  }

  /** Temperatures (the fields routed to `set_FinC`) go through
      `fahrenheit_to_celsius`. */
  lemma TemperatureFormula(u: Units, key: string, v: Value, x: real)
    requires key in Filters && Filters[key] == SetFinC
    requires AsReal(v) == Some(x)
    ensures Handle(u, key, v) == Success(Some(RealV(u.fahrenheitToCelsius(x))))
  {
  }

  /** Wind speeds go through `mph_to_km_hr`. */
  lemma WindSpeedFormula(u: Units, v: Value, x: real)
    requires AsReal(v) == Some(x)
    ensures Handle(u, "WindAvg", v) == Success(Some(RealV(u.mphToKmHr(x))))
    ensures Handle(u, "WindHi", v) == Success(Some(RealV(u.mphToKmHr(x))))
  {
  }

  /** Humidities are stored as the integer percentage of their reading. */
  lemma HumidityFormula(u: Units, v: Value, x: real)
    requires AsReal(v) == Some(x)
    ensures Handle(u, "HumIn", v) == Success(Some(IntV(InPercent(x))))
    ensures Handle(u, "HumOut", v) == Success(Some(IntV(InPercent(x))))
  {
  }

  /** One click is 0.2 mm, ten clicks are 2 mm, code 16 is a full turn. */
  lemma ConverterExamples(u: Units)
    ensures Handle(u, "RainRate", IntV(1)) == Success(Some(RealV(0.2)))
    ensures Handle(u, "RainRate", IntV(10)) == Success(Some(RealV(2.0)))
    ensures Handle(u, "WindAvgDir", IntV(16)) == Success(Some(RealV(360.0)))
  {
    RainFormula(u, IntV(1), 1.0);
    RainFormula(u, IntV(10), 10.0);
    WindDirectionFormula(u, IntV(16), 16.0);
  }

  /** A converter given something that is not a number raises. */
  lemma ConverterRejectsNonNumbers(u: Units, key: string, text: string)
    requires key in Filters && Filters[key] !in {SkipValue, AddParameter}
    ensures Handle(u, key, OtherV(text)) == Failure(NotNumeric(key))
  {
  }

  /** Humidity: a reading in 0..255 becomes the nearest integer percentage
      (never a tie, so the rounding direction does not matter), within 0..100. */
  lemma HumidityPercent(v: int)
    requires 0 <= v <= 255
    ensures 0 <= InPercent(v as real) <= 100
    ensures -0.5 < v as real * 100.0 / 255.0 - InPercent(v as real) as real < 0.5
  {
  }

  /** The three boundary values of the humidity conversion. */
  lemma HumidityExamples()
    ensures InPercent(0.0) == 0
    ensures InPercent(128.0) == 50
    ensures InPercent(255.0) == 100
  {
  }

  // ---------------------------------------------------------------------
  // The dispatch loop

  /** The loop completes exactly when every field's handler succeeds. */
  lemma {:induction false} PopulateSucceedsIff(u: Units, rec: RawRecord)
    ensures Populate(u, rec).Success? <==>
            forall i | 0 <= i < |rec| :: Handle(u, rec[i].0, rec[i].1).Success?
    decreases |rec|
  {
    if rec != [] {
      var n := |rec| - 1;
      PopulateSucceedsIff(u, rec[..n]);
      assert forall i | 0 <= i < n :: rec[..n][i] == rec[i];
    }
  }

  /** Once a prefix of the record has raised, the whole record raises the same error. */
  lemma {:induction false} PopulateFailurePersists(u: Units, rec: RawRecord, j: nat)
    requires j <= |rec|
    requires Populate(u, rec[..j]).Failure?
    ensures Populate(u, rec) == Populate(u, rec[..j])
    decreases |rec| - j
  {
    if j == |rec| {
      assert rec[..j] == rec;
    } else {
      var n := |rec| - 1;
      assert rec[..n][..j] == rec[..j];
      PopulateFailurePersists(u, rec[..n], j);
    }
  }

  /** The attributes set by the loop are exactly the record's stored fields,
      under their raw names. */
  lemma {:induction false} PopulateKeys(u: Units, rec: RawRecord)
    requires Populate(u, rec).Success?
    ensures Populate(u, rec).value.Keys == StoredKeys(rec)
    decreases |rec|
  {
    if rec != [] {
      var n := |rec| - 1;
      PopulateKeys(u, rec[..n]);
      var key := rec[n].0;
      if Stores(key) {
        HandleStores(u, key, rec[n].1);
      }
      StoredKeysSnoc(rec);
    }
  }

  lemma StoredKeysSnoc(rec: RawRecord)
    requires rec != []
    ensures StoredKeys(rec) ==
            StoredKeys(rec[..|rec| - 1]) + (if Stores(rec[|rec| - 1].0) then {rec[|rec| - 1].0} else {})
  {
    var n := |rec| - 1;
    var key := rec[n].0;
    forall k | k in StoredKeys(rec)
      ensures k in StoredKeys(rec[..n]) + (if Stores(key) then {key} else {})
    {
      var i :| 0 <= i < |rec| && Stores(rec[i].0) && rec[i].0 == k;
      if i < n { assert rec[..n][i] == rec[i]; }
    }
    forall k | k in StoredKeys(rec[..n]) ensures k in StoredKeys(rec) {
      var i :| 0 <= i < n && Stores(rec[..n][i].0) && rec[..n][i].0 == k;
      assert rec[..n][i] == rec[i];
    }
  }

  lemma KeptKeysSnoc(rec: RawRecord)
    requires rec != []
    ensures KeptKeys(rec) ==
            KeptKeys(rec[..|rec| - 1]) + (if Kept(rec[|rec| - 1].0) then {rec[|rec| - 1].0} else {})
  {
    var n := |rec| - 1;
    var key := rec[n].0;
    forall k | k in KeptKeys(rec)
      ensures k in KeptKeys(rec[..n]) + (if Kept(key) then {key} else {})
    {
      var i :| 0 <= i < |rec| && Kept(rec[i].0) && rec[i].0 == k;
      if i < n { assert rec[..n][i] == rec[i]; }
    }
    forall k | k in KeptKeys(rec[..n]) ensures k in KeptKeys(rec) {
      var i :| 0 <= i < n && Kept(rec[..n][i].0) && rec[..n][i].0 == k;
      assert rec[..n][i] == rec[i];
    }
  }

  /** With distinct keys, every stored field holds what its handler made of
      its own raw value. */
  lemma {:induction false} PopulateValues(u: Units, rec: RawRecord)
    requires DistinctKeys(rec)
    requires Populate(u, rec).Success?
    ensures forall i | 0 <= i < |rec| && Stores(rec[i].0) ::
              rec[i].0 in Populate(u, rec).value &&
              Handle(u, rec[i].0, rec[i].1) == Success(Some(Populate(u, rec).value[rec[i].0]))
    decreases |rec|
  {
    if rec != [] {
      var n := |rec| - 1;
      PopulateValues(u, rec[..n]);
      PopulateKeys(u, rec);
      PopulateSucceedsIff(u, rec);
      var m := Populate(u, rec).value;
      forall i | 0 <= i < |rec| && Stores(rec[i].0)
        ensures rec[i].0 in m && Handle(u, rec[i].0, rec[i].1) == Success(Some(m[rec[i].0]))
      {
        HandleStores(u, rec[i].0, rec[i].1);
        if i < n {
          assert rec[..n][i] == rec[i];
        }
      }
    }
  }

  // ---------------------------------------------------------------------
  // The constructor's promises

  /** A field missing from the table makes construction raise: no field is
      dropped unless the table routes it to `skipValue`. */
  lemma UnmappedFieldFails(u: Units, rec: RawRecord, i: int)
    requires 0 <= i < |rec| && rec[i].0 !in Filters
    ensures Normalize(u, rec).Failure?
    ensures (forall j | 0 <= j < i :: Accepted(rec[j].0, rec[j].1)) ==>
              Normalize(u, rec) == Failure(UnmappedField(rec[i].0))
  {
    PopulateSucceedsIff(u, rec);
    if forall j | 0 <= j < i :: Accepted(rec[j].0, rec[j].1) {
      PopulateSucceedsIff(u, rec[..i]);
      assert forall j | 0 <= j < i :: rec[..i][j] == rec[j];
      assert rec[..i + 1][..i] == rec[..i];
      PopulateFailurePersists(u, rec, i + 1);
    }
  }

  /** A missing time sub-field makes construction raise, with an
      AttributeError when every handler succeeded; when it is the only
      missing sub-field, the AttributeError names it. */
  lemma MissingTimeFieldFails(u: Units, rec: RawRecord, key: string)
    requires key in TimeKeys && key !in KeysOf(rec)
    ensures Normalize(u, rec).Failure?
    ensures Populate(u, rec).Success? ==> Normalize(u, rec).error.MissingTimeField?
    ensures Populate(u, rec).Success? && TimeKeys - {key} <= KeysOf(rec) ==>
              Normalize(u, rec) == Failure(MissingTimeField(key))
  {
    if Populate(u, rec).Success? {
      var m := Populate(u, rec).value;
      PopulateKeys(u, rec);
      assert key !in m;
      if TimeKeys - {key} <= KeysOf(rec) {
        forall k | k in TimeKeys - {key} ensures k in m {
          var i :| 0 <= i < |rec| && rec[i].0 == k;
          TimeFieldHandled(u, k, rec[i].1);
        }
      }
    }
  }

  /** The time sub-fields are stored as they arrive. */
  lemma TimeFieldHandled(u: Units, key: string, v: Value)
    requires key in TimeKeys
    ensures Stores(key)
    ensures Handle(u, key, v) == Success(Some(v))
  {
  }

  /** A built measure holds every stored field that is not a time sub-field,
      under its raw name and with its handler's value: no skipped field, no
      sub-field, no renaming. */
  lemma NormalizeFields(u: Units, rec: RawRecord)
    requires DistinctKeys(rec)
    requires Normalize(u, rec).Success?
    ensures Normalize(u, rec).value.fields.Keys == KeptKeys(rec)
    ensures forall i | 0 <= i < |rec| && Kept(rec[i].0) ::
              Handle(u, rec[i].0, rec[i].1) == Success(Some(Normalize(u, rec).value.fields[rec[i].0]))
  {
    PopulateKeys(u, rec);
    PopulateValues(u, rec);
  }

  /** A built measure's `time` is `datetime(Year, Month, Day, Hour, Min)` of
      the record's five sub-fields, all of which are present. */
  lemma NormalizeTime(u: Units, rec: RawRecord)
    requires DistinctKeys(rec)
    requires Normalize(u, rec).Success?
    ensures TimeKeys <= KeysOf(rec)
    ensures forall i | 0 <= i < |rec| && rec[i].0 == "Year" :: rec[i].1 == IntV(Normalize(u, rec).value.time.year)
    ensures forall i | 0 <= i < |rec| && rec[i].0 == "Month" :: rec[i].1 == IntV(Normalize(u, rec).value.time.month)
    ensures forall i | 0 <= i < |rec| && rec[i].0 == "Day" :: rec[i].1 == IntV(Normalize(u, rec).value.time.day)
    ensures forall i | 0 <= i < |rec| && rec[i].0 == "Hour" :: rec[i].1 == IntV(Normalize(u, rec).value.time.hour)
    ensures forall i | 0 <= i < |rec| && rec[i].0 == "Min" :: rec[i].1 == IntV(Normalize(u, rec).value.time.minute)
  {
    PopulateKeys(u, rec);
    PopulateValues(u, rec);
    var m := Populate(u, rec).value;
    var t := Normalize(u, rec).value.time;
    assert MakeDateTime(m["Year"], m["Month"], m["Day"], m["Hour"], m["Min"]) == Success(t);
    assert StoredKeys(rec) <= KeysOf(rec);
    forall i | 0 <= i < |rec| && rec[i].0 == "Year" ensures rec[i].1 == IntV(t.year) {
      TimeFieldHandled(u, "Year", rec[i].1);
    }
    forall i | 0 <= i < |rec| && rec[i].0 == "Month" ensures rec[i].1 == IntV(t.month) {
      TimeFieldHandled(u, "Month", rec[i].1);
    }
    forall i | 0 <= i < |rec| && rec[i].0 == "Day" ensures rec[i].1 == IntV(t.day) {
      TimeFieldHandled(u, "Day", rec[i].1);
    }
    forall i | 0 <= i < |rec| && rec[i].0 == "Hour" ensures rec[i].1 == IntV(t.hour) {
      TimeFieldHandled(u, "Hour", rec[i].1);
    }
    forall i | 0 <= i < |rec| && rec[i].0 == "Min" ensures rec[i].1 == IntV(t.minute) {
      TimeFieldHandled(u, "Min", rec[i].1);
    }
  }

  /** After a completed loop, a field routed to `addParameter` holds the
      value of its (last) record entry, and is absent when the record has none. */
  lemma {:induction false} PopulateLookup(u: Units, rec: RawRecord, key: string)
    requires Populate(u, rec).Success?
    requires key in Filters && Filters[key] == AddParameter
    ensures key in Populate(u, rec).value <==> Lookup(rec, key).Some?
    ensures key in Populate(u, rec).value ==> Populate(u, rec).value[key] == Lookup(rec, key).value
    decreases |rec|
  {
    if rec != [] {
      PopulateLookup(u, rec[..|rec| - 1], key);
    }
  }

  /** Construction succeeds exactly when every field is in the table, every
      field with a converting handler holds a number, and Year, Month, Day,
      Hour and Min are ints forming a valid date and time. */
  lemma NormalizeSucceedsIff(u: Units, rec: RawRecord)
    ensures Normalize(u, rec).Success? <==>
            (forall i | 0 <= i < |rec| :: Accepted(rec[i].0, rec[i].1)) && TimeFieldsValid(rec)
  {
    PopulateSucceedsIff(u, rec);
    if Populate(u, rec).Success? {
      assert Filters["Year"] == Filters["Month"] == Filters["Day"] == AddParameter;
      assert Filters["Hour"] == Filters["Min"] == AddParameter;
      PopulateLookup(u, rec, "Year");
      PopulateLookup(u, rec, "Month");
      PopulateLookup(u, rec, "Day");
      PopulateLookup(u, rec, "Hour");
      PopulateLookup(u, rec, "Min");
    }
  }

  /** Identity-routed fields keep their raw value. */
  lemma IdentityFieldsUnchanged(u: Units, rec: RawRecord, i: int)
    requires DistinctKeys(rec)
    requires Normalize(u, rec).Success?
    requires 0 <= i < |rec| && rec[i].0 in IdentityKeys
    ensures rec[i].0 in Normalize(u, rec).value.fields
    ensures Normalize(u, rec).value.fields[rec[i].0] == rec[i].1
  {
    var key := rec[i].0;
    IdentityTable();
    NormalizeFields(u, rec);
    HandleStores(u, key, rec[i].1);
  }

  /** With distinct keys, the kept fields are counted by CountKept. */
  lemma {:induction false} KeptKeysCount(rec: RawRecord)
    requires DistinctKeys(rec)
    ensures |KeptKeys(rec)| == CountKept(rec)
    decreases |rec|
  {
    if rec != [] {
      var n := |rec| - 1;
      KeptKeysCount(rec[..n]);
      KeptKeysSnoc(rec);
    }
  }

  /** The field map has one entry per record field that is neither skipped
      nor a time sub-field. */
  lemma FieldCount(u: Units, rec: RawRecord)
    requires DistinctKeys(rec)
    requires Normalize(u, rec).Success?
    ensures |Normalize(u, rec).value.fields| == CountKept(rec)
  {
    NormalizeFields(u, rec);
    KeptKeysCount(rec);
  }

  /** A built object holds no `time` attribute besides its `time`, so
      `jsonify` turns every one of its attributes into a field. */
  lemma ValidHasNoTime(m: VantageMeasure)
    requires m.Valid()
    ensures "time" !in m.attrs
    ensures m.attrs - {"time"} == m.attrs
  {
    NoTimeField();
  }

  // ---------------------------------------------------------------------
  // The object

  /** A VantageMeasure: the attributes its handlers set, and `time`. */
  class VantageMeasure {
    var attrs: map<string, Value>
    var time: DateTime

    /** After construction only kept fields remain as attributes. */
    ghost predicate Valid()
      reads this
    {
      forall k | k in attrs :: Kept(k)
    }

    /** The object before the constructor's loop has run. */
    constructor Empty()
      ensures attrs == map[]
    {
      attrs := map[];
      time := DateTime(MinYear, 1, 1, 0, 0);
    }

    /** `addParameter`: set the attribute `measure`. */
    method AddParameter(measure: string, value: Value)
      modifies this
      ensures attrs == old(attrs)[measure := value] && time == old(time)
    {
      attrs := attrs[measure := value];
    }

    /** `filters[measure](measure, value)`: run the field's handler. */
    method ApplyFilter(u: Units, measure: string, value: Value) returns (err: Option<NormError>)
      modifies this
      ensures err == (if Handle(u, measure, value).Failure? then Some(Handle(u, measure, value).error) else None)
      ensures attrs == (match Handle(u, measure, value)
                        case Success(Some(w)) => old(attrs)[measure := w]
                        case _ => old(attrs))
      ensures time == old(time)
    {
      if measure !in Filters {
        return Some(UnmappedField(measure));
      }
      match Convert(u, Filters[measure], value)
      case Skip =>
        err := None;  // skipValue only logs
      case NotANumber =>
        err := Some(NotNumeric(measure));
      case Store(w) =>
        AddParameter(measure, w);
        err := None;
    }

    /** `VantageMeasure(archiveRecord)`: dispatch every field, fold the five
        sub-fields into `time` and delete them; raises as Normalize says. */
    static method Create(u: Units, record: RawRecord) returns (r: Result<VantageMeasure, NormError>)
      ensures r.Success? <==> Normalize(u, record).Success?
      ensures r.Failure? ==> r.error == Normalize(u, record).error
      ensures r.Success? ==>
                && fresh(r.value)
                && r.value.Valid()
                && r.value.attrs == Normalize(u, record).value.fields
                && r.value.time == Normalize(u, record).value.time
    {
      var m := new VantageMeasure.Empty();
      var i := 0;
      while i < |record|
        invariant 0 <= i <= |record|
        invariant Populate(u, record[..i]) == Success(m.attrs)
      {
        var measure, value := record[i].0, record[i].1;
        var err := m.ApplyFilter(u, measure, value);
        assert record[..i + 1][..i] == record[..i];
        if err.Some? {
          PopulateFailurePersists(u, record, i + 1);
          return Failure(err.value);
        }
        i := i + 1;
      }
      assert record[..i] == record;
      PopulateKeys(u, record);
      var err := m.CompressTime();
      if err.Some? {
        return Failure(err.value);
      }
      return Success(m);
    }

    /** Fold Year, Month, Day, Hour and Min into `time` and delete the five
        attributes; raises as SynthesizeTime says. */
    method CompressTime() returns (err: Option<NormError>)
      modifies this
      ensures err == (if SynthesizeTime(old(attrs)).Failure? then Some(SynthesizeTime(old(attrs)).error) else None)
      ensures err.Some? ==> attrs == old(attrs) && time == old(time)
      ensures err.None? ==> time == SynthesizeTime(old(attrs)).value && attrs == old(attrs) - TimeKeys
    {
      if "Year" !in attrs { return Some(MissingTimeField("Year")); }
      if "Month" !in attrs { return Some(MissingTimeField("Month")); }
      if "Day" !in attrs { return Some(MissingTimeField("Day")); }
      if "Hour" !in attrs { return Some(MissingTimeField("Hour")); }
      if "Min" !in attrs { return Some(MissingTimeField("Min")); }
      var t := MakeDateTime(attrs["Year"], attrs["Month"], attrs["Day"], attrs["Hour"], attrs["Min"]);
      if t.Failure? {
        return Some(t.error);
      }
      time := t.value;
      attrs := attrs - {"Year"};
      attrs := attrs - {"Month"};
      attrs := attrs - {"Day"};
      attrs := attrs - {"Hour"};
      attrs := attrs - {"Min"};
      return None;
    }

    /** `jsonify`: one wide point whose fields are every attribute but
        `time`, with `time` shifted from the source timezone to UTC by
        `toUtc`. The object's `__dict__` has one `time` entry, its `time`. */
    method Jsonify(toUtc: DateTime -> DateTime, measurement: string := "Vantage") returns (json: Point)
      ensures json.measurement == measurement
      ensures json.fields == attrs - {"time"}
      ensures json.time == toUtc(time)
    {
      var dict := attrs;
      var fields: map<string, Value> := map[];
      var jsonTime: Option<DateTime> := None;
      var todo := dict.Keys + {"time"};  // the keys of the object's __dict__
      while todo != {}
        invariant todo <= dict.Keys + {"time"}
        invariant forall k :: k in fields <==> k in dict && k != "time" && k !in todo
        invariant forall k | k in fields :: fields[k] == dict[k]
        invariant "time" !in todo ==> jsonTime == Some(toUtc(time))
        decreases |todo|
      {
        var attribute :| attribute in todo;
        if attribute == "time" {
          jsonTime := Some(toUtc(time));
        } else {
          fields := fields[attribute := dict[attribute]];
        }
        todo := todo - {attribute};
      }
      json := Point(measurement, jsonTime.value, fields);
    }
  }
}
