# vantage2influxdb in Dafny

A model of the two files that move Davis Vantage Pro weather-station archive records into InfluxDB.

**`VantageEntity`** (vantage_entity.dfy) models the `VantageMeasure` class.
- Its constructor routes every raw field of an archive record through a 38-entry filter table. A field is either converted to SI units, stored as it comes, or skipped (only logged).
- It then folds the Year/Month/Day/Hour/Min sub-fields into one `time` value and deletes them.
- `jsonify` builds one wide InfluxDB point from the object.

The constructor is modelled twice:
- as the function `Normalize`, which is pure and states every error the constructor can raise on finite readings (unknown field, non-numeric value for a converter, missing time sub-field, invalid date);
- as the class `VantageMeasure`, whose methods update its attribute map step by step as the Python object does. Its methods are proved against the functions.

**`VantageDaemon`** (vantage_daemon.dfy) models the daemon's `__main__` loop.
- The `stationConnected` flag decides when the connect-and-resume handshake runs.
- The resume query depends on the measure name ('auto'/'Auto' versus any other).
- When the database holds no point, the daemon falls back to downloading the whole console buffer.
- The two `except` clauses: NoDeviceException waits 30 seconds, a socket error does not wait, and both drop the flag.
- The daemon calls `write_points` once per clean pass.
- The sleeps that align the next pass to a five-minute boundary.
- What the collaborators (console, database, clock) answer during one pass is a `Cycle` value. What the daemon does is a trace of `Event`s.
- The class `Daemon` runs one pass per `RunCycle` call. The function `Step` specifies that pass.

Supporting files:
- wrappers.dfy holds `Option` and `Result`.
- py_datetime.dfy holds the range checks of Python's `datetime` constructor.

The resume step catches only `IndexError`, which an empty query result raises. So only that case falls back to a full download; an unparsable stored time is not caught.

## Model

| member | source | states |
|---|---|---|
| VantageEntity.RoundHalfAway | vantageEntity.py:126 | Python 2 `round`: the result is within one half of the input, and halves go away from zero |
| VantageEntity.RainInMm | vantageEntity.py:109-117 | the stored millimetres are a fifth of the clicks (0.2 mm per click), never negative for a non-negative count |
| VantageEntity.InPercent | vantageEntity.py:119-126 | `int(round(v*100.0/255))`: within one half of v·100/255, and in 0..100 for a reading in 0..255 |
| VantageEntity.WindCodeInDeg | vantageEntity.py:137-144 | the degrees divided by 22.5 give back the code; codes 0..15 land in 0..337.5 degrees |
| VantageEntity.MilliinInMm | vantageEntity.py:146-149 | the millimetres converted back to milli-inches give the reading; non-negative for a non-negative reading |
| VantageEntity.Convert | vantageEntity.py:62-149 | a handler skips exactly when it is `skipValue`, fails exactly when it converts and the value is not a number, and `addParameter` stores the raw value |
| VantageEntity.Handle | vantageEntity.py:52-53 | `filters[measure](measure, value)` succeeds exactly when the field is in the table and a converting handler gets a number; otherwise KeyError (unmapped) or TypeError (not numeric); it stores nothing exactly for `skipValue` |
| VantageEntity.Populate | vantageEntity.py:52-53 | the dispatch loop raises only KeyError (unmapped field) or TypeError (non-numeric value) |
| VantageEntity.MakeDateTime | vantageEntity.py:55 | `dt.datetime(...)` succeeds on five ints forming a valid date and time, and returns a value whose fields are those ints; otherwise it raises |
| VantageEntity.SynthesizeTime | vantageEntity.py:55 | `time` is built only when all five sub-fields are present, from their int values; a missing one raises AttributeError naming a missing sub-field, and with all present the only error is an invalid date |
| VantageEntity.Normalize | vantageEntity.py:8-60 | a built measure has a valid `time` and none of the five sub-fields as attributes |
| VantageEntity.SkipTable | vantageEntity.py:10-50 | the eleven fields WindSamps, ForecastRuleNo, LeafTemps, LeafWetness, SoilTemps, RecType, ExtraHum, ExtraTemps, SoilMoist, DateStamp and TimeStamp are in the table and routed to `skipValue` |
| VantageEntity.IdentityTable | vantageEntity.py:10-50 | SolarRad, UV, SolarRadHi, UVHi and DateStampUtc are routed to `addParameter` and are not time sub-fields |
| VantageEntity.SkipOnly | vantageEntity.py:10-50 | no field outside those eleven is routed to `skipValue` |
| VantageEntity.AddParameterOnly | vantageEntity.py:10-50 | the only fields routed to `addParameter` are the five identity fields and the five time sub-fields |
| VantageEntity.SkipRouting | vantageEntity.py:10-50 | a table field is skipped if and only if it is one of the eleven |
| VantageEntity.AddParameterRouting | vantageEntity.py:10-50 | a table field is stored unchanged if and only if it is an identity field or a time sub-field |
| VantageEntity.NoTimeField | vantageEntity.py:10-50 | no raw field is called `time`, so the synthesized attribute never collides with a record field |
| VantageEntity.HandleStores | vantageEntity.py:52-53 | a field routed to anything but `skipValue` is stored whenever its handler succeeds; `addParameter` stores the raw value unchanged |
| VantageEntity.RainFormula | vantageEntity.py:109-117 | for an int or a float reading, RainRate and RainRateHi store clicks × 0.2 mm |
| VantageEntity.WindDirectionFormula | vantageEntity.py:137-144 | for an int or a float reading, WindHiDir and WindAvgDir store code × 22.5 degrees |
| VantageEntity.EvapotranspirationFormula | vantageEntity.py:146-149 | for an int or a float reading, ETHour stores (v / 1000) × 25.4 mm |
| VantageEntity.BarometerFormula | vantageEntity.py:99-107 | for an int or a float reading, Barometer stores `incConv_to_Pa(v × 1000)` |
| VantageEntity.TemperatureFormula | vantageEntity.py:90-97 | every field routed to `set_FinC` stores `fahrenheit_to_celsius` of its int or float reading |
| VantageEntity.WindSpeedFormula | vantageEntity.py:128-135 | WindAvg and WindHi store `mph_to_km_hr` of their int or float reading |
| VantageEntity.HumidityFormula | vantageEntity.py:119-126 | HumIn and HumOut store the integer percentage `InPercent` of their int or float reading |
| VantageEntity.ConverterExamples | vantageEntity.py:109-144 | one rain click is 0.2 mm, ten clicks are 2 mm, wind code 16 is 360 degrees |
| VantageEntity.ConverterRejectsNonNumbers | vantageEntity.py:90-149 | every converting handler raises (TypeError) on a value that is not a number |
| VantageEntity.HumidityPercent | vantageEntity.py:119-126 | a reading in 0..255 becomes a percentage in 0..100 that is strictly nearest to v·100/255 |
| VantageEntity.HumidityExamples | vantageEntity.py:119-126 | 0 → 0 %, 128 → 50 %, 255 → 100 % |
| VantageEntity.PopulateSucceedsIff | vantageEntity.py:52-53 | the dispatch loop completes if and only if every field's handler succeeds |
| VantageEntity.PopulateFailurePersists | vantageEntity.py:52-53 | the first field that raises decides the constructor's error, whatever follows it |
| VantageEntity.PopulateKeys | vantageEntity.py:52-53 | the attributes set by the loop are exactly the record's stored (non-skipped) fields, under their raw names |
| VantageEntity.PopulateValues | vantageEntity.py:52-53 | every stored field holds what its own handler made of its own raw value |
| VantageEntity.UnmappedFieldFails | vantageEntity.py:10-53 | a field missing from the table makes construction raise; when every field before it is accepted, the error is the KeyError for that field |
| VantageEntity.MissingTimeFieldFails | vantageEntity.py:55 | a record without one of Year/Month/Day/Hour/Min cannot be built; once every handler has succeeded, the error is an AttributeError, and it names that sub-field when it is the only one missing |
| VantageEntity.TimeFieldHandled | vantageEntity.py:40-44 | the five time sub-fields are stored as they arrive |
| VantageEntity.NormalizeFields | vantageEntity.py:52-60 | a built measure's attributes are exactly the stored fields that are not time sub-fields, each with its handler's value |
| VantageEntity.NormalizeTime | vantageEntity.py:55 | a built measure's `time` is `datetime(Year, Month, Day, Hour, Min)` of the record's own sub-field values, all of which are present |
| VantageEntity.PopulateLookup | vantageEntity.py:52-53 | after the loop, a field routed to `addParameter` is an attribute exactly when the record has it, holding the record's value |
| VantageEntity.NormalizeSucceedsIff | vantageEntity.py:8-60 | construction succeeds if and only if every field is in the table, every field with a converting handler holds a number, and Year, Month, Day, Hour and Min are ints forming a valid date and time |
| VantageEntity.IdentityFieldsUnchanged | vantageEntity.py:10-53 | SolarRad, UV, SolarRadHi, UVHi and DateStampUtc reach the object with their raw value |
| VantageEntity.FieldCount | vantageEntity.py:52-60 | the object has one attribute per record field that is neither skipped nor a time sub-field |
| VantageEntity.ValidHasNoTime | vantageEntity.py:72-87 | a built object has no attribute named `time` besides its `time`, so `jsonify` makes a field of every other attribute |
| VantageEntity.VantageMeasure.Empty | vantageEntity.py:8 | a new object has no attributes |
| VantageEntity.VantageMeasure.AddParameter | vantageEntity.py:70-71 | `addParameter` sets one attribute and changes nothing else |
| VantageEntity.VantageMeasure.ApplyFilter | vantageEntity.py:52-53 | one `filters[measure](measure, value)` call: the handler's error is returned, or the converted value is stored under `measure`, or nothing changes (`skipValue`, lines 62-68) |
| VantageEntity.VantageMeasure.Create | vantageEntity.py:8-60 | building the object succeeds exactly when `Normalize` does, with the same error otherwise; a built object holds only kept fields, with `Normalize`'s attributes and time |
| VantageEntity.VantageMeasure.CompressTime | vantageEntity.py:55-60 | `time` becomes the datetime of the five sub-fields, which are then deleted; on a missing or invalid sub-field it raises, leaving the object as it was |
| VantageEntity.VantageMeasure.Jsonify | vantageEntity.py:73-87 | the point has the given measurement name (default "Vantage"), all attributes but `time` as fields, and `time` shifted to UTC |
| VantageDaemon.ModeSelection | vantageDaemon.py:66-69 | 'auto' and 'Auto' resume from the newest Barometer point; any other name resumes from that measurement |
| VantageDaemon.Handshake | vantageDaemon.py:62-84 | the handshake starts with the connect; it raises exactly when the connect raises, or when there is a stored point and `setArchiveTime` raises, and it raises that fault |
| VantageDaemon.Poll | vantageDaemon.py:85-105 | the parse raises exactly when `console.parse()` does, and then nothing but the parse has happened |
| VantageDaemon.Step | vantageDaemon.py:60-112 | the flag is up after a pass if and only if the pass raised nothing |
| VantageDaemon.Batch | vantageDaemon.py:87-95 | outside the auto mode the batch has one point per record |
| VantageDaemon.SleepPlan | vantageDaemon.py:99-105 | one to five sleeps; they end on the first later minute that is a multiple of 5, and on no multiple of 5 before it |
| VantageDaemon.ResumeFallback | vantageDaemon.py:63-83 | the handshake connects and then queries; with no stored point the console is never given an archive time; otherwise it is given that point's local time |
| VantageDaemon.HandshakeOnlyWhenDisconnected | vantageDaemon.py:59-85 | a pass with the flag down starts with the whole handshake; a pass with the flag up starts with the parse and contains no handshake action |
| VantageDaemon.PollEvents | vantageDaemon.py:85-105 | after the handshake the daemon only parses, writes and sleeps, starting with the parse |
| VantageDaemon.FaultHandling | vantageDaemon.py:106-112 | NoDeviceException ends the pass with a 30-second sleep, the pass's only sleep; a socket error leaves without sleeping |
| VantageDaemon.WritesOfCleanPass | vantageDaemon.py:85-97 | a pass that raises nothing writes exactly one batch, that of all parsed records |
| VantageDaemon.WritesOfFailedPass | vantageDaemon.py:106-112 | a pass that raises writes nothing |
| VantageDaemon.OneWritePerCycle | vantageDaemon.py:85-112 | `write_points` is called once, with the whole batch, on a clean pass and never on a failed one |
| VantageDaemon.ClockNeverTouched | vantageDaemon.py:60-112 | the loop neither reads nor sets the console clock |
| VantageDaemon.FaultRecovery | vantageDaemon.py:60-112 | NoDeviceException on the first pass and a clean second pass: one 30-second wait, the flag back up, and exactly one write |
| VantageDaemon.SetConsoleTime | vantageDaemon.py:41-49 | reads the console clock and warns about the drift, never sets it |
| VantageDaemon.WideBatch | vantageDaemon.py:87-95 | outside the auto mode the i-th point of the batch is the wide point of the i-th record |
| VantageDaemon.BatchPrefix | vantageDaemon.py:87-95 | the points of any first part of the records are a prefix of the batch |
| VantageDaemon.BatchOrder | vantageDaemon.py:87-95 | every record's points appear in the batch, right after those of the records before it |
| VantageDaemon.ExtraSleepsShape | vantageDaemon.py:102-105 | the loop adds one-minute sleeps until the first five-minute mark, and stops there |
| VantageDaemon.PlanPrefixTotal | vantageDaemon.py:99-105 | the first k sleeps add up to 60 − second + 60·(k − 1) |
| VantageDaemon.SleepAlignment | vantageDaemon.py:99-105 | the first sleep is 60 − second (1..60) and the others 60; the k-th sleep ends at minute `minute + k` |
| VantageDaemon.SleepPlanExample | vantageDaemon.py:99-105 | a write at 10:07:32 sleeps 28, 60 and 60 seconds |
| VantageDaemon.AlignSleeps | vantageDaemon.py:99-105 | the sleep loop, run on a clock that advances exactly by each sleep, performs the planned sleeps |
| VantageDaemon.BuildBatch | vantageDaemon.py:87-96 | the `json` list the loop builds is the batch: `extend` with each record's rows in auto mode, `append` its wide point otherwise |
| VantageDaemon.Daemon.constructor | vantageDaemon.py:59 | the daemon starts disconnected, with an empty trace |
| VantageDaemon.Daemon.Reconnect | vantageDaemon.py:62-84 | the inner `while not stationConnected` loop performs the handshake; it raises the handshake's fault, or raises the flag |
| VantageDaemon.Daemon.PollConsole | vantageDaemon.py:85-105 | parse, write and sleeps as specified, leaving the flag alone |
| VantageDaemon.Daemon.RunCycle | vantageDaemon.py:60-112 | one pass of `while True` sets the flag and extends the trace as `Step` specifies |

## Left out

- Logging, `print` and the InfluxDB client set-up (`InfluxDBClient`, `create_database`) are left out; they do not affect the data.
- VantageEntity.ConverterRejectsNonNumbers: the model takes a non-number given to any converting handler to raise TypeError. For `set_FinC` and `set_mph_in_kph` that depends on the PyWeather functions, which are not part of this model. For `set_minHg_in_Pa` a string times 1000 is a repeated string, and whether `incConv_to_Pa` then raises is not part of this model either.
- The PyWeather unit functions `fahrenheit_to_celsius`, `incConv_to_Pa` and `mph_to_km_hr` are parameters (`Units`). Their constants live in PyWeather, which is not part of this model.
- Arithmetic is exact over reals; floating-point rounding is not modelled. Non-finite readings (infinity, NaN) are not modelled either: for them `int(round(...))` in `set_in_percent` raises OverflowError or ValueError, which `Normalize` does not list. `HumidityPercent` states the strict-nearest property, which holds for every reading in 0..255.
- Python 2 dict iteration order is arbitrary, so a record is a sequence whose order is an input. Statements about values assume the record has distinct keys, as a dict does.
- VantageEntity.VantageMeasure.Jsonify: the time-zone shift (`replace(tzinfo=...)` then `astimezone(UTC)`, including pytz's local-mean-time quirk with `replace`) is an opaque function `toUtc`. `isoformat` strings are kept as `DateTime` values.
- The daemon's calls into vantageEntity.py do not match that file:
  - `VantageMeasure(record, LOCAL_TZ)` passes two arguments to a one-argument constructor;
  - `jsonify_by_row` does not exist;
  - `jsonify(MEASURE_NAME)` passes the name as the time zone.

  The per-record point producers are therefore configuration functions (`Config.rowPoints`, `Config.widePoint`).
- Exceptions that escape the loop end the daemon. They are not modelled. This covers:
  - query and write failures (the database client does not raise `socket.error`);
  - an unparsable stored time;
  - errors raised by the per-record conversion.
- The daemon's resume time: `duParser.parse` of the stored time and `astimezone(LOCAL_TZ)` are one opaque function `Config.toLocal` on `DateTime` values. The string format and the time-zone arithmetic are not modelled.
- VantageDaemon.AlignSleeps: the clock is idealised; each sleep ends exactly on the minute it aims at. A real clock that drifts by a second is not modelled.
- The infinite `while True` is modelled one pass per `RunCycle` call; the flag carries over between calls in the object.
- `ARCHIVE_INTERVAL` is passed to the console; it is not modelled. The alignment uses the literal 5 the code uses.
- test.py is not part of this model.
