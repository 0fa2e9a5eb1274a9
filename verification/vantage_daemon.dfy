/** The decision logic of vantageDaemon.py: which measurement the resume
    query reads, whether the console is told where to resume, the
    `stationConnected` flag that decides when the connect-and-resume
    handshake runs, how each caught fault is handled, the batch written per
    cycle, and the sleeps that align the next cycle to a five-minute
    boundary. All I/O is abstracted: what the collaborators answer in one
    pass of the outer loop is a `Cycle` value, and what the daemon does is
    a trace of `Event`s. */
module VantageDaemon {
  import opened Wrappers
  import opened PyDateTime
  import opened VantageEntity

  /** The two exceptions the outer loop catches. */
  datatype Fault = NoDeviceException | SocketError

  /** The daemon's actions on its collaborators, in the order it takes them. */
  datatype Event =
    | Connect                                      // VantagePro(IP, PORT, ARCHIVE_INTERVAL)
    | Query(text: string)                          // client.query(...)
    | SetArchiveTime(start: DateTime)              // console.setArchiveTime(ts)
    | Parse                                        // console.parse()
    | WritePoints(points: seq<Point>)              // client.write_points(json)
    | Sleep(seconds: int)                          // time.sleep(...)
    | GetTime                                      // console.getTime()
    | SetTime(time: DateTime)                      // console.setTime(...)
    | DriftWarning(console: DateTime, now: DateTime)  // the "fix time!" warning

  type Minute = m: int | 0 <= m < 60
  type Second = s: int | 0 <= s < 60

  /** What the collaborators answer during one pass of the outer loop. */
  datatype Cycle = Cycle(
    connect: Option<Fault>,                // VantagePro(...) raises, or connects
    latest: Option<DateTime>,              // time of the newest stored point; None: no rows (IndexError)
    setArchive: Option<Fault>,             // console.setArchiveTime(ts) raises, or not
    parse: Result<seq<RawRecord>, Fault>,  // console.fields after console.parse(), or its fault
    minute: Minute,                        // wall clock read after write_points
    second: Second)

  /** The daemon's configuration and the collaborators it cannot see:
      `toLocal` is `astimezone(LOCAL_TZ)` of the stored (UTC) time, and the
      two producers turn one archive record into points for the
      per-parameter and the single-measurement path. */
  datatype Config = Config(
    measureName: string,
    toLocal: DateTime -> DateTime,
    rowPoints: RawRecord -> seq<Point>,
    widePoint: RawRecord -> Point)

  /** The delay after a NoDeviceException, in seconds. */
  const NoDeviceRetryDelay := 30

  // ---------------------------------------------------------------------
  // Mode selection and resume point

  /** `MEASURE_NAME == 'auto' or MEASURE_NAME == 'Auto'`: one row per parameter. */
  predicate IsAutoMode(measureName: string) {
    measureName == "auto" || measureName == "Auto"
  }

  /** The measurement whose newest point gives the resume time. */
  function ResumeMeasurement(measureName: string): string {
    if IsAutoMode(measureName) then "Barometer" else measureName
  }

  function ResumeQuery(measureName: string): string {
    "select * from " + ResumeMeasurement(measureName) + " order by time DESC limit 1"
  }

  /** The archive start pushed to the console: none when the query returned
      no rows, so the console delivers its whole buffer. */
  function ResumePoint(cfg: Config, latest: Option<DateTime>): Option<DateTime> {
    match latest
    case None => None
    case Some(t) => Some(cfg.toLocal(t))
  }

  // ---------------------------------------------------------------------
  // One pass of the outer loop, as a function

  /** The actions of a stage and whether it raised. */
  datatype Stage = Completed(events: seq<Event>) | Raised(events: seq<Event>, fault: Fault)

  /** The body of `while not stationConnected`. */
  function Handshake(cfg: Config, c: Cycle): (s: Stage)
    ensures |s.events| >= 1 && s.events[0] == Connect
    ensures s.Raised? <==> c.connect.Some? || (c.latest.Some? && c.setArchive.Some?)
    ensures s.Raised? ==> s.fault == if c.connect.Some? then c.connect.value else c.setArchive.value
  {
    if c.connect.Some? then Raised([Connect], c.connect.value)
    else
      var asked := [Connect, Query(ResumeQuery(cfg.measureName))];
      match ResumePoint(cfg, c.latest)
      case None => Completed(asked)
      case Some(ts) =>
        if c.setArchive.Some? then Raised(asked + [SetArchiveTime(ts)], c.setArchive.value)
        else Completed(asked + [SetArchiveTime(ts)])
  }

  /** The points one record contributes: `extend` with its rows, or `append` its wide point. */
  function PointsOf(cfg: Config, record: RawRecord): seq<Point> {
    if IsAutoMode(cfg.measureName) then cfg.rowPoints(record) else [cfg.widePoint(record)]
  }

  /** The `json` list written in one cycle. */
  function Batch(cfg: Config, records: seq<RawRecord>): (points: seq<Point>)
    ensures !IsAutoMode(cfg.measureName) ==> |points| == |records|
    decreases |records|
  {
    if records == [] then []
    else Batch(cfg, records[..|records| - 1]) + PointsOf(cfg, records[|records| - 1])
  }

  /** The loop's exit test `now().minute % 5 == 0`, on minutes counted on
      past the hour (60 is a multiple of 5, so the count may run past 59). */
  predicate OnFiveMinuteMark(minute: int) {
    minute % 5 == 0
  }

  /** The extra one-minute sleeps from minute `m` until a five-minute mark. */
  function ExtraSleeps(m: int): seq<int>
    decreases (5 - m % 5) % 5
  {
    if OnFiveMinuteMark(m) then [] else [60] + ExtraSleeps(m + 1)
  }

  /** The sleeps after a write at `minute:second`, on a clock that advances
      exactly by each sleep. */
  function SleepPlan(minute: Minute, second: Second): (plan: seq<int>)
    ensures 1 <= |plan| <= 5
    ensures OnFiveMinuteMark(minute + |plan|)
    ensures forall n | minute < n < minute + |plan| :: !OnFiveMinuteMark(n)
  {
    ExtraSleepsShape(minute + 1);
    [60 - second] + ExtraSleeps(minute + 1)
  }

  /** One `time.sleep` per planned delay. */
  function Sleeps(plan: seq<int>): seq<Event>
    decreases |plan|
  {
    if plan == [] then [] else [Sleep(plan[0])] + Sleeps(plan[1..])
  }

  /** Console parse, batch write and the aligned sleeps. */
  function Poll(cfg: Config, c: Cycle): (s: Stage)
    ensures s.Raised? <==> c.parse.Failure?
    ensures s.Raised? ==> s.fault == c.parse.error && s.events == [Parse]
  {
    match c.parse
    case Failure(f) => Raised([Parse], f)
    case Success(records) =>
      Completed([Parse, WritePoints(Batch(cfg, records))] + Sleeps(SleepPlan(c.minute, c.second)))
  }

  /** The `except` clauses. */
  function Recovery(f: Fault): seq<Event> {
    match f
    case NoDeviceException => [Sleep(NoDeviceRetryDelay)]
    case SocketError => []
  }

  /** The flag and the actions after one pass. */
  datatype After = After(connected: bool, events: seq<Event>)

  /** The handshake when the flag is down; nothing when it is up. */
  function ShakeOf(cfg: Config, connected: bool, c: Cycle): Stage {
    if connected then Completed([]) else Handshake(cfg, c)
  }

  /** One pass of `while True`: the flag is up afterwards exactly when the
      pass raised nothing. */
  function Step(cfg: Config, connected: bool, c: Cycle): (a: After)
    ensures a.connected <==> FaultOf(cfg, connected, c).None?
  {
    match ShakeOf(cfg, connected, c)
    case Raised(shake, f) => After(false, shake + Recovery(f))
    case Completed(shake) =>
      match Poll(cfg, c)
      case Raised(poll, f) => After(false, shake + poll + Recovery(f))
      case Completed(poll) => After(true, shake + poll)
  }

  /** The fault a pass raises, if any. */
  function FaultOf(cfg: Config, connected: bool, c: Cycle): Option<Fault> {
    if !connected && Handshake(cfg, c).Raised? then Some(Handshake(cfg, c).fault)
    else if c.parse.Failure? then Some(c.parse.error)
    else None
  }

  /** The batches of the `write_points` calls among `events`, in order. */
  function Writes(events: seq<Event>): seq<seq<Point>>
    decreases |events|
  {
    if events == [] then []
    else Writes(events[..|events| - 1]) +
         (if events[|events| - 1].WritePoints? then [events[|events| - 1].points] else [])
  }

  /** `setConsoleTime`: read the console clock and warn. The comparison uses
      `is not` between two freshly built strings, which is always true, so
      the warning is logged whatever the drift; `setTime` is commented out. */
  function SetConsoleTime(consoleTime: DateTime, now: DateTime): (events: seq<Event>)
    ensures GetTime in events && DriftWarning(consoleTime, now) in events
    ensures forall e | e in events :: !e.SetTime?
  {
    [GetTime, DriftWarning(consoleTime, now)]
  }

  // ---------------------------------------------------------------------
  // Properties

  /** 'auto' and 'Auto' resume from Barometer; any other name resumes from
      that measurement. */
  lemma ModeSelection(measureName: string)
    ensures IsAutoMode(measureName) ==>
              ResumeQuery(measureName) == "select * from Barometer order by time DESC limit 1"
    ensures !IsAutoMode(measureName) ==>
              ResumeQuery(measureName) == "select * from " + measureName + " order by time DESC limit 1"
  {
  }

  /** Outside the auto mode, one wide point per record, in record order. */
  lemma {:induction false} WideBatch(cfg: Config, records: seq<RawRecord>)
    requires !IsAutoMode(cfg.measureName)
    ensures forall i | 0 <= i < |records| :: Batch(cfg, records)[i] == cfg.widePoint(records[i])
    decreases |records|
  {
    if records != [] {
      var n := |records| - 1;
      WideBatch(cfg, records[..n]);
      assert forall i | 0 <= i < n :: records[..n][i] == records[i];
    }
  }

  /** The points of an earlier part of the records stay a prefix of the batch. */
  lemma {:induction false} BatchPrefix(cfg: Config, records: seq<RawRecord>, j: nat)
    requires j <= |records|
    ensures Batch(cfg, records[..j]) <= Batch(cfg, records)
    decreases |records| - j
  {
    if j == |records| {
      assert records[..j] == records;
    } else {
      var n := |records| - 1;
      assert records[..n][..j] == records[..j];
      BatchPrefix(cfg, records[..n], j);
    }
  }

  /** The batch holds every record's points, in `console.fields` order: the
      points of record i come right after those of the records before it. */
  lemma BatchOrder(cfg: Config, records: seq<RawRecord>, i: int)
    requires 0 <= i < |records|
    ensures Batch(cfg, records[..i]) + PointsOf(cfg, records[i]) <= Batch(cfg, records)
  {
    assert records[..i + 1][..i] == records[..i];
    BatchPrefix(cfg, records, i + 1);
  }

  /** Actions of the connect-and-resume handshake. */
  predicate HandshakeEvent(e: Event) {
    e.Connect? || e.Query? || e.SetArchiveTime?
  }

  /** Without a stored point the console is never told where to resume;
      with one, it is told that point in local time, after the query for
      the mode's measurement. */
  lemma ResumeFallback(cfg: Config, c: Cycle)
    requires c.connect.None?
    ensures Handshake(cfg, c).events[..2] == [Connect, Query(ResumeQuery(cfg.measureName))]
    ensures c.latest.None? ==>
              Handshake(cfg, c).Completed? &&
              forall e | e in Handshake(cfg, c).events :: !e.SetArchiveTime?
    ensures c.latest.Some? ==>
              Handshake(cfg, c).events[|Handshake(cfg, c).events| - 1] ==
              SetArchiveTime(cfg.toLocal(c.latest.value))
  {
  }

  lemma {:induction false} SleepsOnlySleep(plan: seq<int>)
    ensures forall e | e in Sleeps(plan) :: e.Sleep?
    decreases |plan|
  {
    if plan != [] {
      SleepsOnlySleep(plan[1..]);
    }
  }

  /** The second stage starts with the parse and does nothing but parse,
      write and sleep. */
  lemma PollEvents(cfg: Config, c: Cycle)
    ensures |Poll(cfg, c).events| > 0 && Poll(cfg, c).events[0] == Parse
    ensures forall e | e in Poll(cfg, c).events :: e.Parse? || e.WritePoints? || e.Sleep?
  {
    SleepsOnlySleep(SleepPlan(c.minute, c.second));
  }

  /** The handshake runs exactly when the flag is down: a disconnected pass
      starts with the handshake, a connected one with the parse and without
      any handshake action. */
  lemma HandshakeOnlyWhenDisconnected(cfg: Config, connected: bool, c: Cycle)
    ensures !connected ==> Handshake(cfg, c).events <= Step(cfg, connected, c).events
    ensures !connected ==> Step(cfg, connected, c).events[0] == Connect
    ensures connected ==> Step(cfg, connected, c).events[0] == Parse
    ensures connected ==> forall e | e in Step(cfg, connected, c).events :: !HandshakeEvent(e)
  {
    PollEvents(cfg, c);
    var poll := Poll(cfg, c);
    var events := Step(cfg, connected, c).events;
    if connected {
      if poll.Raised? {
        assert events == poll.events + Recovery(poll.fault);
      } else {
        assert events == poll.events;
      }
    } else {
      var shake := Handshake(cfg, c);
      assert events[..|shake.events|] == shake.events;
    }
  }

  /** The flag is up after a pass exactly when the pass raised nothing; a
      NoDeviceException ends the pass with the 30-second wait, its only
      sleep; a socket error resets the flag without any wait. */
  lemma FaultHandling(cfg: Config, connected: bool, c: Cycle)
    ensures FaultOf(cfg, connected, c) == Some(NoDeviceException) ==>
              var events := Step(cfg, connected, c).events;
              events[|events| - 1] == Sleep(NoDeviceRetryDelay) &&
              forall e | e in events[..|events| - 1] :: !e.Sleep?
    ensures FaultOf(cfg, connected, c) == Some(SocketError) ==>
              forall e | e in Step(cfg, connected, c).events :: !e.Sleep?
  {
    var shake := ShakeOf(cfg, connected, c);
    assert forall e | e in shake.events :: HandshakeEvent(e);
    if FaultOf(cfg, connected, c).Some? {
      var events := Step(cfg, connected, c).events;
      var f := FaultOf(cfg, connected, c).value;
      if shake.Raised? {
        assert events == shake.events + Recovery(f);
      } else {
        assert events == shake.events + [Parse] + Recovery(f);
      }
    }
  }

  lemma {:induction false} WritesAppend(a: seq<Event>, b: seq<Event>)
    ensures Writes(a + b) == Writes(a) + Writes(b)
    decreases |b|
  {
    if b == [] {
      assert a + b == a;
    } else {
      var n := |b| - 1;
      assert (a + b)[..|a + b| - 1] == a + b[..n];
      WritesAppend(a, b[..n]);
    }
  }

  lemma {:induction false} WritesNone(events: seq<Event>)
    requires forall e | e in events :: !e.WritePoints?
    ensures Writes(events) == []
    decreases |events|
  {
    if events != [] {
      var n := |events| - 1;
      assert forall e | e in events[..n] :: e in events;
      WritesNone(events[..n]);
    }
  }

  lemma WritesOfCleanPass(cfg: Config, connected: bool, c: Cycle)
    requires FaultOf(cfg, connected, c).None?
    ensures Writes(Step(cfg, connected, c).events) == [Batch(cfg, c.parse.value)]
  {
    var shake := ShakeOf(cfg, connected, c).events;
    assert forall e | e in shake :: HandshakeEvent(e);
    var write := [Parse, WritePoints(Batch(cfg, c.parse.value))];
    var sleeps := Sleeps(SleepPlan(c.minute, c.second));
    assert Step(cfg, connected, c).events == shake + (write + sleeps);
    SleepsOnlySleep(SleepPlan(c.minute, c.second));
    WritesNone(shake);
    WritesNone(sleeps);
    assert Writes(write) == [Batch(cfg, c.parse.value)] by {
      assert write[..1] == [Parse];
      assert [Parse][..0] == [];
    }
    WritesAppend(write, sleeps);
    WritesAppend(shake, write + sleeps);
  }

  lemma WritesOfFailedPass(cfg: Config, connected: bool, c: Cycle)
    requires FaultOf(cfg, connected, c).Some?
    ensures Writes(Step(cfg, connected, c).events) == []
  {
    var events := Step(cfg, connected, c).events;
    var shake := ShakeOf(cfg, connected, c);
    assert forall e | e in shake.events :: HandshakeEvent(e);
    if shake.Raised? {
      assert events == shake.events + Recovery(shake.fault);
    } else {
      assert events == shake.events + [Parse] + Recovery(c.parse.error);
    }
    WritesNone(events);
  }

  /** A pass that raises nothing calls `write_points` exactly once, with the
      points of all parsed records in order; a pass that raises writes nothing. */
  lemma OneWritePerCycle(cfg: Config, connected: bool, c: Cycle)
    ensures Writes(Step(cfg, connected, c).events) ==
            if FaultOf(cfg, connected, c).None? then [Batch(cfg, c.parse.value)] else []
  {
    if FaultOf(cfg, connected, c).None? {
      WritesOfCleanPass(cfg, connected, c);
    } else {
      WritesOfFailedPass(cfg, connected, c);
    }
  }

  /** The daemon neither reads nor sets the console clock. */
  lemma ClockNeverTouched(cfg: Config, connected: bool, c: Cycle)
    ensures forall e | e in Step(cfg, connected, c).events :: !e.SetTime? && !e.GetTime?
  {
    PollEvents(cfg, c);
    var shake := ShakeOf(cfg, connected, c);
    assert forall e | e in shake.events :: HandshakeEvent(e);
  }

  /** A console that is unavailable on the first pass and answers on the
      second: one 30-second wait, then one full handshake and one write. */
  lemma FaultRecovery(cfg: Config, c1: Cycle, c2: Cycle)
    requires c1.connect == Some(NoDeviceException)
    requires c2.connect.None? && c2.setArchive.None? && c2.parse.Success?
    ensures Step(cfg, false, c1) == After(false, [Connect, Sleep(NoDeviceRetryDelay)])
    ensures Step(cfg, false, c2).connected
    ensures Writes(Step(cfg, false, c1).events + Step(cfg, false, c2).events) == [Batch(cfg, c2.parse.value)]
  {
    var retry := [Connect, Sleep(NoDeviceRetryDelay)];
    assert ShakeOf(cfg, false, c1) == Raised([Connect], NoDeviceException);
    assert Step(cfg, false, c1) == After(false, retry);
    assert Handshake(cfg, c2).Completed?;
    assert FaultOf(cfg, false, c2).None?;
    WritesOfCleanPass(cfg, false, c2);
    WritesNone(retry);
    WritesAppend(retry, Step(cfg, false, c2).events);
  }

  // ---------------------------------------------------------------------
  // Sleep alignment

  function Total(s: seq<int>): int
    decreases |s|
  {
    if s == [] then 0 else Total(s[..|s| - 1]) + s[|s| - 1]
  }

  lemma {:induction false} ExtraSleepsShape(m: int)
    ensures |ExtraSleeps(m)| == (5 - m % 5) % 5
    ensures forall j | 0 <= j < |ExtraSleeps(m)| :: ExtraSleeps(m)[j] == 60
    ensures forall n | m <= n < m + |ExtraSleeps(m)| :: !OnFiveMinuteMark(n)
    ensures OnFiveMinuteMark(m + |ExtraSleeps(m)|)
    decreases (5 - m % 5) % 5
  {
    if m % 5 != 0 {
      ExtraSleepsShape(m + 1);
      var rest := ExtraSleeps(m + 1);
      assert ExtraSleeps(m) == [60] + rest;
    }
  }

  /** The total of a prefix of the plan: one sleep to the next minute
      boundary, then whole minutes. */
  lemma {:induction false} PlanPrefixTotal(minute: Minute, second: Second, j: nat)
    requires 1 <= j <= |SleepPlan(minute, second)|
    ensures Total(SleepPlan(minute, second)[..j]) == 60 - second + 60 * (j - 1)
  {
    var plan := SleepPlan(minute, second);
    ExtraSleepsShape(minute + 1);
    if j == 1 {
      assert plan[..1] == [plan[0]];
      assert plan[..1][..0] == [];
    } else {
      PlanPrefixTotal(minute, second, j - 1);
      assert plan[..j][..j - 1] == plan[..j - 1];
      assert plan[j - 1] == ExtraSleeps(minute + 1)[j - 2];
    }
  }

  /** The sleep alignment: the first sleep is 60 minus the current second
      (1 to 60) and ends on a minute boundary; every further sleep is one
      minute; the k-th sleep ends at minute `minute + k`; the plan stops at
      the first such minute that is a multiple of 5, so at most four extra
      sleeps follow the first. */
  lemma SleepAlignment(minute: Minute, second: Second)
    ensures SleepPlan(minute, second)[0] == 60 - second && 1 <= 60 - second <= 60
    ensures forall j | 1 <= j < |SleepPlan(minute, second)| :: SleepPlan(minute, second)[j] == 60
    ensures forall k | 1 <= k <= |SleepPlan(minute, second)| ::
              minute * 60 + second + Total(SleepPlan(minute, second)[..k]) == (minute + k) * 60
  {
    var plan := SleepPlan(minute, second);
    var extra := ExtraSleeps(minute + 1);
    ExtraSleepsShape(minute + 1);
    assert plan == [60 - second] + extra;
    forall j | 1 <= j < |plan| ensures plan[j] == 60 {
      assert plan[j] == extra[j - 1];
    }
    forall k | 1 <= k <= |plan|
      ensures minute * 60 + second + Total(plan[..k]) == (minute + k) * 60
    {
      PlanPrefixTotal(minute, second, k);
    }
  }

  /** A write at 10:07:32 sleeps to 10:08:00, then to 10:09:00 and 10:10:00. */
  lemma SleepPlanExample()
    ensures SleepPlan(7, 32) == [28, 60, 60]
  {
    assert ExtraSleeps(10) == [];
    assert ExtraSleeps(9) == [60];
    assert ExtraSleeps(8) == [60, 60];
  }

  lemma ModSixty(m: int)
    ensures m % 60 % 5 == m % 5
  {
    var q := m / 60;
    assert m == 60 * q + m % 60;
    assert 60 * q == 5 * (12 * q);
  }

  /** The daemon's sleep loop on a clock that advances exactly by each sleep. */
  method AlignSleeps(minute: Minute, second: Second) returns (sleeps: seq<int>)
    ensures sleeps == SleepPlan(minute, second)
  {
    var m: int, s: int := minute, second;  // the wall clock, minutes counted on past the hour
    var sleepSec := 60 - s;
    sleeps := [sleepSec];
    m, s := m + 1, 0;
    ModSixty(m);
    while m % 60 % 5 != 0
      invariant s == 0
      invariant sleeps + ExtraSleeps(m) == SleepPlan(minute, second)
      invariant m % 60 % 5 == m % 5
      decreases |ExtraSleeps(m)|
    {
      sleepSec := 60 - s;
      assert ExtraSleeps(m) == [60] + ExtraSleeps(m + 1);
      sleeps := sleeps + [sleepSec];
      m, s := m + 1, 0;
      ModSixty(m);
    }
  }

  // ---------------------------------------------------------------------
  // The daemon

  /** The `json` list of one cycle: `extend` or `append` per record. */
  method BuildBatch(cfg: Config, records: seq<RawRecord>) returns (json: seq<Point>)
    ensures json == Batch(cfg, records)
  {
    json := [];
    var i := 0;
    while i < |records|
      invariant 0 <= i <= |records|
      invariant json == Batch(cfg, records[..i])
    {
      assert records[..i + 1][..i] == records[..i];
      if IsAutoMode(cfg.measureName) {
        json := json + cfg.rowPoints(records[i]);
      } else {
        json := json + [cfg.widePoint(records[i])];
      }
      i := i + 1;
    }
    assert records[..i] == records;
  }

  /** The `__main__` loop: the `stationConnected` flag and the trace of its actions. */
  class Daemon {
    const cfg: Config
    var stationConnected: bool
    var trace: seq<Event>

    constructor (cfg: Config)
      ensures this.cfg == cfg && !stationConnected && trace == []
    {
      this.cfg := cfg;
      stationConnected := false;
      trace := [];
    }

    /** `while not stationConnected`: connect, ask for the newest stored
        point and push it to the console; the fault that escapes, if any. */
    method Reconnect(c: Cycle) returns (fault: Option<Fault>)
      modifies this
      ensures stationConnected <==> fault.None?
      ensures fault.None? <==> ShakeOf(cfg, old(stationConnected), c).Completed?
      ensures fault.Some? ==> fault.value == ShakeOf(cfg, old(stationConnected), c).fault
      ensures trace == old(trace) + ShakeOf(cfg, old(stationConnected), c).events
    {
      ghost var shake := ShakeOf(cfg, stationConnected, c);
      fault := None;
      while !stationConnected && fault.None?
        invariant stationConnected ==> fault.None?
        invariant !stationConnected && fault.None? ==> trace == old(trace) && !old(stationConnected)
        invariant stationConnected || fault.Some? ==>
                    trace == old(trace) + shake.events &&
                    (fault.None? <==> shake.Completed?) &&
                    (fault.Some? ==> fault.value == shake.fault)
        decreases if stationConnected || fault.Some? then 0 else 1
      {
        trace := trace + [Connect];
        if c.connect.Some? {
          fault := c.connect;
        } else {
          trace := trace + [Query(ResumeQuery(cfg.measureName))];
          if c.latest.Some? {
            var ts := cfg.toLocal(c.latest.value);
            trace := trace + [SetArchiveTime(ts)];
            fault := c.setArchive;
          }
          if fault.None? {
            stationConnected := true;
          }
        }
      }
    }

    /** `console.parse()`, the batch write and the aligned sleeps; the fault
        that escapes, if any. */
    method PollConsole(c: Cycle) returns (fault: Option<Fault>)
      modifies this
      ensures fault.None? <==> Poll(cfg, c).Completed?
      ensures fault.Some? ==> fault.value == Poll(cfg, c).fault
      ensures trace == old(trace) + Poll(cfg, c).events
      ensures stationConnected == old(stationConnected)
    {
      trace := trace + [Parse];
      match c.parse
      case Failure(f) =>
        fault := Some(f);
      case Success(records) =>
        var json := BuildBatch(cfg, records);
        trace := trace + [WritePoints(json)];
        var sleeps := AlignSleeps(c.minute, c.second);
        trace := trace + Sleeps(sleeps);
        fault := None;
    }

    /** One pass of `while True`. */
    method RunCycle(c: Cycle)
      modifies this
      ensures stationConnected == Step(cfg, old(stationConnected), c).connected
      ensures trace == old(trace) + Step(cfg, old(stationConnected), c).events
    {
      ghost var shake := ShakeOf(cfg, stationConnected, c);
      var fault := Reconnect(c);
      if fault.None? {
        fault := PollConsole(c);
        assert trace == old(trace) + (shake.events + Poll(cfg, c).events);
      }
      ghost var beforeRecovery := trace;
      if fault.Some? {
        match fault.value {
          case NoDeviceException =>
            trace := trace + [Sleep(NoDeviceRetryDelay)];
            stationConnected := false;
          case SocketError =>
            stationConnected := false;
        }
        assert trace == beforeRecovery + Recovery(fault.value);
      }
    }
  }
}
