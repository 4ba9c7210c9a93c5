/** The flood-monitoring dashboard's sensor state (src/App.tsx): three
    independent sensor cells and a newest-first log that grows only by
    prepending one entry each time a cell's value changes. */
module App {
  import opened JsValues

  /** The three water-level tiers of the source's string union. */
  datatype WaterLevel = Low | Caution | Danger

  /** The string the source uses for each tier. */
  function LevelLabel(level: WaterLevel): string
  {
    match level
    case Low => "Low"
    case Caution => "Caution"
    case Danger => "DANGER"
  }

  /** Reads a tier back from its label; any other string names no tier. */
  function ParseLevel(name: string): (r: Option<WaterLevel>)
    ensures r.Some? ==> LevelLabel(r.value) == name
    ensures r.None? ==> name != "Low" && name != "Caution" && name != "DANGER"
  {
    if name == "Low" then Some(Low)
    else if name == "Caution" then Some(Caution)
    else if name == "DANGER" then Some(Danger)
    else None
  }

  /** Every tier has its own label, and reading the label gives the tier back. */
  lemma LevelLabelRoundTrip(level: WaterLevel)
    ensures ParseLevel(LevelLabel(level)) == Some(level)
  {
  }

  /** A wall-clock reading; the source takes it from `new Date()`. */
  type Instant = int

  datatype LogEntry = LogEntry(timestamp: Instant, message: string)

  /** A call of one of the three setters, with the value it supplies. */
  datatype Change =
    | Smoke(smoke: bool)
    | Rainfall(rainfall: bool)
    | Water(level: WaterLevel)

  /** The state cell a setter writes. */
  datatype Field = SmokeField | RainfallField | WaterLevelField

  /** The dashboard's state: the three sensor cells and the log, newest first. */
  datatype Sensors = Sensors(
    smokeDetected: bool,
    rainfallDetected: bool,
    waterLevel: WaterLevel,
    logs: seq<LogEntry>)

  /** A setter call together with the instant its log entry would carry. */
  datatype SetterCall = SetterCall(change: Change, at: Instant)

  const InitMessage: string := "System initialized"

  function FieldOf(c: Change): Field
  {
    match c
    case Smoke(_) => SmokeField
    case Rainfall(_) => RainfallField
    case Water(_) => WaterLevelField
  }

  /** The setter call that would leave field `f` of `s` as it is. */
  function Current(s: Sensors, f: Field): (c: Change)
    ensures FieldOf(c) == f
  {
    match f
    case SmokeField => Smoke(s.smokeDetected)
    case RainfallField => Rainfall(s.rainfallDetected)
    case WaterLevelField => Water(s.waterLevel)
  }

  /** The message the effect watching a field logs for its new value. */
  function Message(c: Change): string
  {
    match c
    case Smoke(v) => "Smoke detector: " + (if v then "Detected" else "Clear")
    case Rainfall(v) => "Rainfall detector: " + (if v then "Detected" else "Clear")
    case Water(w) => "Water level changed to: " + LevelLabel(w)
  }

  const WaterPrefix: string := "Water level changed to: "

  /** Reads a log message back as the change it reports; the initial
      message and any other text report none. */
  function ParseMessage(m: string): Option<Change>
  {
    if m == "Smoke detector: Detected" then Some(Smoke(true))
    else if m == "Smoke detector: Clear" then Some(Smoke(false))
    else if m == "Rainfall detector: Detected" then Some(Rainfall(true))
    else if m == "Rainfall detector: Clear" then Some(Rainfall(false))
    else if |m| >= |WaterPrefix| && m[..|WaterPrefix|] == WaterPrefix then
      match ParseLevel(m[|WaterPrefix|..])
      case Some(w) => Some(Water(w))
      case None => None
    else None
  }

  /** The log messages are unambiguous: each one reads back as exactly the
      change that produced it. */
  lemma MessageRoundTrip(c: Change)
    ensures ParseMessage(Message(c)) == Some(c)
  {
    match c
    case Smoke(v) =>
      assert Message(c) == if v then "Smoke detector: Detected" else "Smoke detector: Clear";
    case Rainfall(v) =>
      var m := Message(c);
      assert m == if v then "Rainfall detector: Detected" else "Rainfall detector: Clear";
      assert m[0] == 'R';
    case Water(w) =>
      var m := Message(c);
      assert m[..|WaterPrefix|] == WaterPrefix;
      assert m[|WaterPrefix|..] == LevelLabel(w);
      assert m[0] == 'W';
      LevelLabelRoundTrip(w);
  }

  /** The initial entry reports no change. */
  lemma InitMessageReportsNothing()
    ensures ParseMessage(InitMessage) == None
  {
    var m := InitMessage;
    assert m[0] == 'S' && m[1] == 'y';
  }

  /** The state before any effect has run: both detectors clear, water
      level Low, and a log holding only the initial entry. */
  function Initial(now: Instant): (s: Sensors)
    ensures !s.smokeDetected && !s.rainfallDetected && s.waterLevel == Low
    ensures |s.logs| == 1 && s.logs[0].message == InitMessage
  {
    Sensors(false, false, Low, [LogEntry(now, InitMessage)])
  }

  /** One setter call followed by the effect watching that cell: the cell
      takes the supplied value, and the effect logs the value only when it
      differs from the previous one. */
  function Apply(s: Sensors, c: Change, now: Instant): (r: Sensors)
    ensures Current(r, FieldOf(c)) == c
    ensures forall f :: f != FieldOf(c) ==> Current(r, f) == Current(s, f)
    ensures Current(s, FieldOf(c)) == c ==> r == s
    ensures Current(s, FieldOf(c)) != c ==>
      |r.logs| == |s.logs| + 1 && r.logs[1..] == s.logs &&
      r.logs[0] == LogEntry(now, Message(c))
  {
    var entry := LogEntry(now, Message(c));
    match c
    case Smoke(v) =>
      if v == s.smokeDetected then s
      else s.(smokeDetected := v, logs := [entry] + s.logs)
    case Rainfall(v) =>
      if v == s.rainfallDetected then s
      else s.(rainfallDetected := v, logs := [entry] + s.logs)
    case Water(w) =>
      if w == s.waterLevel then s
      else s.(waterLevel := w, logs := [entry] + s.logs)
  }

  /** The three effects running once on mount, in declaration order: smoke,
      then rainfall, then water level, each prepending its message. */
  function MountEffects(s: Sensors, now: Instant): (r: Sensors)
    ensures forall f :: Current(r, f) == Current(s, f)
    ensures |r.logs| == |s.logs| + 3 && r.logs[3..] == s.logs
    ensures forall i :: 0 <= i < 3 ==> r.logs[i].timestamp == now
    ensures ParseMessage(r.logs[0].message) == Some(Current(s, WaterLevelField))
    ensures ParseMessage(r.logs[1].message) == Some(Current(s, RainfallField))
    ensures ParseMessage(r.logs[2].message) == Some(Current(s, SmokeField))
    ensures Consistent(r)
  {
    var r := s.(logs := [LogEntry(now, Message(Water(s.waterLevel))),
                         LogEntry(now, Message(Rainfall(s.rainfallDetected))),
                         LogEntry(now, Message(Smoke(s.smokeDetected)))] + s.logs);
    MountedConsistent(s, r, now);
    r
  }

  lemma MountedConsistent(s: Sensors, r: Sensors, now: Instant)
    requires r == s.(logs := [LogEntry(now, Message(Water(s.waterLevel))),
                              LogEntry(now, Message(Rainfall(s.rainfallDetected))),
                              LogEntry(now, Message(Smoke(s.smokeDetected)))] + s.logs)
    ensures ParseMessage(r.logs[0].message) == Some(Current(s, WaterLevelField))
    ensures ParseMessage(r.logs[1].message) == Some(Current(s, RainfallField))
    ensures ParseMessage(r.logs[2].message) == Some(Current(s, SmokeField))
    ensures Consistent(r)
  {
    MessageRoundTrip(Water(s.waterLevel));
    MessageRoundTrip(Rainfall(s.rainfallDetected));
    MessageRoundTrip(Smoke(s.smokeDetected));
    var rest := r.logs[1..];
    assert rest[1..] == r.logs[2..];
    assert LastRecorded(r.logs, WaterLevelField) == Some(Current(r, WaterLevelField));
    assert LastRecorded(r.logs, RainfallField) == LastRecorded(rest, RainfallField);
    assert LastRecorded(r.logs, SmokeField) == LastRecorded(rest, SmokeField)
      == LastRecorded(rest[1..], SmokeField);
    forall f
      ensures LastRecorded(r.logs, f) == Some(Current(r, f))
    {
    }
  }

  /** The newest entry in `logs` that reports field `f`, if any. */
  function LastRecorded(logs: seq<LogEntry>, f: Field): (r: Option<Change>)
    ensures r.Some? ==> FieldOf(r.value) == f
  {
    if |logs| == 0 then None
    else
      var p := ParseMessage(logs[0].message);
      if p.Some? && FieldOf(p.value) == f then p else LastRecorded(logs[1..], f)
  }

  /** The log and the state agree: for every field, the newest entry that
      reports it names the field's current value. */
  ghost predicate Consistent(s: Sensors)
  {
    forall f :: LastRecorded(s.logs, f) == Some(Current(s, f))
  }

  /** Once the mount effects have run, every setter call keeps the log in
      agreement with the state. */
  lemma ApplyPreservesConsistent(s: Sensors, c: Change, now: Instant)
    requires Consistent(s)
    ensures Consistent(Apply(s, c, now))
  {
    var r := Apply(s, c, now);
    if Current(s, FieldOf(c)) != c {
      MessageRoundTrip(c);
      forall f
        ensures LastRecorded(r.logs, f) == Some(Current(r, f))
      {
        if f != FieldOf(c) {
          assert LastRecorded(r.logs, f) == LastRecorded(s.logs, f);
        }
      }
    }
  }

  /** Setting a cell to the value it already has changes nothing, so a
      repeated setter call logs nothing. */
  lemma ApplyIdempotent(s: Sensors, c: Change, t1: Instant, t2: Instant)
    ensures Apply(Apply(s, c, t1), c, t2) == Apply(s, c, t1)
  {
  }

  /** A sequence of setter calls, each followed by its effect. */
  function Run(s: Sensors, calls: seq<SetterCall>): Sensors
    decreases |calls|
  {
    if |calls| == 0 then s
    else Run(Apply(s, calls[0].change, calls[0].at), calls[1..])
  }

  lemma {:induction false} RunSnoc(s: Sensors, calls: seq<SetterCall>, last: SetterCall)
    ensures Run(s, calls + [last]) == Apply(Run(s, calls), last.change, last.at)
    decreases |calls|
  {
    if |calls| > 0 {
      assert (calls + [last])[1..] == calls[1..] + [last];
      RunSnoc(Apply(s, calls[0].change, calls[0].at), calls[1..], last);
    }
  }

  /** The log is never truncated or edited: the log before a run is the
      tail of the log after it, and each call adds at most one entry. */
  lemma {:induction false} RunKeepsHistory(s: Sensors, calls: seq<SetterCall>)
    ensures |s.logs| <= |Run(s, calls).logs| <= |s.logs| + |calls|
    ensures Run(s, calls).logs[|Run(s, calls).logs| - |s.logs|..] == s.logs
    decreases |calls|
  {
    if |calls| > 0 {
      var s' := Apply(s, calls[0].change, calls[0].at);
      RunKeepsHistory(s', calls[1..]);
      var l := Run(s', calls[1..]).logs;
      assert Run(s, calls).logs == l;
      if s'.logs != s.logs {
        assert s'.logs[1..] == s.logs;
        assert l[|l| - |s.logs|..] == l[|l| - |s'.logs|..][1..];
      }
    }
  }

  /** The value a run leaves in field `f`: the one supplied by the last call
      that writes `f`, or `initial` when no call does. */
  function LastSet(calls: seq<SetterCall>, f: Field, initial: Change): Change
    decreases |calls|
  {
    if |calls| == 0 then initial
    else if FieldOf(calls[|calls| - 1].change) == f then calls[|calls| - 1].change
    else LastSet(calls[..|calls| - 1], f, initial)
  }

  /** Last value wins, field by field: calls to the other setters never
      disturb a field. */
  lemma {:induction false} RunLastValueWins(s: Sensors, calls: seq<SetterCall>, f: Field)
    ensures Current(Run(s, calls), f) == LastSet(calls, f, Current(s, f))
    decreases |calls|
  {
    if |calls| > 0 {
      var init, last := calls[..|calls| - 1], calls[|calls| - 1];
      assert calls == init + [last];
      RunSnoc(s, init, last);
      RunLastValueWins(s, init, f);
    }
  }

  /** A log that agrees with the state keeps agreeing through any run. */
  lemma {:induction false} RunPreservesConsistent(s: Sensors, calls: seq<SetterCall>)
    requires Consistent(s)
    ensures Consistent(Run(s, calls))
    decreases |calls|
  {
    if |calls| > 0 {
      ApplyPreservesConsistent(s, calls[0].change, calls[0].at);
      RunPreservesConsistent(Apply(s, calls[0].change, calls[0].at), calls[1..]);
    }
  }

  /** The dashboard component: its state cells and the setters bound to them. */
  class Monitor {
    var smokeDetected: bool
    var rainfallDetected: bool
    var waterLevel: WaterLevel
    var logs: seq<LogEntry>
    /** Whether the mount effects have run. */
    ghost var mounted: bool

    function Snapshot(): Sensors
      reads this
    {
      Sensors(smokeDetected, rainfallDetected, waterLevel, logs)
    }

    /** The initial entry stays the oldest one, and after mount the log
        agrees with the state. */
    ghost predicate Valid()
      reads this
    {
      |logs| >= 1 && logs[|logs| - 1].message == InitMessage &&
      (mounted ==> Consistent(Snapshot()))
    }

    constructor (now: Instant)
      ensures Valid() && !mounted
      ensures Snapshot() == Initial(now)
    {
      smokeDetected := false;
      rainfallDetected := false;
      waterLevel := Low;
      logs := [LogEntry(now, InitMessage)];
      mounted := false;
    }

    /** Prepends one entry; the previous log is left intact as the tail. */
    method AddLog(message: string, now: Instant)
      modifies this`logs
      ensures logs == [LogEntry(now, message)] + old(logs)
    {
      logs := [LogEntry(now, message)] + logs;
    }

    /** The three effects' first run, after the initial render. */
    method Mount(now: Instant)
      requires Valid() && !mounted
      modifies this
      ensures Valid() && mounted
      ensures Snapshot() == MountEffects(old(Snapshot()), now)
    {
      ghost var before := Snapshot();
      AddLog(Message(Smoke(smokeDetected)), now);
      AddLog(Message(Rainfall(rainfallDetected)), now);
      AddLog(Message(Water(waterLevel)), now);
      mounted := true;
      assert logs == [LogEntry(now, Message(Water(before.waterLevel))),
                      LogEntry(now, Message(Rainfall(before.rainfallDetected))),
                      LogEntry(now, Message(Smoke(before.smokeDetected)))] + before.logs;
      assert Snapshot() == MountEffects(before, now);
    }

    method SetSmokeDetected(value: bool, now: Instant)
      requires Valid()
      modifies this
      ensures Valid() && mounted == old(mounted)
      ensures Snapshot() == Apply(old(Snapshot()), Smoke(value), now)
    {
      ghost var before := Snapshot();
      if value != smokeDetected {
        smokeDetected := value;
        AddLog(Message(Smoke(value)), now);
      }
      if mounted {
        ApplyPreservesConsistent(before, Smoke(value), now);
      }
    }

    method SetRainfallDetected(value: bool, now: Instant)
      requires Valid()
      modifies this
      ensures Valid() && mounted == old(mounted)
      ensures Snapshot() == Apply(old(Snapshot()), Rainfall(value), now)
    {
      ghost var before := Snapshot();
      if value != rainfallDetected {
        rainfallDetected := value;
        AddLog(Message(Rainfall(value)), now);
      }
      if mounted {
        ApplyPreservesConsistent(before, Rainfall(value), now);
      }
    }

    method SetWaterLevel(value: WaterLevel, now: Instant)
      requires Valid()
      modifies this
      ensures Valid() && mounted == old(mounted)
      ensures Snapshot() == Apply(old(Snapshot()), Water(value), now)
    {
      ghost var before := Snapshot();
      if value != waterLevel {
        waterLevel := value;
        AddLog(Message(Water(value)), now);
      }
      if mounted {
        ApplyPreservesConsistent(before, Water(value), now);
      }
    }
  }
}
