/** The tracker bridge's supervisor: the single nullable handle on the tracker
    process, the log buffer, the single status subscriber, and the start, stop,
    stream, close and error operations that change them. The network fetch, the
    file system and process spawning are inputs (`FetchOutcome`, `Host`, the process
    id a spawn returns) and records (`configFiles`, `launches`, `kills`). */
module Supervisor {
  import opened Wrappers
  import opened JsText
  import opened LogBuffer
  import opened ConfigAssembler

  /** A spawned tracker process: its place in the spawn order and its process id. */
  datatype Handle = Handle(serial: nat, pid: nat)

  /** The registered status callback, told apart by registration. */
  datatype Subscriber = Subscriber(id: nat)

  /** `{ running, logs, error }` as handed to the status callback. */
  datatype Status = Status(running: bool, logs: seq<LogEntry>, error: Option<string>)

  /** One call of the status callback. */
  datatype Delivery = Delivery(to: Subscriber, status: Status)

  /** `{ success: true }` or `{ success: false, error }`. */
  datatype Reply = Success | Failure(error: string)

  /** The outcome of fetching the four resources: the decoded data, or the message
      of the error that made the fetch reject. */
  datatype FetchOutcome = Got(data: Fetched) | FetchFailed(message: string)

  /** What `startTracker` learns from the machine: the platform, whether the app is
      packaged, the tracker binary and script paths and whether they exist, the
      config file path, and the message of the error writing the config file throws,
      if it throws. */
  datatype Host = Host(
    platform: string,
    packaged: bool,
    binaryPath: string,
    binaryExists: bool,
    scriptPath: string,
    scriptExists: bool,
    configPath: string,
    writeError: Option<string>)

  /** A written config file. */
  datatype ConfigFile = ConfigFile(path: string, config: TrackerConfig)

  /** A spawned command line. */
  datatype Launch = Launch(command: string, args: seq<string>)

  /** How a stop request reaches the process. */
  datatype KillHow = Taskkill(args: seq<string>) | Sigterm
  datatype Kill = Kill(target: Handle, how: KillHow)

  const AlreadyRunningLine := "Tracker is already running."
  const FetchingLine := "Fetching your configuration from server..."
  const NoAircraftError := "No aircraft configured. Add aircraft in the Aircraft tab first."
  const NoAirportError := "Airport not configured. Set your location in Airport Config first."
  const BinaryLine := "Starting tracker binary..."
  const ScriptLine := "Starting tracker (dev mode via Python)..."
  const StoppedByUserLine := "Tracker stopped by user."

  function StartErrorLine(message: string): string {
    "Error starting tracker: " + message
  }

  function ConfigWrittenLine(aircraft: nat): string {
    "Config written with " + NatText(aircraft) + " aircraft."
  }

  function MonitoringLine(name: string, radiusNm: real): string {
    "Monitoring " + name + " within " + NumberText(radiusNm) + "nm."
  }

  function ScriptMissingError(path: string): string {
    "Tracker script not found at: " + path
  }

  /** The status callback's calls for `sub` (none when nobody subscribed). */
  function Notify(sub: Option<Subscriber>, s: Status): (ds: seq<Delivery>)
  {
    if sub.Some? then [Delivery(sub.value, s)] else []
  }

  /** The callback calls made by pushing `es` onto `buf` one by one while the running
      flag is `running`: after each push, one call with the buffer as it then is. */
  function Announce(sub: Option<Subscriber>, running: bool, buf: seq<LogEntry>, es: seq<LogEntry>): seq<Delivery> {
    if sub.None? then []
    else seq(|es|, i requires 0 <= i < |es| => Delivery(sub.value, Status(running, Window(buf, es[..i + 1]), None)))
  }

  /** One more push adds one more call, carrying the buffer after that push: the
      step-by-step reading of `Announce`. */
  lemma AnnounceStep(sub: Option<Subscriber>, running: bool, buf: seq<LogEntry>, es: seq<LogEntry>, e: LogEntry)
    ensures Announce(sub, running, buf, es + [e])
      == Announce(sub, running, buf, es) + Notify(sub, Status(running, Window(buf, es + [e]), None))
  {
    if sub.Some? {
      var ds := Announce(sub, running, buf, es + [e]);
      forall i | 0 <= i < |es|
        ensures ds[i] == Announce(sub, running, buf, es)[i]
      {
        assert (es + [e])[..i + 1] == es[..i + 1];
      }
      assert (es + [e])[..|es| + 1] == es + [e];
    }
  }

  /** Pushing one entry onto the window of `es` gives the window of `es` and the entry. */
  lemma WindowStep(buf: seq<LogEntry>, es: seq<LogEntry>, e: LogEntry)
    ensures Window(buf, es + [e]) == Pushed(Window(buf, es), e)
  {
    PushedWindow(buf + es, e);
    assert buf + es + [e] == buf + (es + [e]);
  }

  /** A single push, told as a run of one line. */
  lemma OneLine(buf: seq<LogEntry>, sub: Option<Subscriber>, running: bool, line: string, now: string)
    requires |buf| <= Capacity
    ensures var e := LogEntry(now, Trim(line));
      && Window(buf, Stamp([line], now)) == Pushed(buf, e)
      && Announce(sub, running, buf, Stamp([line], now)) == Notify(sub, Status(running, Pushed(buf, e), None))
  {
    var e := LogEntry(now, Trim(line));
    assert Stamp([line], now) == [] + [e];
    WindowStep(buf, [], e);
    AnnounceStep(sub, running, buf, [], e);
  }

  lemma StampSnoc(lines: seq<string>, line: string, now: string)
    ensures Stamp(lines + [line], now) == Stamp(lines, now) + [LogEntry(now, Trim(line))]
  {
    var a := Stamp(lines + [line], now);
    var b := Stamp(lines, now) + [LogEntry(now, Trim(line))];
    forall i | 0 <= i < |a| ensures a[i] == b[i] {
      if i < |lines| { assert (lines + [line])[i] == lines[i]; }
    }
  }

  // ---------------------------------------------------------------------------
  // startTracker, as a plan

  /** What one `startTracker` call does: its reply, the lines it logs, the config
      file it writes and the command it spawns. */
  datatype StartPlan = StartPlan(reply: Reply, lines: seq<string>, written: Option<ConfigFile>, launch: Option<Launch>)

  function PythonCommand(platform: string): string {
    if platform == "win32" then "python" else "python3"
  }

  /** The last part of `startTracker`: pick the packaged binary or the Python script
      and spawn it. */
  function PlanLaunch(host: Host): StartPlan {
    if host.packaged && host.binaryExists then
      StartPlan(Success, [BinaryLine], None, Some(Launch(host.binaryPath, [host.configPath])))
    else if !host.scriptExists then
      StartPlan(Failure(ScriptMissingError(host.scriptPath)), [], None, None)
    else
      StartPlan(Success, [ScriptLine], None, Some(Launch(PythonCommand(host.platform), [host.scriptPath, host.configPath])))
  }

  /** The part of `startTracker` after validation: write the config file, announce
      it, then launch. */
  function PlanSpawn(c: TrackerConfig, host: Host): StartPlan {
    if host.writeError.Some? then
      StartPlan(Failure(host.writeError.value), [StartErrorLine(host.writeError.value)], None, None)
    else
      var launch := PlanLaunch(host);
      StartPlan(launch.reply,
        [ConfigWrittenLine(|c.aircraft.tailNumbers|), MonitoringLine(c.airspace.name, c.airspace.queryRadiusNm)] + launch.lines,
        Some(ConfigFile(host.configPath, c)), launch.launch)
  }

  /** `startTracker` after a successful fetch: build the configuration, refuse it
      without aircraft or without a non-zero airport position, otherwise write and
      spawn. */
  function PlanValidated(data: Fetched, host: Host): StartPlan {
    var c := BuildTrackerConfig(data);
    if |c.aircraft.tailNumbers| == 0 then StartPlan(Failure(NoAircraftError), [], None, None)
    else if c.airspace.centerLat == 0.0 || c.airspace.centerLon == 0.0 then
      StartPlan(Failure(NoAirportError), [], None, None)
    else PlanSpawn(c, host)
  }

  /** `startTracker` after its `await`: the fetch error, or the validated start. */
  function PlanFetched(fetch: FetchOutcome, host: Host): StartPlan {
    match fetch
    case FetchFailed(msg) => StartPlan(Failure(msg), [StartErrorLine(msg)], None, None)
    case Got(data) => PlanValidated(data, host)
  }

  /** `startTracker` from the guard on: refused while a process runs, otherwise the
      fetching line, then what follows the fetch. */
  function PlanStart(running: bool, fetch: FetchOutcome, host: Host): StartPlan {
    if running then StartPlan(Failure("Already running"), [AlreadyRunningLine], None, None)
    else
      var p := PlanFetched(fetch, host);
      p.(lines := [FetchingLine] + p.lines)
  }

  function OptionSeq<T>(o: Option<T>): (s: seq<T>)
    ensures |s| <= 1
  {
    if o.Some? then [o.value] else []
  }

  /** A start spawns a process exactly when it succeeds, and it succeeds exactly when
      nothing runs, the fetch succeeded, there is at least one aircraft, the airport
      latitude and longitude both parse to a non-zero number, the config file could be
      written, and either the packaged binary or the script exists. */
  lemma StartSucceedsIff(running: bool, fetch: FetchOutcome, host: Host)
    ensures var plan := PlanStart(running, fetch, host);
      && (plan.launch.Some? <==> plan.reply.Success?)
      && (plan.reply.Success? <==>
        && !running
        && fetch.Got?
        && |fetch.data.aircraft| > 0
        && Coordinate(fetch.data.airport.latitude) != 0.0
        && Coordinate(fetch.data.airport.longitude) != 0.0
        && host.writeError.None?
        && ((host.packaged && host.binaryExists) || host.scriptExists))
  {
    if !running && fetch.Got? {
      ValidatedSucceedsIff(fetch.data, host);
    }
  }

  lemma ValidatedSucceedsIff(data: Fetched, host: Host)
    ensures var plan := PlanValidated(data, host);
      && (plan.launch.Some? <==> plan.reply.Success?)
      && (plan.reply.Success? <==>
        && |data.aircraft| > 0
        && Coordinate(data.airport.latitude) != 0.0
        && Coordinate(data.airport.longitude) != 0.0
        && host.writeError.None?
        && ((host.packaged && host.binaryExists) || host.scriptExists))
  {
    var c := BuildTrackerConfig(data);
    assert c.airspace == AirspaceOf(data.airport, data.alerts);
    SpawnSucceedsIff(c, host);
  }

  lemma SpawnSucceedsIff(c: TrackerConfig, host: Host)
    ensures var plan := PlanSpawn(c, host);
      && (plan.launch.Some? <==> plan.reply.Success?)
      && (plan.reply.Success? <==> host.writeError.None? && ((host.packaged && host.binaryExists) || host.scriptExists))
  {
  }

  /** A start refused by validation (no aircraft, no airport position) writes no
      config file and spawns nothing; only the fetching line is logged. */
  lemma ValidationRefusal(data: Fetched, host: Host)
    requires |data.aircraft| == 0 || Coordinate(data.airport.latitude) == 0.0 || Coordinate(data.airport.longitude) == 0.0
    ensures var plan := PlanStart(false, Got(data), host);
      && plan.reply.Failure?
      && plan.reply.error == (if |data.aircraft| == 0 then NoAircraftError else NoAirportError)
      && plan.written.None? && plan.launch.None?
      && plan.lines == [FetchingLine]
  {
  }

  /** Which command a successful start spawns: the packaged binary with the config
      path when it exists, otherwise Python (`python` on Windows, `python3`
      elsewhere) with the script and the config path. When neither exists the
      config file is still written, nothing is spawned and the reply names the
      script path. */
  lemma LaunchChoice(data: Fetched, host: Host)
    requires |data.aircraft| > 0
    requires Coordinate(data.airport.latitude) != 0.0 && Coordinate(data.airport.longitude) != 0.0
    requires host.writeError.None?
    ensures var plan := PlanStart(false, Got(data), host);
      && plan.written == Some(ConfigFile(host.configPath, BuildTrackerConfig(data)))
      && (host.packaged && host.binaryExists ==> plan.launch == Some(Launch(host.binaryPath, [host.configPath])))
      && (!(host.packaged && host.binaryExists) && host.scriptExists ==>
            plan.launch == Some(Launch(if host.platform == "win32" then "python" else "python3", [host.scriptPath, host.configPath])))
      && (!(host.packaged && host.binaryExists) && !host.scriptExists ==>
            plan.launch.None? && plan.reply == Failure(ScriptMissingError(host.scriptPath)))
  {
  }

  // ---------------------------------------------------------------------------
  // Stop and exit

  /** The request `stopTracker` sends: `taskkill /pid <pid> /f /t` on Windows, SIGTERM
      elsewhere. */
  function KillFor(platform: string, h: Handle): (k: Kill)
    ensures k.target == h
    ensures platform == "win32" <==> k.how.Taskkill?
    ensures k.how.Taskkill? ==> k.how.args == ["/pid", NatText(h.pid), "/f", "/t"]
  {
    if platform == "win32" then Kill(h, Taskkill(["/pid", NatText(h.pid), "/f", "/t"])) else Kill(h, Sigterm)
  }

  /** The line logged when the process closes with exit `code` (None: killed by a
      signal, which JavaScript reports as null). */
  function CloseLine(code: Option<int>): string {
    if code == Some(0) then "Tracker stopped."
    else "Tracker exited with code " + (if code.None? then "null" else IntText(code.value)) + "."
  }

  /** Only exit code 0 is reported as a plain stop. */
  lemma CloseLineStoppedIff(code: Option<int>)
    ensures CloseLine(code) == "Tracker stopped." <==> code == Some(0)
  {
    if code != Some(0) {
      assert CloseLine(code)[8] == 'e';
    }
  }

  // ---------------------------------------------------------------------------
  // The bridge

  class TrackerBridge {
    /** `trackerProcess`: the handle on the running tracker, if any. */
    var process: Option<Handle>
    /** `statusCallback`. */
    var subscriber: Option<Subscriber>
    /** `logBuffer`. */
    var logs: seq<LogEntry>
    /** Every call of the status callback, oldest first. */
    var deliveries: seq<Delivery>
    /** Every config file written, oldest first. */
    var configFiles: seq<ConfigFile>
    /** Every tracker process spawned, oldest first; a handle's serial is its index. */
    var launches: seq<Launch>
    /** Every stop request sent, oldest first. */
    var kills: seq<Kill>

    /** The buffer stays within its capacity, and a handle refers to a process that was
        spawned. */
    ghost predicate Valid()
      reads this
    {
      |logs| <= Capacity && (process.Some? ==> process.value.serial < |launches|)
    }

    /** Since `buf0`/`dels0`, exactly the entries `es` were pushed with the running
        flag `running`. */
    ghost predicate LoggedSince(buf0: seq<LogEntry>, dels0: seq<Delivery>, running: bool, es: seq<LogEntry>)
      reads this
    {
      && logs == Window(buf0, es)
      && deliveries == dels0 + Announce(subscriber, running, buf0, es)
    }

    constructor()
      ensures Valid()
      ensures process.None? && subscriber.None? && logs == [] && deliveries == []
      ensures configFiles == [] && launches == [] && kills == []
    {
      process := None;
      subscriber := None;
      logs := [];
      deliveries := [];
      configFiles := [];
      launches := [];
      kills := [];
    }

    /** `pushLog`: the trimmed line goes last with the time `now`, the oldest entry is
        dropped past `Capacity`, and the subscriber is told the new state. */
    method PushLog(line: string, now: string)
      requires Valid()
      modifies this
      ensures Valid()
      ensures logs == Pushed(old(logs), LogEntry(now, Trim(line)))
      ensures deliveries == old(deliveries) + Notify(subscriber, Status(process.Some?, logs, None))
      ensures process == old(process) && subscriber == old(subscriber)
      ensures configFiles == old(configFiles) && launches == old(launches) && kills == old(kills)
    {
      logs := logs + [LogEntry(now, Trim(line))];
      if |logs| > Capacity {
        logs := logs[1..];
      }
      if subscriber.Some? {
        deliveries := deliveries + [Delivery(subscriber.value, Status(process.Some?, logs, None))];
      }
    }

    /** `notifyStatus(extra)`: one callback call with the current state and `error`. */
    method NotifyStatus(error: Option<string>)
      modifies this
      ensures deliveries == old(deliveries) + Notify(subscriber, Status(process.Some?, logs, error))
      ensures process == old(process) && subscriber == old(subscriber) && logs == old(logs)
      ensures configFiles == old(configFiles) && launches == old(launches) && kills == old(kills)
    {
      if subscriber.Some? {
        deliveries := deliveries + [Delivery(subscriber.value, Status(process.Some?, logs, error))];
      }
    }

    /** One `pushLog` inside a run of them that started at `buf0`/`dels0`. */
    method LogStep(line: string, now: string, ghost buf0: seq<LogEntry>, ghost dels0: seq<Delivery>, ghost es: seq<LogEntry>)
      requires Valid() && LoggedSince(buf0, dels0, process.Some?, es)
      modifies this
      ensures Valid() && LoggedSince(buf0, dels0, process.Some?, es + [LogEntry(now, Trim(line))])
      ensures process == old(process) && subscriber == old(subscriber)
      ensures configFiles == old(configFiles) && launches == old(launches) && kills == old(kills)
    {
      ghost var said := deliveries;
      ghost var e := LogEntry(now, Trim(line));
      PushLog(line, now);
      WindowStep(buf0, es, e);
      AnnounceStep(subscriber, process.Some?, buf0, es, e);
      assert deliveries == said + Notify(subscriber, Status(process.Some?, logs, None));
    }

    /** `LogStep` for a line, with the run told as lines rather than entries. */
    method Say(line: string, now: string, ghost buf0: seq<LogEntry>, ghost dels0: seq<Delivery>, ghost lines: seq<string>)
      requires Valid() && LoggedSince(buf0, dels0, process.Some?, Stamp(lines, now))
      modifies this
      ensures Valid() && LoggedSince(buf0, dels0, process.Some?, Stamp(lines + [line], now))
      ensures process == old(process) && subscriber == old(subscriber)
      ensures configFiles == old(configFiles) && launches == old(launches) && kills == old(kills)
    {
      LogStep(line, now, buf0, dels0, Stamp(lines, now));
      StampSnoc(lines, line, now);
    }

    /** `lines.forEach(pushLog)`. */
    method PushLines(lines: seq<string>, now: string)
      requires Valid()
      modifies this
      ensures Valid() && LoggedSince(old(logs), old(deliveries), process.Some?, Stamp(lines, now))
      ensures process == old(process) && subscriber == old(subscriber)
      ensures configFiles == old(configFiles) && launches == old(launches) && kills == old(kills)
    {
      ghost var es := Stamp(lines, now);
      assert es[..0] == [];
      for k := 0 to |lines|
        invariant Valid() && LoggedSince(old(logs), old(deliveries), process.Some?, es[..k])
        invariant process == old(process) && subscriber == old(subscriber)
        invariant configFiles == old(configFiles) && launches == old(launches) && kills == old(kills)
      {
        LogStep(lines[k], now, old(logs), old(deliveries), es[..k]);
        assert es[..k + 1] == es[..k] + [LogEntry(now, Trim(lines[k]))];
      }
      assert es[..|lines|] == es;
    }

    /** The stdout handler: every non-blank line of the chunk, trimmed, goes into the
        buffer; the handle is not consulted or changed. */
    method OnStdout(chunk: string, now: string)
      requires Valid()
      modifies this
      ensures Valid()
      ensures logs == Window(old(logs), StdoutEntries(chunk, now))
      ensures deliveries == old(deliveries) + Announce(subscriber, process.Some?, old(logs), StdoutEntries(chunk, now))
      ensures process == old(process) && subscriber == old(subscriber)
      ensures configFiles == old(configFiles) && launches == old(launches) && kills == old(kills)
    {
      PushLines(ChunkLines(chunk), now);
    }

    /** The stderr handler: the same with the warning sign in front of each line. */
    method OnStderr(chunk: string, now: string)
      requires Valid()
      modifies this
      ensures Valid()
      ensures logs == Window(old(logs), StderrEntries(chunk, now))
      ensures deliveries == old(deliveries) + Announce(subscriber, process.Some?, old(logs), StderrEntries(chunk, now))
      ensures process == old(process) && subscriber == old(subscriber)
      ensures configFiles == old(configFiles) && launches == old(launches) && kills == old(kills)
    {
      PushLines(Tagged(ChunkLines(chunk)), now);
    }

    /** The part of `startTracker` before its `await`: refused while a process runs,
        otherwise the fetching line is logged and the fetch begins. Nothing is marked
        as starting, so the guard lets a second call through until a process is
        spawned. */
    method BeginStart(now: string) returns (refused: Option<Reply>)
      requires Valid()
      modifies this
      ensures Valid()
      ensures refused.Some? <==> old(process).Some?
      ensures refused.Some? ==> refused.value == Failure("Already running")
      ensures logs == Pushed(old(logs), LogEntry(now, Trim(if refused.Some? then AlreadyRunningLine else FetchingLine)))
      ensures deliveries == old(deliveries) + Notify(subscriber, Status(process.Some?, logs, None))
      ensures process == old(process) && subscriber == old(subscriber)
      ensures configFiles == old(configFiles) && launches == old(launches) && kills == old(kills)
    {
      if process.Some? {
        PushLog(AlreadyRunningLine, now);
        return Some(Failure("Already running"));
      }
      PushLog(FetchingLine, now);
      return None;
    }

    /** The part of `startTracker` after its `await`, as `PlanFetched` describes it. The
        guard is not checked again: whatever the handle now is, a successful start
        replaces it with the new process, and the lines are logged with the running flag
        the handle gives. */
    method FinishStart(fetch: FetchOutcome, host: Host, pid: nat, now: string) returns (reply: Reply)
      requires Valid()
      modifies this
      ensures Valid()
      ensures var plan := PlanFetched(fetch, host);
        && reply == plan.reply
        && logs == Window(old(logs), Stamp(plan.lines, now))
        && configFiles == old(configFiles) + OptionSeq(plan.written)
        && launches == old(launches) + OptionSeq(plan.launch)
        && process == (if plan.launch.Some? then Some(Handle(|old(launches)|, pid)) else old(process))
        && deliveries == old(deliveries) + Announce(subscriber, old(process).Some?, old(logs), Stamp(plan.lines, now))
             + (if plan.launch.Some? then Notify(subscriber, Status(true, logs, None)) else [])
      ensures subscriber == old(subscriber) && kills == old(kills)
    {
      ghost var buf0, dels0 := logs, deliveries;
      assert Stamp([], now) == [];
      assert LoggedSince(buf0, dels0, process.Some?, Stamp([], now));
      reply := AfterFetch(fetch, host, pid, now, buf0, dels0, []);
      assert [] + PlanFetched(fetch, host).lines == PlanFetched(fetch, host).lines;
    }

    /** `startTracker` run to the end with nothing in between, as `PlanStart` describes
        it: the reply, the logged lines, the config file and the spawn; the handle is
        set exactly when a process was spawned, to that process, and the subscriber then
        hears `running: true`. */
    method Start(fetch: FetchOutcome, host: Host, pid: nat, now: string) returns (reply: Reply)
      requires Valid()
      modifies this
      ensures Valid()
      ensures var plan := PlanStart(old(process).Some?, fetch, host);
        && reply == plan.reply
        && logs == Window(old(logs), Stamp(plan.lines, now))
        && configFiles == old(configFiles) + OptionSeq(plan.written)
        && launches == old(launches) + OptionSeq(plan.launch)
        && process == (if plan.launch.Some? then Some(Handle(|old(launches)|, pid)) else old(process))
        && deliveries == old(deliveries) + Announce(subscriber, old(process).Some?, old(logs), Stamp(plan.lines, now))
             + (if plan.launch.Some? then Notify(subscriber, Status(true, logs, None)) else [])
      ensures subscriber == old(subscriber) && kills == old(kills)
    {
      ghost var buf0, dels0 := logs, deliveries;
      var refused := BeginStart(now);
      var first := if refused.Some? then AlreadyRunningLine else FetchingLine;
      OneLine(buf0, subscriber, process.Some?, first, now);
      assert LoggedSince(buf0, dels0, process.Some?, Stamp([first], now));
      if refused.Some? {
        return refused.value;
      }
      reply := AfterFetch(fetch, host, pid, now, buf0, dels0, [FetchingLine]);
    }

    /** What follows the fetch: its error is logged and returned, or the configuration
        is validated. */
    method AfterFetch(fetch: FetchOutcome, host: Host, pid: nat, now: string,
                      ghost buf0: seq<LogEntry>, ghost dels0: seq<Delivery>, ghost said0: seq<string>)
      returns (reply: Reply)
      requires Valid() && LoggedSince(buf0, dels0, process.Some?, Stamp(said0, now))
      modifies this
      ensures Valid()
      ensures var plan := PlanFetched(fetch, host);
        && reply == plan.reply
        && logs == Window(buf0, Stamp(said0 + plan.lines, now))
        && configFiles == old(configFiles) + OptionSeq(plan.written)
        && launches == old(launches) + OptionSeq(plan.launch)
        && process == (if plan.launch.Some? then Some(Handle(|old(launches)|, pid)) else old(process))
        && deliveries == dels0 + Announce(subscriber, old(process).Some?, buf0, Stamp(said0 + plan.lines, now))
             + (if plan.launch.Some? then Notify(subscriber, Status(true, logs, None)) else [])
      ensures subscriber == old(subscriber) && kills == old(kills)
    {
      match fetch {
        case FetchFailed(msg) =>
          Say(StartErrorLine(msg), now, buf0, dels0, said0);
          return Failure(msg);
        case Got(data) =>
          reply := Validate(data, host, pid, now, buf0, dels0, said0);
      }
    }

    /** The validation part of `startTracker`, as `PlanValidated` describes it. */
    method Validate(data: Fetched, host: Host, pid: nat, now: string,
                    ghost buf0: seq<LogEntry>, ghost dels0: seq<Delivery>, ghost said0: seq<string>)
      returns (reply: Reply)
      requires Valid() && LoggedSince(buf0, dels0, process.Some?, Stamp(said0, now))
      modifies this
      ensures Valid()
      ensures var plan := PlanValidated(data, host);
        && reply == plan.reply
        && logs == Window(buf0, Stamp(said0 + plan.lines, now))
        && configFiles == old(configFiles) + OptionSeq(plan.written)
        && launches == old(launches) + OptionSeq(plan.launch)
        && process == (if plan.launch.Some? then Some(Handle(|old(launches)|, pid)) else old(process))
        && deliveries == dels0 + Announce(subscriber, old(process).Some?, buf0, Stamp(said0 + plan.lines, now))
             + (if plan.launch.Some? then Notify(subscriber, Status(true, logs, None)) else [])
      ensures subscriber == old(subscriber) && kills == old(kills)
    {
      var config := BuildTrackerConfig(data);
      if |config.aircraft.tailNumbers| == 0 {
        assert said0 + [] == said0;
        return Failure(NoAircraftError);
      }
      if config.airspace.centerLat == 0.0 || config.airspace.centerLon == 0.0 {
        assert said0 + [] == said0;
        return Failure(NoAirportError);
      }
      reply := WriteAndSpawn(config, host, pid, now, buf0, dels0, said0);
    }

    /** The rest of `startTracker` once the configuration passed validation, as
        `PlanSpawn` describes it. */
    method WriteAndSpawn(config: TrackerConfig, host: Host, pid: nat, now: string,
                         ghost buf0: seq<LogEntry>, ghost dels0: seq<Delivery>, ghost said0: seq<string>)
      returns (reply: Reply)
      requires Valid() && LoggedSince(buf0, dels0, process.Some?, Stamp(said0, now))
      modifies this
      ensures Valid()
      ensures var plan := PlanSpawn(config, host);
        && reply == plan.reply
        && logs == Window(buf0, Stamp(said0 + plan.lines, now))
        && configFiles == old(configFiles) + OptionSeq(plan.written)
        && launches == old(launches) + OptionSeq(plan.launch)
        && process == (if plan.launch.Some? then Some(Handle(|old(launches)|, pid)) else old(process))
        && deliveries == dels0 + Announce(subscriber, old(process).Some?, buf0, Stamp(said0 + plan.lines, now))
             + (if plan.launch.Some? then Notify(subscriber, Status(true, logs, None)) else [])
      ensures subscriber == old(subscriber) && kills == old(kills)
    {
      if host.writeError.Some? {
        Say(StartErrorLine(host.writeError.value), now, buf0, dels0, said0);
        return Failure(host.writeError.value);
      }
      reply := WriteConfig(config, host, pid, now, buf0, dels0, said0);
    }

    /** Writing the config file succeeded: announce it and launch. */
    method WriteConfig(config: TrackerConfig, host: Host, pid: nat, now: string,
                         ghost buf0: seq<LogEntry>, ghost dels0: seq<Delivery>, ghost said0: seq<string>)
      returns (reply: Reply)
      requires host.writeError.None?
      requires Valid() && LoggedSince(buf0, dels0, process.Some?, Stamp(said0, now))
      modifies this
      ensures Valid()
      ensures var plan := PlanSpawn(config, host);
        && reply == plan.reply
        && logs == Window(buf0, Stamp(said0 + plan.lines, now))
        && configFiles == old(configFiles) + OptionSeq(plan.written)
        && launches == old(launches) + OptionSeq(plan.launch)
        && process == (if plan.launch.Some? then Some(Handle(|old(launches)|, pid)) else old(process))
        && deliveries == dels0 + Announce(subscriber, old(process).Some?, buf0, Stamp(said0 + plan.lines, now))
             + (if plan.launch.Some? then Notify(subscriber, Status(true, logs, None)) else [])
      ensures subscriber == old(subscriber) && kills == old(kills)
    {
      configFiles := configFiles + [ConfigFile(host.configPath, config)];
      var line1 := ConfigWrittenLine(|config.aircraft.tailNumbers|);
      Say(line1, now, buf0, dels0, said0);
      var line2 := MonitoringLine(config.airspace.name, config.airspace.queryRadiusNm);
      Say(line2, now, buf0, dels0, said0 + [line1]);
      assert said0 + [line1] + [line2] + PlanLaunch(host).lines == said0 + ([line1, line2] + PlanLaunch(host).lines);
      reply := Spawn(host, pid, now, buf0, dels0, said0 + [line1] + [line2]);
    }

    /** The binary-or-script choice and the spawn, as `PlanLaunch` describes it. */
    method Spawn(host: Host, pid: nat, now: string,
                 ghost buf0: seq<LogEntry>, ghost dels0: seq<Delivery>, ghost said0: seq<string>)
      returns (reply: Reply)
      requires Valid() && LoggedSince(buf0, dels0, process.Some?, Stamp(said0, now))
      modifies this
      ensures Valid()
      ensures var plan := PlanLaunch(host);
        && reply == plan.reply
        && logs == Window(buf0, Stamp(said0 + plan.lines, now))
        && launches == old(launches) + OptionSeq(plan.launch)
        && process == (if plan.launch.Some? then Some(Handle(|old(launches)|, pid)) else old(process))
        && deliveries == dels0 + Announce(subscriber, old(process).Some?, buf0, Stamp(said0 + plan.lines, now))
             + (if plan.launch.Some? then Notify(subscriber, Status(true, logs, None)) else [])
      ensures subscriber == old(subscriber) && kills == old(kills) && configFiles == old(configFiles)
    {
      var launch;
      if host.packaged && host.binaryExists {
        launch := Launch(host.binaryPath, [host.configPath]);
        launches := launches + [launch];
        Say(BinaryLine, now, buf0, dels0, said0);
      } else {
        var pythonCmd := PythonCommand(host.platform);
        if !host.scriptExists {
          assert said0 + [] == said0;
          return Failure(ScriptMissingError(host.scriptPath));
        }
        launch := Launch(pythonCmd, [host.scriptPath, host.configPath]);
        launches := launches + [launch];
        Say(ScriptLine, now, buf0, dels0, said0);
      }
      process := Some(Handle(|launches| - 1, pid));
      NotifyStatus(None);
      return Success;
    }

    /** `stopTracker`. Without a handle it fails and changes nothing; when sending the
        stop request throws (`signalError`) it fails with that message and changes
        nothing; otherwise it sends the platform's stop request to the handle, clears
        the handle and logs that the user stopped the tracker. */
    method Stop(platform: string, signalError: Option<string>, now: string) returns (reply: Reply)
      requires Valid()
      modifies this
      ensures Valid()
      ensures old(process).None? ==> reply == Failure("Tracker is not running")
      ensures old(process).Some? && signalError.Some? ==> reply == Failure(signalError.value)
      ensures reply.Failure? ==>
        && process == old(process) && logs == old(logs) && deliveries == old(deliveries) && kills == old(kills)
      ensures reply.Success? <==> old(process).Some? && signalError.None?
      ensures reply.Success? ==>
        && process.None?
        && kills == old(kills) + [KillFor(platform, old(process).value)]
        && logs == Pushed(old(logs), LogEntry(now, Trim(StoppedByUserLine)))
        && deliveries == old(deliveries) + Notify(subscriber, Status(false, logs, None)) + Notify(subscriber, Status(false, logs, None))
      ensures subscriber == old(subscriber) && configFiles == old(configFiles) && launches == old(launches)
    {
      if process.None? {
        return Failure("Tracker is not running");
      }
      if signalError.Some? {
        return Failure(signalError.value);
      }
      kills := kills + [KillFor(platform, process.value)];
      process := None;
      PushLog(StoppedByUserLine, now);
      NotifyStatus(None);
      return Success;
    }

    /** The close handler as the source registers it: whichever process closed, the
        handle is cleared, the exit is logged and the subscriber is told. */
    method OnCloseAsWritten(code: Option<int>, now: string)
      requires Valid()
      modifies this
      ensures Valid()
      ensures process.None?
      ensures logs == Pushed(old(logs), LogEntry(now, Trim(CloseLine(code))))
      ensures deliveries == old(deliveries) + Notify(subscriber, Status(false, logs, None)) + Notify(subscriber, Status(false, logs, None))
      ensures subscriber == old(subscriber) && configFiles == old(configFiles) && launches == old(launches) && kills == old(kills)
    {
      process := None;
      PushLog(CloseLine(code), now);
      NotifyStatus(None);
    }

    /** The error handler as the source registers it: the handle is cleared, the
        failure is logged and the subscriber is told with the error message. */
    method OnErrorAsWritten(message: string, now: string)
      requires Valid()
      modifies this
      ensures Valid()
      ensures process.None?
      ensures logs == Pushed(old(logs), LogEntry(now, Trim("Failed to start tracker: " + message)))
      ensures deliveries == old(deliveries) + Notify(subscriber, Status(false, logs, None)) + Notify(subscriber, Status(false, logs, Some(message)))
      ensures subscriber == old(subscriber) && configFiles == old(configFiles) && launches == old(launches) && kills == old(kills)
    {
      process := None;
      PushLog("Failed to start tracker: " + message, now);
      NotifyStatus(Some(message));
    }

    /** The close handler for process `h`: the handle is cleared only when it is `h`,
        so a late close of a process stopped earlier leaves a newer process's handle in
        place; the exit is logged and the subscriber is told either way. */
    method OnClose(h: Handle, code: Option<int>, now: string)
      requires Valid()
      modifies this
      ensures Valid()
      ensures process == if old(process) == Some(h) then None else old(process)
      ensures logs == Pushed(old(logs), LogEntry(now, Trim(CloseLine(code))))
      ensures deliveries == old(deliveries) + Notify(subscriber, Status(process.Some?, logs, None)) + Notify(subscriber, Status(process.Some?, logs, None))
      ensures subscriber == old(subscriber) && configFiles == old(configFiles) && launches == old(launches) && kills == old(kills)
    {
      if process == Some(h) {
        process := None;
      }
      PushLog(CloseLine(code), now);
      NotifyStatus(None);
    }

    /** The error handler for process `h`, with the same correction. */
    method OnError(h: Handle, message: string, now: string)
      requires Valid()
      modifies this
      ensures Valid()
      ensures process == if old(process) == Some(h) then None else old(process)
      ensures logs == Pushed(old(logs), LogEntry(now, Trim("Failed to start tracker: " + message)))
      ensures deliveries == old(deliveries) + Notify(subscriber, Status(process.Some?, logs, None)) + Notify(subscriber, Status(process.Some?, logs, Some(message)))
      ensures subscriber == old(subscriber) && configFiles == old(configFiles) && launches == old(launches) && kills == old(kills)
    {
      if process == Some(h) {
        process := None;
      }
      PushLog("Failed to start tracker: " + message, now);
      NotifyStatus(Some(message));
    }

    /** `getStatus`: running exactly when there is a handle, and the buffer. */
    function GetStatus(): (s: Status)
      reads this
      ensures s.running <==> process.Some?
      ensures s.logs == logs && s.error.None?
    {
      Status(process.Some?, logs, None)
    }

    /** `onStatusChange`: the callback replaces any earlier one. */
    method OnStatusChange(sub: Subscriber)
      modifies this
      ensures subscriber == Some(sub)
      ensures process == old(process) && logs == old(logs) && deliveries == old(deliveries)
      ensures configFiles == old(configFiles) && launches == old(launches) && kills == old(kills)
    {
      subscriber := Some(sub);
    }
  }

  /** Stop, a restart before the stopped process has exited, then that process's late
      close event, with the handlers as written: the bridge drops the handle of the new
      process, which nobody stopped, and reports the tracker as not running. */
  method RestartThenLateCloseAsWritten(b: TrackerBridge, platform: string, data: Fetched, host: Host,
      pid: nat, code: Option<int>, now: string)
    requires b.Valid() && b.process.Some?
    requires PlanStart(false, Got(data), host).launch.Some?
    modifies b
    ensures |b.launches| == |old(b.launches)| + 1
    ensures b.kills == old(b.kills) + [KillFor(platform, old(b.process).value)]
    ensures !b.GetStatus().running
  {
    var r := b.Stop(platform, None, now);
    r := b.Start(Got(data), host, pid, now);
    b.OnCloseAsWritten(code, now);
  }

  /** The same sequence with the handlers bound to their own process: the late close of
      the stopped process leaves the new process's handle, and the tracker is reported
      running. */
  method RestartThenLateClose(b: TrackerBridge, platform: string, data: Fetched, host: Host,
      pid: nat, code: Option<int>, now: string)
    requires b.Valid() && b.process.Some?
    requires PlanStart(false, Got(data), host).launch.Some?
    modifies b
    ensures |b.launches| == |old(b.launches)| + 1
    ensures b.kills == old(b.kills) + [KillFor(platform, old(b.process).value)]
    ensures b.process == Some(Handle(|old(b.launches)|, pid)) && b.GetStatus().running
  {
    var stopped := b.process.value;
    var r := b.Stop(platform, None, now);
    r := b.Start(Got(data), host, pid, now);
    b.OnClose(stopped, code, now);
  }

  /** Two `startTracker` calls whose fetches overlap: both pass the guard, because nothing
      runs until a fetch completes, and both spawn a process. The second handle replaces
      the first, so the first process is still spawned but no handle refers to it, and
      `stopTracker` can no longer reach it. */
  method DoubleStartOrphans(b: TrackerBridge, data: Fetched, host: Host, pid1: nat, pid2: nat, now: string)
    returns (first: Option<Reply>, second: Option<Reply>)
    requires b.Valid() && b.process.None?
    requires PlanFetched(Got(data), host).launch.Some?
    modifies b
    ensures first.None? && second.None?
    ensures |b.launches| == |old(b.launches)| + 2
    ensures b.launches[|old(b.launches)|] == b.launches[|old(b.launches)| + 1]
    ensures b.process == Some(Handle(|old(b.launches)| + 1, pid2))
    ensures b.process != Some(Handle(|old(b.launches)|, pid1))
  {
    first := b.BeginStart(now);
    second := b.BeginStart(now);
    var r1 := b.FinishStart(Got(data), host, pid1, now);
    var r2 := b.FinishStart(Got(data), host, pid2, now);
  }

  /** A `stopTracker` while the fetch is under way is refused, as no handle exists yet,
      and the start then goes on to spawn the process. */
  method StopDuringFetch(b: TrackerBridge, platform: string, data: Fetched, host: Host, pid: nat, now: string)
    returns (stopped: Reply)
    requires b.Valid() && b.process.None?
    requires PlanFetched(Got(data), host).launch.Some?
    modifies b
    ensures stopped == Failure("Tracker is not running")
    ensures b.kills == old(b.kills)
    ensures b.process == Some(Handle(|old(b.launches)|, pid)) && b.GetStatus().running
  {
    var begun := b.BeginStart(now);
    stopped := b.Stop(platform, None, now);
    var r := b.FinishStart(Got(data), host, pid, now);
  }
}
