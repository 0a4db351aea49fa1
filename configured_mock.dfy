/**
 * The per-mock handle of src/configured-mock.js and its helpers: the start guards, port
 * assignment, CLI-dependent argument list, readiness loop, stop, base URL, debug advice and
 * the routing of the engine's output to the console and the log file.
 */
module Mock {
  import opened Results
  import opened Text
  import opened Version

  /** The handle of a spawned `imposter` process: its OS process id, absent when none was given. */
  datatype Proc = Proc(pid: Option<nat>)

  /** A write stream open on the log file at `path`. */
  datatype LogStream = LogStream(path: string)

  /** `${this.port}` for a port that may be null. */
  function PortText(port: Option<nat>): string {
    match port
    case None => "null"
    case Some(p) => NatToString(p)
  }

  /** JavaScript truthiness of the port: neither null nor 0. */
  predicate PortSet(port: Option<nat>) {
    port.Some? && port.value != 0
  }

  /** Why the promise that spawns the engine was rejected. */
  datatype StartFault =
    | VersionFault(error: VersionError)
    | NoSuitableCli
    | EngineExited(port: nat, code: int, advice: string)
  {
    function Message(): string {
      match this
      case VersionFault(e) => e.Message()
      case NoSuitableCli => "Failed to find an appropriate imposter cli to run"
      case EngineExited(p, c, a) => "Failed to start mock engine on port " + NatToString(p) + ". Exit code: " + IntToString(c) + a
    }
  }

  /** The errors `start` and `baseUrl` throw. */
  datatype MockError =
    | AlreadyStarted(port: Option<nat>)
    | InitialisationFailed(detail: string)
    | PortUnavailable(detail: string)
    | SpawnRejected(fault: StartFault)
    | Terminated(code: Option<int>, advice: string)
    | NoPort
  {
    function Message(): string {
      match this
      case AlreadyStarted(p) => "Mock on port " + PortText(p) + " already started"
      case InitialisationFailed(d) => "Error during initialisation: " + d
      case PortUnavailable(d) => d
      case SpawnRejected(f) => "Error spawning Imposter process. Is Imposter CLI installed?\n" + "Error: " + f.Message()
      case Terminated(c, a) => "Imposter process terminated with code: " + CodeText(c) + "." + a
      case NoPort => "Cannot get base URL before starting mock unless port explicitly set"
    }
  }

  /** JavaScript truthiness of the discovered configuration file: present and not empty. */
  predicate HasConfig(localConfig: Option<string>) {
    localConfig.Some? && localConfig.value != ""
  }

  /** `args.push(`--config=${localConfigFile}`)` when a project configuration file was found. */
  function WithConfig(args: seq<string>, localConfig: Option<string>): seq<string> {
    if HasConfig(localConfig) then args + ["--config=" + localConfig.value] else args
  }

  /** The argument list of `spawn('imposter', args)` for the CLI kind `cli`. */
  function BuildArgs(cli: string, configDir: string, port: nat, localConfig: Option<string>): (r: Result<seq<string>, StartFault>)
    ensures r.Err? <==> cli != ImposterCli && cli != Imposter
    ensures r.Err? ==> r.error == NoSuitableCli
    ensures r.Ok? ==> |r.value| == (if cli == ImposterCli then 4 else 2) + (if HasConfig(localConfig) then 1 else 0)
    ensures r.Ok? && cli == ImposterCli ==>
      r.value[..4] == ["up", configDir, "--port=" + NatToString(port), "--auto-restart=false"]
    ensures r.Ok? && cli == Imposter ==>
      r.value[..2] == ["--configDir=" + configDir, "--listenPort=" + NatToString(port)]
    ensures r.Ok? && HasConfig(localConfig) ==> r.value[|r.value| - 1] == "--config=" + localConfig.value
  {
    if cli == ImposterCli then
      Ok(WithConfig(["up", configDir, "--port=" + NatToString(port), "--auto-restart=false"], localConfig))
    else if cli == Imposter then
      Ok(WithConfig(["--configDir=" + configDir, "--listenPort=" + NatToString(port)], localConfig))
    else
      Err(NoSuitableCli)
  }

  /** The engine is told its port: the port flag's value reads back as the port. */
  lemma ArgsCarryPort(cli: string, configDir: string, port: nat, localConfig: Option<string>)
    requires BuildArgs(cli, configDir, port, localConfig).Ok?
    ensures var args := BuildArgs(cli, configDir, port, localConfig).value;
      var (i, flag) := if cli == ImposterCli then (2, "--port=") else (1, "--listenPort=");
      i < |args| && StartsWith(args[i], flag) && ToNumber(args[i][|flag|..]) == N(port)
  {
    var args := BuildArgs(cli, configDir, port, localConfig).value;
    var flag := if cli == ImposterCli then "--port=" else "--listenPort=";
    var i := if cli == ImposterCli then 2 else 1;
    assert args[i] == flag + NatToString(port) by {
      assert args[i] == args[..i + 1][i];
    }
    StartsWithConcat(flag, NatToString(port));
    assert args[i][|flag|..] == NatToString(port);
    ToNumberOfNatToString(port);
  }

  /** Output the version reader can parse always names a known CLI, so the "no appropriate CLI" error cannot follow it. */
  lemma ParsedCliHasArgs(output: string, configDir: string, port: nat, localConfig: Option<string>)
    requires CliVersionOf(output).Ok?
    ensures BuildArgs(CliVersionOf(output).value.cli, configDir, port, localConfig).Ok?
  {
  }

  // The advice lines are written as concatenations of short literals: the verifier reasons about
  // the characters of a short literal far more readily than of a long one.
  const LogFileLine: string := "See log file: "
  const VerboseLine: string := "Consider setting .verbose() " + "on your mock for more details."
  const DoctorLine: string := "Run 'imposter doctor' " + "to diagnose engine issues."

  /** None of the advice lines holds a line break. */
  lemma AdviceLinesUnbroken()
    ensures '\n' !in LogFileLine && '\n' !in VerboseLine && '\n' !in DoctorLine
  {
    VerboseLineUnbroken();
    DoctorLineUnbroken();
  }

  lemma VerboseLineUnbroken()
    ensures '\n' !in VerboseLine
  {
  }

  lemma DoctorLineUnbroken()
    ensures '\n' !in DoctorLine
  {
  }

  /** `${logFilePath}` for a path that may be undefined. */
  function PathText(path: Option<string>): string {
    match path
    case None => "undefined"
    case Some(p) => p
  }

  /** `advice += '\n...'` when `present`. */
  function AppendLine(advice: string, present: bool, line: string): string {
    if present then advice + ("\n" + line) else advice
  }

  /** The advice `buildDebugAdvice` accumulates, given whether the CLI is at least 0.6.2. */
  function AdviceText(logToFile: bool, logVerbose: bool, logFilePath: Option<string>, doctor: bool): (advice: string)
    ensures '\n' !in PathText(logFilePath) ==>
      Split(advice, '\n') == [""] + AdviceLines(logToFile, logVerbose, logFilePath, doctor)
  {
    var advice := AppendLine(AppendLine(AppendLine("", logToFile, LogFileLine + PathText(logFilePath)), !logVerbose, VerboseLine), doctor, DoctorLine);
    if '\n' !in PathText(logFilePath) then
      AdviceLinesUnbroken();
      UnbrokenConcat(LogFileLine, PathText(logFilePath));
      SplitOptionalLines(logToFile, !logVerbose, doctor, LogFileLine + PathText(logFilePath), VerboseLine, DoctorLine);
      advice
    else
      advice
  }

  /** The lines of the advice, each clause included exactly when its condition holds, in a fixed order. */
  function AdviceLines(logToFile: bool, logVerbose: bool, logFilePath: Option<string>, doctor: bool): seq<string> {
    (if logToFile then [LogFileLine + PathText(logFilePath)] else [])
    + (if !logVerbose then [VerboseLine] else [])
    + (if doctor then [DoctorLine] else [])
  }

  lemma UnbrokenConcat(a: string, b: string)
    requires '\n' !in a && '\n' !in b
    ensures '\n' !in a + b
  {
  }

  /** Up to three optional lines free of line breaks, each appended after a line break, split back into an empty line and those lines. */
  lemma SplitOptionalLines(b1: bool, b2: bool, b3: bool, x1: string, x2: string, x3: string)
    requires '\n' !in x1 && '\n' !in x2 && '\n' !in x3
    ensures Split(AppendLine(AppendLine(AppendLine("", b1, x1), b2, x2), b3, x3), '\n')
         == [""] + ((if b1 then [x1] else []) + (if b2 then [x2] else []) + (if b3 then [x3] else []))
  {
    JoinOfOptionalLines(b1, b2, b3, x1, x2, x3);
    OptionalLinesUnbroken(b1, b2, b3, x1, x2, x3);
    SplitJoin([""] + ((if b1 then [x1] else []) + (if b2 then [x2] else []) + (if b3 then [x3] else [])), '\n');
  }

  /** Joining an empty first line and up to three optional lines puts a line break before each present line. */
  lemma JoinOfOptionalLines(b1: bool, b2: bool, b3: bool, x1: string, x2: string, x3: string)
    ensures Join([""] + ((if b1 then [x1] else []) + (if b2 then [x2] else []) + (if b3 then [x3] else [])), '\n')
         == AppendLine(AppendLine(AppendLine("", b1, x1), b2, x2), b3, x3)
  {
    var l1 := if b1 then [x1] else [];
    var l2 := if b2 then [x2] else [];
    var l3 := if b3 then [x3] else [];
    JoinOptional([""], l1, '\n');
    JoinOptional([""] + l1, l2, '\n');
    JoinOptional([""] + l1 + l2, l3, '\n');
    AppendAssoc(l1, l2, l3);
    AppendAssoc([""], l1 + l2, l3);
    AppendAssoc([""], l1, l2);
  }

  /** An empty line and up to three lines free of line breaks are free of line breaks. */
  lemma OptionalLinesUnbroken(b1: bool, b2: bool, b3: bool, x1: string, x2: string, x3: string)
    requires '\n' !in x1 && '\n' !in x2 && '\n' !in x3
    ensures var lines := [""] + ((if b1 then [x1] else []) + (if b2 then [x2] else []) + (if b3 then [x3] else []));
      forall i :: 0 <= i < |lines| ==> '\n' !in lines[i]
  {
  }

  /** The advice the unit test expects for a file-logging, non-verbose mock on a CLI of at least 0.6.2. */
  lemma AdviceExample()
    ensures AdviceText(true, false, Some("/tmp/example"), true)
         == "" + ("\n" + ("See log file: " + "/tmp/example"))
          + ("\n" + ("Consider setting .verbose() " + "on your mock for more details."))
          + ("\n" + ("Run 'imposter doctor' " + "to diagnose engine issues."))
  {
  }

  /**
   * `Utils.buildDebugAdvice`: the log-file clause iff logging to a file, the verbose hint iff not
   * verbose, and the `imposter doctor` line iff the CLI is at least 0.6.2; a failure to determine
   * the CLI version propagates.
   */
  method BuildDebugAdvice(reader: VersionReader, logToFile: bool, logVerbose: bool, logFilePath: Option<string>)
    returns (r: Result<string, VersionError>)
    requires reader.Valid()
    modifies reader`cliVersion
    ensures reader.Valid() && reader.CurrentCliVersion() == old(reader.CurrentCliVersion())
    ensures old(reader.CurrentCliVersion()).Err? ==> r == Err(old(reader.CurrentCliVersion()).error)
    ensures old(reader.CurrentCliVersion()).Ok? ==>
      r == Ok(AdviceText(logToFile, logVerbose, logFilePath, VersionAtLeast(Release(0, 6, 2), old(reader.CurrentCliVersion()).value.version)))
  {
    var advice := "";
    if logToFile {
      advice := advice + ("\n" + (LogFileLine + PathText(logFilePath)));
    }
    if !logVerbose {
      advice := advice + ("\n" + VerboseLine);
    }
    var doctor := reader.RunIfVersionAtLeast(0, 6, 2, "\n" + DoctorLine, None);
    if doctor.Err? {
      return Err(doctor.error);
    }
    if doctor.value.Some? {
      advice := advice + doctor.value.value;
    }
    r := Ok(advice);
  }

  /** What one call of `writeChunk` hands to the console function and writes to the log stream. */
  datatype Routed = Routed(console: seq<string>, file: seq<string>)

  /**
   * `Utils.writeChunk`: an absent or empty chunk is dropped; otherwise the console gets the
   * trimmed text when verbose, and the log stream the raw chunk when logging to a file.
   * `streamAccepts` says whether the stream's `write` succeeds; a failing write is swallowed.
   */
  function WriteChunk(chunk: Option<string>, logVerbose: bool, logToFile: bool, streamAccepts: bool): (r: Routed)
    ensures chunk.None? || chunk == Some("") ==> r == Routed([], [])
    ensures r.console != [] <==> logVerbose && chunk.Some? && chunk.value != ""
    ensures r.console != [] ==> r.console == [Trim(chunk.value)]
    ensures r.file != [] <==> logToFile && streamAccepts && chunk.Some? && chunk.value != ""
    ensures r.file != [] ==> r.file == [chunk.value]
  {
    if chunk.None? || chunk.value == "" then Routed([], [])
    else
      Routed(if logVerbose then [Trim(chunk.value)] else [],
             if logToFile && streamAccepts then [chunk.value] else [])
  }

  /** The two sinks are independent: each depends only on its own flag. */
  lemma WriteChunkSinksIndependent(chunk: Option<string>, v1: bool, f1: bool, a1: bool, v2: bool, f2: bool, a2: bool)
    ensures v1 == v2 ==> WriteChunk(chunk, v1, f1, a1).console == WriteChunk(chunk, v2, f2, a2).console
    ensures f1 == f2 && a1 == a2 ==> WriteChunk(chunk, v1, f1, a1).file == WriteChunk(chunk, v2, f2, a2).file
  {
  }

  /** The unit tests' routing cases for the chunk "foo", and the empty chunk. */
  lemma WriteChunkExamples(v: bool, f: bool)
    ensures WriteChunk(Some("foo"), true, false, true) == Routed(["foo"], [])
    ensures WriteChunk(Some("foo"), false, true, true) == Routed([], ["foo"])
    ensures WriteChunk(Some("foo"), false, false, true) == Routed([], [])
    ensures WriteChunk(Some(""), v, f, true) == Routed([], [])
  {
    assert !IsWhitespace('f') && !IsWhitespace('o');
    TrimUnchanged("foo");
  }

  /** The sinks after a sequence of chunks went through `writeChunk`, in arrival order. */
  function RouteAll(chunks: seq<Option<string>>, logVerbose: bool, logToFile: bool, streamAccepts: bool): Routed {
    if chunks == [] then Routed([], [])
    else
      var rest := RouteAll(chunks[..|chunks| - 1], logVerbose, logToFile, streamAccepts);
      var last := WriteChunk(chunks[|chunks| - 1], logVerbose, logToFile, streamAccepts);
      Routed(rest.console + last.console, rest.file + last.file)
  }

  /** The text of the chunks in order, absent ones counting as empty. */
  function Concat(chunks: seq<Option<string>>): string {
    if chunks == [] then ""
    else Concat(chunks[..|chunks| - 1]) + (match chunks[|chunks| - 1] case None => "" case Some(s) => s)
  }

  function Flatten(parts: seq<string>): string {
    if parts == [] then "" else Flatten(parts[..|parts| - 1]) + parts[|parts| - 1]
  }

  /** When logging to a stream that accepts every write, the log file holds exactly the engine's output. */
  lemma {:induction false} LogFileIsVerbatim(chunks: seq<Option<string>>, logVerbose: bool)
    ensures Flatten(RouteAll(chunks, logVerbose, true, true).file) == Concat(chunks)
  {
    if chunks != [] {
      var init := chunks[..|chunks| - 1];
      LogFileIsVerbatim(init, logVerbose);
      var rest := RouteAll(init, logVerbose, true, true).file;
      var last := WriteChunk(chunks[|chunks| - 1], logVerbose, true, true).file;
      FlattenAppend(rest, last);
    }
  }

  lemma {:induction false} FlattenAppend(a: seq<string>, b: seq<string>)
    requires |b| <= 1
    ensures Flatten(a + b) == Flatten(a) + Flatten(b)
  {
    if b != [] {
      assert (a + b)[..|a + b| - 1] == a;
    } else {
      assert a + b == a;
    }
  }

  /** Without file logging, nothing reaches the log stream; without verbose logging, nothing reaches the console. */
  lemma {:induction false} SilentSinks(chunks: seq<Option<string>>, logVerbose: bool, logToFile: bool, streamAccepts: bool)
    ensures !logToFile ==> RouteAll(chunks, logVerbose, logToFile, streamAccepts).file == []
    ensures !logVerbose ==> RouteAll(chunks, logVerbose, logToFile, streamAccepts).console == []
  {
    if chunks != [] {
      SilentSinks(chunks[..|chunks| - 1], logVerbose, logToFile, streamAccepts);
    }
  }

  /** One pass of the readiness loop sees whether the process has an exit code, then the probe's outcome. */
  datatype Probe = Status(code: int) | Threw
  datatype Observation = Observation(exitCode: Option<int>, probe: Probe)

  /** `if (proc.exitCode)`: an exit code that is neither null nor 0. */
  predicate Exited(o: Observation) {
    o.exitCode.Some? && o.exitCode.value != 0
  }

  /** What the readiness loop decides: up at pass `at`, failed at pass `at`, or still polling when the observations end. */
  datatype Decision = Ready(at: nat) | Failed(at: nat, code: int) | Undecided

  /** The readiness decision taken from pass `i` on. */
  function DecideFrom(obs: seq<Observation>, i: nat): Decision
    decreases |obs| - i
  {
    if i >= |obs| then Undecided
    else if Exited(obs[i]) then Failed(i, obs[i].exitCode.value)
    else if obs[i].probe == Status(200) then Ready(i)
    else DecideFrom(obs, i + 1)
  }

  /**
   * The decision of `waitUntilReady`: the first pass that sees an exit code (failed) or a status
   * 200 (ready), the exit code checked first; with neither, still polling.
   */
  function Decide(obs: seq<Observation>): (d: Decision)
    ensures match d
      case Ready(k) => k < |obs| && !Exited(obs[k]) && obs[k].probe == Status(200)
                       && forall j :: 0 <= j < k ==> KeepsPolling(obs[j])
      case Failed(k, c) => k < |obs| && Exited(obs[k]) && obs[k].exitCode == Some(c)
                       && forall j :: 0 <= j < k ==> KeepsPolling(obs[j])
      case Undecided => forall j :: 0 <= j < |obs| ==> KeepsPolling(obs[j])
  {
    DecideFromCharacterised(obs, 0);
    DecideFrom(obs, 0)
  }

  /**
   * An engine that exits with code 0 is not seen as failed: when every pass sees no exit code or
   * code 0, and no status 200, the loop keeps polling.
   */
  lemma ZeroExitKeepsPolling(obs: seq<Observation>)
    requires forall j :: 0 <= j < |obs| ==> obs[j].exitCode in {None, Some(0)} && obs[j].probe != Status(200)
    ensures Decide(obs) == Undecided
  {
  }

  /** A pass that neither saw an exit code nor a status 200. */
  predicate KeepsPolling(o: Observation) {
    !Exited(o) && o.probe != Status(200)
  }

  /** The decision is the first pass that sees an exit code or a status 200; none such means still polling. */
  lemma {:induction false} DecideFromCharacterised(obs: seq<Observation>, i: nat)
    requires i <= |obs|
    requires forall j :: 0 <= j < i ==> KeepsPolling(obs[j])
    ensures match DecideFrom(obs, i)
      case Ready(k) => i <= k < |obs| && !Exited(obs[k]) && obs[k].probe == Status(200)
                       && forall j :: 0 <= j < k ==> KeepsPolling(obs[j])
      case Failed(k, c) => i <= k < |obs| && Exited(obs[k]) && obs[k].exitCode == Some(c)
                       && forall j :: 0 <= j < k ==> KeepsPolling(obs[j])
      case Undecided => forall j :: 0 <= j < |obs| ==> KeepsPolling(obs[j])
    decreases |obs| - i
  {
    if i < |obs| && KeepsPolling(obs[i]) {
      DecideFromCharacterised(obs, i + 1);
    }
  }

  /** A decision taken within some observations stands whatever the loop would have observed after them. */
  lemma {:induction false} DecisionStable(obs: seq<Observation>, more: seq<Observation>, i: nat)
    requires i <= |obs|
    requires DecideFrom(obs, i) != Undecided
    ensures DecideFrom(obs + more, i) == DecideFrom(obs, i)
    decreases |obs| - i
  {
    assert (obs + more)[i] == obs[i];
    if KeepsPolling(obs[i]) {
      DecisionStable(obs, more, i + 1);
    }
  }

  /** The number of passes before pass `k` whose probe threw, each followed by a 200 ms sleep. */
  function ThrowsBefore(obs: seq<Observation>, k: nat): nat
    requires k <= |obs|
  {
    if k == 0 then 0 else ThrowsBefore(obs, k - 1) + (if obs[k - 1].probe == Threw then 1 else 0)
  }

  function PassesOf(d: Decision, n: nat): nat {
    match d
    case Ready(k) => k
    case Failed(k, _) => k
    case Undecided => n
  }

  /**
   * The decision rule of `waitUntilReady`, over the passes it observes: fail on an exit code,
   * stop at the first status 200, and sleep only after a probe that threw.
   */
  method PollUntilReady(obs: seq<Observation>) returns (d: Decision, sleeps: nat)
    ensures d == Decide(obs)
    ensures PassesOf(d, |obs|) <= |obs| && sleeps == ThrowsBefore(obs, PassesOf(d, |obs|))
  {
    sleeps := 0;
    var ready := false;
    var i := 0;
    while !ready
      invariant 0 <= i <= |obs|
      invariant ready ==> 0 < i && obs[i - 1].probe == Status(200) && !Exited(obs[i - 1]) && DecideFrom(obs, 0) == Ready(i - 1)
      invariant !ready ==> DecideFrom(obs, 0) == DecideFrom(obs, i)
      invariant sleeps == ThrowsBefore(obs, if ready then i - 1 else i)
      decreases |obs| - i, if ready then 0 else 1
    {
      if i == |obs| {
        return Undecided, sleeps;
      }
      var o := obs[i];
      if Exited(o) {
        return Failed(i, o.exitCode.value), sleeps;
      }
      if o.probe == Status(200) {
        ready := true;
      } else if o.probe.Threw? {
        sleeps := sleeps + 1;
      }
      i := i + 1;
    }
    d := Ready(i - 1);
  }

  /** How a readiness wait ended: the engine is up, it failed, or it is still being polled. */
  datatype Wait = Up | Down(fault: StartFault) | Polling

  /** How a call of `start` ended: resolved, rejected, or still pending when the observations end. */
  datatype StartOutcome = Started | StartFailed(error: MockError) | Pending

  /** What a call of `stop` did: whether it sent the kill signal, whether that threw, and whether it closed the log stream. */
  datatype StopReport = StopReport(killSent: bool, killThrew: bool, streamClosed: bool)

  /**
   * What `start` receives from outside the mock: the outcome of the file utilities' initialisation
   * (the message it threw, if any), the free port the operating system hands out (or why it could
   * not), the discovered project configuration file, the temporary directory created for the log,
   * the process `spawn` returns and what each pass of the readiness loop observes.
   */
  datatype Environment = Environment(
    initFailure: Option<string>,
    freePort: Result<nat, string>,
    localConfig: Option<string>,
    tempDir: string,
    spawned: Proc,
    observations: seq<Observation>)

  /** The fields of a mock that `start` and `stop` read or write. */
  datatype MockState = MockState(
    port: Option<nat>,
    logVerbose: bool,
    logToFile: bool,
    logFilePath: Option<string>,
    logFileStream: Option<LogStream>,
    proc: Option<Proc>)

  /** A log stream is open exactly when a log file path was chosen, on that path; a mock with a process has a port. */
  predicate ValidState(s: MockState) {
    && (s.logFileStream.Some? <==> s.logFilePath.Some?)
    && (s.logFileStream.Some? ==> s.logFileStream.value.path == s.logFilePath.value)
    && (s.proc.Some? ==> s.port.Some?)
  }

  /** `start` gets past its guards: no process yet, initialisation succeeded, and a port is set or a free one was found. */
  predicate Proceeds(s: MockState, env: Environment) {
    s.proc.None? && env.initFailure.None? && (PortSet(s.port) || env.freePort.Ok?)
  }

  /** The port `start` uses: the one set on the mock unless it is null or 0, else the free one. */
  function ChosenPort(port: Option<nat>, freePort: Result<nat, string>): nat
    requires PortSet(port) || freePort.Ok?
  {
    if PortSet(port) then port.value else freePort.value
  }

  /** The debug advice for a mock in state `s` on a CLI `cli`. */
  function AdviceFor(s: MockState, cli: CliVersion): string {
    AdviceText(s.logToFile, s.logVerbose, s.logFilePath, VersionAtLeast(Release(0, 6, 2), cli.version))
  }

  /** What a call of `start` returns, the arguments it spawned the engine with, and the mock's fields afterwards. */
  datatype StartResult = StartResult(outcome: StartOutcome, spawnArgs: Option<seq<string>>, after: MockState)

  /**
   * `start()` on a mock in state `s`, with the version reader's answer `cli` and the outside world `env`.
   */
  function StartPlan(s: MockState, configDir: string, cli: Result<CliVersion, VersionError>, env: Environment): (r: StartResult)
    // A mock that already has a process, a failed initialisation or a missing port is refused, and nothing changes.
    ensures s.proc.Some? ==> r == StartResult(StartFailed(AlreadyStarted(s.port)), None, s)
    ensures s.proc.None? && env.initFailure.Some? ==> r == StartResult(StartFailed(InitialisationFailed(env.initFailure.value)), None, s)
    ensures !Proceeds(s, env) ==> r.outcome.StartFailed? && r.spawnArgs.None? && r.after == s
    // Past the guards, the port that was set is kept, or a free one is taken.
    ensures Proceeds(s, env) ==> r.after.port == Some(ChosenPort(s.port, env.freePort))
    // The engine is spawned exactly when the CLI is known, with the arguments for its kind and the chosen port.
    ensures r.spawnArgs.Some? <==> Proceeds(s, env) && cli.Ok? && (cli.value.cli == ImposterCli || cli.value.cli == Imposter)
    ensures r.spawnArgs.Some? ==> BuildArgs(cli.value.cli, configDir, ChosenPort(s.port, env.freePort), env.localConfig) == Ok(r.spawnArgs.value)
    ensures Proceeds(s, env) && cli.Err? ==> r.outcome == StartFailed(SpawnRejected(VersionFault(cli.error)))
    // Only a spawned engine's readiness decides the outcome, and only a ready engine's process is kept.
    ensures r.outcome == Started <==> r.spawnArgs.Some? && Decide(env.observations).Ready?
    ensures r.outcome == Pending <==> r.spawnArgs.Some? && Decide(env.observations).Undecided?
    ensures r.spawnArgs.Some? && Decide(env.observations).Failed? ==>
      r.outcome == StartFailed(SpawnRejected(EngineExited(ChosenPort(s.port, env.freePort), Decide(env.observations).code, AdviceFor(r.after, cli.value))))
    ensures r.after.proc == if r.outcome == Started then Some(env.spawned) else s.proc
    // A log file in the temporary directory is chosen once the engine is spawned, if logging to a file.
    ensures r.after.logFilePath == if r.spawnArgs.Some? && s.logToFile then Some(env.tempDir + "/imposter.log") else s.logFilePath
    ensures r.after.logVerbose == s.logVerbose && r.after.logToFile == s.logToFile
    ensures ValidState(s) ==> ValidState(r.after)
  {
    if s.proc.Some? then StartResult(StartFailed(AlreadyStarted(s.port)), None, s)
    else if env.initFailure.Some? then StartResult(StartFailed(InitialisationFailed(env.initFailure.value)), None, s)
    else if !PortSet(s.port) && env.freePort.Err? then StartResult(StartFailed(PortUnavailable(env.freePort.error)), None, s)
    else LaunchPlan(s.(port := Some(ChosenPort(s.port, env.freePort))), configDir, cli, env)
  }

  /** The promise `start` awaits, once the port is set: argument building, log file, spawn and readiness wait. */
  function LaunchPlan(s: MockState, configDir: string, cli: Result<CliVersion, VersionError>, env: Environment): (r: StartResult)
    requires s.port.Some?
    ensures r.after.port == s.port && r.after.logVerbose == s.logVerbose && r.after.logToFile == s.logToFile
    // The engine is spawned exactly when the CLI kind is known, with that kind's arguments on the mock's port.
    ensures r.spawnArgs.Some? <==> cli.Ok? && (cli.value.cli == ImposterCli || cli.value.cli == Imposter)
    ensures r.spawnArgs.Some? ==> BuildArgs(cli.value.cli, configDir, s.port.value, env.localConfig) == Ok(r.spawnArgs.value)
    ensures cli.Err? ==> r.outcome == StartFailed(SpawnRejected(VersionFault(cli.error)))
    // A spawned engine's readiness decides the outcome; only a ready engine's process is kept.
    ensures r.outcome == Started <==> r.spawnArgs.Some? && Decide(env.observations).Ready?
    ensures r.outcome == Pending <==> r.spawnArgs.Some? && Decide(env.observations).Undecided?
    ensures r.spawnArgs.Some? && Decide(env.observations).Failed? ==>
      r.outcome == StartFailed(SpawnRejected(EngineExited(s.port.value, Decide(env.observations).code, AdviceFor(r.after, cli.value))))
    ensures r.after.proc == if r.outcome == Started then Some(env.spawned) else s.proc
    // The log file is chosen in the temporary directory once the engine is spawned, if logging to a file.
    ensures r.after.logFilePath == if r.spawnArgs.Some? && s.logToFile then Some(env.tempDir + "/imposter.log") else s.logFilePath
    ensures ValidState(s) ==> ValidState(r.after)
  {
    if cli.Err? then StartResult(StartFailed(SpawnRejected(VersionFault(cli.error))), None, s)
    else
      var args := BuildArgs(cli.value.cli, configDir, s.port.value, env.localConfig);
      if args.Err? then StartResult(StartFailed(SpawnRejected(args.error)), None, s)
      else
        var path := env.tempDir + "/imposter.log";
        var s2 := if s.logToFile then s.(logFilePath := Some(path), logFileStream := Some(LogStream(path))) else s;
        match Decide(env.observations)
        case Ready(_) => StartResult(Started, Some(args.value), s2.(proc := Some(env.spawned)))
        case Undecided => StartResult(Pending, Some(args.value), s2)
        case Failed(_, code) =>
          StartResult(StartFailed(SpawnRejected(EngineExited(s.port.value, code, AdviceFor(s2, cli.value)))), Some(args.value), s2)
  }

  /** Once `start` has resolved, a second `start` is refused with the mock's port, whatever the outside world does. */
  lemma SecondStartRefused(s: MockState, configDir: string, cli: Result<CliVersion, VersionError>, env: Environment, env2: Environment)
    requires StartPlan(s, configDir, cli, env).outcome == Started
    ensures var after := StartPlan(s, configDir, cli, env).after;
      after.port.Some? && StartPlan(after, configDir, cli, env2) == StartResult(StartFailed(AlreadyStarted(after.port)), None, after)
  {
  }

  /** With the version reader's answer, the "no appropriate CLI" rejection never happens, and the spawned engine is told the chosen port. */
  lemma StartWithParsedCli(s: MockState, configDir: string, output: string, env: Environment)
    requires Proceeds(s, env) && CliVersionOf(output).Ok?
    ensures var r := StartPlan(s, configDir, CliVersionOf(output), env);
      r.spawnArgs.Some? && r.after.port == Some(ChosenPort(s.port, env.freePort))
  {
    ParsedCliHasArgs(output, configDir, ChosenPort(s.port, env.freePort), env.localConfig);
  }

  /** `this.proc.pid` is truthy: present and not 0. */
  predicate HasPid(proc: Option<Proc>) {
    proc.Some? && proc.value.pid.Some? && proc.value.pid.value != 0
  }

  /** One mock engine: its configuration directory, port, logging settings and, once started, its process. */
  class ConfiguredMock {
    const configDir: string
    var port: Option<nat>
    var logVerbose: bool
    var logToFile: bool
    var logFilePath: Option<string>
    var logFileStream: Option<LogStream>
    var proc: Option<Proc>

    function State(): MockState
      reads this
    {
      MockState(port, logVerbose, logToFile, logFilePath, logFileStream, proc)
    }

    ghost predicate Valid()
      reads this
    {
      ValidState(State())
    }

    /** A mock on `configDir`, on `port` when given, logging to a file and not verbose. */
    constructor (configDir: string, port: Option<nat>)
      ensures Valid()
      ensures this.configDir == configDir && State() == MockState(port, false, true, None, None, None)
    {
      this.configDir := configDir;
      this.port := port;
      logVerbose := false;
      logToFile := true;
      logFilePath := None;
      logFileStream := None;
      proc := None;
    }

    /** `verbose()`: switches on console logging of the engine's output and returns the same mock. */
    method Verbose() returns (self: ConfiguredMock)
      requires Valid()
      modifies this`logVerbose
      ensures Valid() && logVerbose && self == this
    {
      logVerbose := true;
      self := this;
    }

    /** `baseUrl()`: the engine's address on localhost, which needs a port that is set and not 0. */
    function BaseUrl(): (r: Result<string, MockError>)
      reads this
      ensures r.Err? <==> !PortSet(port)
      ensures r.Err? ==> r.error == NoPort
      ensures r.Ok? ==> r.value == "http://localhost:" + NatToString(port.value)
      ensures r.Ok? ==> StartsWith(r.value, "http://localhost:") && ToNumber(r.value[17..]) == N(port.value)
    {
      if !PortSet(port) then Err(NoPort)
      else
        var url := "http://localhost:" + NatToString(port.value);
        StartsWithConcat("http://localhost:", NatToString(port.value));
        assert url[17..] == NatToString(port.value);
        ToNumberOfNatToString(port.value);
        Ok(url)
    }

    /** `Utils.getCli()`: the kind of CLI the version reader determined. */
    method GetCli(reader: VersionReader) returns (r: Result<string, VersionError>)
      requires reader.Valid()
      modifies reader`cliVersion
      ensures reader.Valid() && reader.CurrentCliVersion() == old(reader.CurrentCliVersion())
      ensures old(reader.CurrentCliVersion()).Err? ==> r == Err(old(reader.CurrentCliVersion()).error)
      ensures old(reader.CurrentCliVersion()).Ok? ==> r == Ok(old(reader.CurrentCliVersion()).value.cli)
      ensures r.Ok? ==> r.value == ImposterCli || r.value == Imposter
    {
      var current := reader.DetermineCliVersion();
      if current.Err? {
        return Err(current.error);
      }
      r := Ok(current.value.cli);
    }

    /**
     * The file-logging part of `listenForEvents`: when logging to a file, a log file named
     * `imposter.log` in the freshly created temporary directory and a write stream on it.
     */
    method ListenForEvents(tempDir: string)
      requires Valid()
      modifies this`logFilePath, this`logFileStream
      ensures Valid()
      ensures logToFile ==> logFilePath == Some(tempDir + "/imposter.log") && logFileStream == Some(LogStream(tempDir + "/imposter.log"))
      ensures !logToFile ==> logFilePath == old(logFilePath) && logFileStream == old(logFileStream)
    {
      if logToFile {
        logFilePath := Some(tempDir + "/imposter.log");
        logFileStream := Some(LogStream(logFilePath.value));
      }
    }

    /**
     * The 'close' listener of `listenForEvents`: a close with any code but 0 rejects with the code
     * and the debug advice; a close with 0 rejects nothing.
     */
    method OnClose(reader: VersionReader, code: Option<int>) returns (r: Result<Option<MockError>, VersionError>)
      requires reader.Valid()
      modifies reader`cliVersion
      ensures reader.Valid() && reader.CurrentCliVersion() == old(reader.CurrentCliVersion())
      ensures code == Some(0) ==> r == Ok(None)
      ensures code != Some(0) && old(reader.CurrentCliVersion()).Err? ==> r == Err(old(reader.CurrentCliVersion()).error)
      ensures code != Some(0) && old(reader.CurrentCliVersion()).Ok? ==>
        r == Ok(Some(Terminated(code, AdviceFor(State(), old(reader.CurrentCliVersion()).value))))
    {
      if code == Some(0) {
        return Ok(None);
      }
      var advice := BuildDebugAdvice(reader, logToFile, logVerbose, logFilePath);
      if advice.Err? {
        return Err(advice.error);
      }
      r := Ok(Some(Terminated(code, advice.value)));
    }

    /**
     * `waitUntilReady`, over the passes the loop observes: up at the first status 200, failed with
     * the exit code and the debug advice at the first pass that sees one, polling otherwise.
     */
    method WaitUntilReady(reader: VersionReader, observations: seq<Observation>) returns (w: Wait)
      requires reader.Valid() && port.Some?
      modifies reader`cliVersion
      ensures reader.Valid() && reader.CurrentCliVersion() == old(reader.CurrentCliVersion())
      ensures w == Up <==> Decide(observations).Ready?
      ensures w == Polling <==> Decide(observations).Undecided?
      ensures Decide(observations).Failed? && old(reader.CurrentCliVersion()).Err? ==>
        w == Down(VersionFault(old(reader.CurrentCliVersion()).error))
      ensures Decide(observations).Failed? && old(reader.CurrentCliVersion()).Ok? ==>
        w == Down(EngineExited(port.value, Decide(observations).code, AdviceFor(State(), old(reader.CurrentCliVersion()).value)))
    {
      var d, _ := PollUntilReady(observations);
      match d
      case Ready(_) =>
        w := Up;
      case Undecided =>
        w := Polling;
      case Failed(_, code) =>
        var advice := BuildDebugAdvice(reader, logToFile, logVerbose, logFilePath);
        if advice.Err? {
          return Down(VersionFault(advice.error));
        }
        w := Down(EngineExited(port.value, code, advice.value));
    }

    /**
     * `start()`: refuses a mock that already has a process, initialises the file utilities, takes a
     * free port unless one is set, builds the arguments for the CLI kind the version reader found,
     * opens the log file and waits for the engine; only a ready engine's process is kept.
     */
    method Start(reader: VersionReader, env: Environment) returns (r: StartOutcome, spawnArgs: Option<seq<string>>)
      requires Valid() && reader.Valid()
      modifies this, reader`cliVersion
      ensures Valid() && reader.Valid() && reader.CurrentCliVersion() == old(reader.CurrentCliVersion())
      ensures StartResult(r, spawnArgs, State()) == StartPlan(old(State()), configDir, old(reader.CurrentCliVersion()), env)
    {
      if proc.Some? {
        return StartFailed(AlreadyStarted(port)), None;
      }
      if env.initFailure.Some? {
        return StartFailed(InitialisationFailed(env.initFailure.value)), None;
      }
      if !PortSet(port) {
        if env.freePort.Err? {
          return StartFailed(PortUnavailable(env.freePort.error)), None;
        }
        port := Some(env.freePort.value);
      }
      r, spawnArgs := Launch(reader, env);
    }

    /**
     * The promise of `start`: builds the arguments for the CLI kind, spawns the engine, opens the
     * log file and waits for readiness; the process is kept only once the engine is up.
     */
    method Launch(reader: VersionReader, env: Environment) returns (r: StartOutcome, spawnArgs: Option<seq<string>>)
      requires Valid() && reader.Valid() && port.Some? && proc.None?
      modifies this`logFilePath, this`logFileStream, this`proc, reader`cliVersion
      ensures Valid() && reader.Valid() && reader.CurrentCliVersion() == old(reader.CurrentCliVersion())
      ensures StartResult(r, spawnArgs, State()) == LaunchPlan(old(State()), configDir, old(reader.CurrentCliVersion()), env)
    {
      var cli := GetCli(reader);
      if cli.Err? {
        return StartFailed(SpawnRejected(VersionFault(cli.error))), None;
      }
      var args := BuildArgs(cli.value, configDir, port.value, env.localConfig);
      if args.Err? {
        // GetCli only reports the kinds BuildArgs knows.
        assert false;
      }
      spawnArgs := Some(args.value);
      ListenForEvents(env.tempDir);
      var w := WaitUntilReady(reader, env.observations);
      match w
      case Up =>
        proc := Some(env.spawned);
        r := Started;
      case Down(fault) =>
        r := StartFailed(SpawnRejected(fault));
      case Polling =>
        r := Pending;
    }

    /**
     * `stop()`: sends the kill signal only to a process with a pid, swallows a kill that throws,
     * closes the log stream if there is one, and never raises. It changes no field of the mock.
     */
    method Stop(killThrows: bool) returns (report: StopReport)
      ensures report.killSent <==> HasPid(proc)
      ensures report.killThrew <==> HasPid(proc) && killThrows
      ensures report.streamClosed <==> logFileStream.Some?
    {
      var sent := HasPid(proc);
      report := StopReport(sent, sent && killThrows, logFileStream.Some?);
    }
  }
}
