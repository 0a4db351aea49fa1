# imposter-js: the mock handle and the CLI version reader

imposter-js starts and stops Imposter mock engines from JavaScript tests. It does this through
the `imposter` command-line tool (CLI). This project models the two files at the heart of that
work and proves properties of the model in Dafny.

- `src/version.js`: the process-wide `VersionReader`.
  - It runs `imposter version` once. When that command cannot run or exits with a failure, it
    runs `imposter --version` instead, and keeps the raw output.
  - It parses the output into a `{major, minor, revision, cli}` object and caches it. Current CLIs
    print an `imposter-cli X.Y.Z` line. Older CLIs print `Version: X.Y.Z` and are tagged
    `imposter`.
  - It answers "is the installed CLI at least X.Y.Z" by comparing major, minor and revision in
    that order.
- `src/configured-mock.js`: the `ConfiguredMock` class and its `Utils` helpers.
  - `start` refuses a second start and initialises the file utilities. It takes a free port
    unless one is set, then builds the argument list for the kind of CLI found.
  - It then spawns the engine and opens a log file in a temporary directory. It polls the
    engine's status endpoint until it answers 200, failing with debug advice if the process
    exits first with a non-zero code. An engine that exits with code 0 is not treated as failed.
  - `stop` kills the process and closes the log stream. `verbose` switches on console logging of
    the engine's output. `baseUrl` gives the engine's address.
  - `buildDebugAdvice` composes the hints appended to failure messages. `writeChunk` routes each
    chunk of engine output to the console and to the log file.

The model has four modules:

- `Results`: the `Option` and `Result` types.
- `Text`: the JavaScript string built-ins the code relies on (`split`, `join`, `trim`,
  `startsWith`, template-literal rendering of numbers, `Number`).
- `Version`: a model of `src/version.js`.
- `Mock`: a model of `src/configured-mock.js`.

Both files keep their state in objects that their methods update. `VersionReader` and
`ConfiguredMock` are therefore Dafny classes. Each state-changing method is proved against a pure
function of the old state:

- `CurrentCliVersion` for the reader.
- `StartPlan` and `LaunchPlan` for `start`.

The properties of those functions are proved as lemmas.

The outside world appears as parameters:

- how each run of the `imposter` command ended (`VersionRun`);
- whether `fileUtils.initIfRequired` threw;
- the free port the operating system hands out;
- the discovered project configuration file;
- the temporary directory;
- the process `spawn` returns;
- what each pass of the readiness loop observes (`Observation`).

JavaScript values are modelled as follows:

- A number read back with `Number` is `Num`: an exact natural number or `NaN`.
- A nullable port is `Option<nat>`. Its truthiness, "set and not 0", is `PortSet`.
- An error's message is the `Message()` of an error datatype. Decisions the code takes on a
  message prefix (`startsWith('Error determining version')`, `startsWith('Error parsing
  version')`) are taken on that message in the model too.

## Model

| member | source | states |
|---|---|---|
| Version.InvokeVersionCommand | src/version.js:37-66 | the query resolves exactly when the process closes with exit code 0, and then with the concatenated output; a launch error, another exit code and a throwing spawn are errors |
| Version.RetryOnlyForCommandErrors | src/version.js:26-31 | the error's message starts with "Error determining version" exactly for a launch error or a non-zero/null exit code; a throwing spawn is not retried |
| Version.QueryVersionOutput | src/version.js:22-35 | exit code 0 on `version` gives its output; a launch error or failing exit gives the outcome of `--version`; a throwing spawn is passed on |
| Version.VersionReader.InitIfRequired | src/version.js:22-35 | an initialised reader is left unchanged and runs nothing; otherwise it runs `version`, then `--version` only after a retryable failure, stores the output and sets the initialised flag exactly on success |
| Version.FirstMatch | src/version.js:88-90 | the index found is a line containing the component name with no such line before it; none is found only when no line contains it |
| Version.ParseVersion | src/version.js:88-101 | the parse succeeds exactly when some line mentions the component and every such line has a second space-separated token; success is tagged `imposter-cli`, failure carries the whole output |
| Version.VersionReader.DetermineVersion | src/version.js:74-102 | refuses exactly when not initialised; otherwise parses the stored output |
| Version.PrimaryParseRoundTrip | src/version.js:88-97 | output whose first `imposter-cli` line is `imposter-cli X.Y.Z` parses back to X.Y.Z tagged `imposter-cli` |
| Version.PrimaryParseExample | src/version.js:79-90 | the documented two-line output of the current CLI, which also reports the engine, parses to 0.1.0 |
| Version.VersionParts | src/version.js:90-95 | each of major, minor and revision is a number exactly when its dot-separated piece of the trimmed token is all digits after trimming; a missing piece is NaN |
| Version.DottedParts | src/version.js:90-95 | `VersionParts` of a token that trims to `X.Y.Z` gives back major X, minor Y and revision Z |
| Version.ParseErrorMessage | src/version.js:114 | of the reader's errors, exactly the parse failure has a message starting with "Error parsing version" |
| Version.CliVersionOf | src/version.js:109-128 | fails exactly when the primary parse fails and the output does not start with `Version: `, with the parse error; an `imposter-cli` result is the primary parse, and an `imposter` result only comes from the fallback |
| Version.FallbackParseRoundTrip | src/version.js:114-121 | through `FallbackVersion`, the older CLI's `Version: X.Y.Z` output, with any trailing whitespace, reads back as X.Y.Z tagged `imposter` |
| Version.VersionReader.DetermineCliVersion | src/version.js:109-128 | returns the cached version when there is one, otherwise computes it and caches a success; the answer equals the reader's current answer, and the next call gives the same |
| Version.VersionAtLeast | src/version.js:156-167 | for numeric versions, "at least" is the lexicographic order on (major, minor, revision) |
| Version.VersionAtLeastTotalOrder | src/version.js:156-167 | on numeric versions "at least" is reflexive, total, transitive and antisymmetric |
| Version.NaNMajorNeverAtLeast | src/version.js:157-159 | a NaN major on either side makes every comparison false, so the check fails |
| Version.VersionAtLeastExamples | src/version.js:156-167 | equal, higher-revision and higher-major versions qualify; a lower minor does not |
| Version.VersionReader.RunIfVersionAtLeast | src/version.js:140-148 | a version error propagates; otherwise the result is the block's value when the current CLI version is at least the given one, else the else-block's value or undefined; the reader's answer is unchanged |
| Version.VersionReader.constructor | src/version.js:8-20 | a fresh reader is uninitialised, with no output and no cached version |
| Text.ToNumber | src/version.js:93-95 | `Number` of a text is a number exactly when the trimmed text is all digits |
| Text.ToNumberOfNatToString | src/version.js:93-95 | `Number` reads a rendered natural number back as that number |
| Text.Trim | src/version.js:90 | the trimmed text is the infix left once leading and trailing whitespace are removed, and starts and ends with non-whitespace |
| Text.Split | src/version.js:88 | split yields at least one piece, and no piece contains the separator |
| Text.JoinSplit | src/version.js:88 | joining the pieces of a split on the same character gives back the string |
| Text.SplitJoin | src/version.js:88 | splitting a join of separator-free pieces gives back the pieces |
| Text.UpTo | src/version.js:115 | the piece after `Version: ` is the longest prefix that does not reach another `Version: ` |
| Mock.BuildArgs | src/configured-mock.js:72-95 | `up DIR --port=P --auto-restart=false` for `imposter-cli`, `--configDir=DIR --listenPort=P` for `imposter`, then `--config=FILE` exactly when a configuration file was found; any other CLI kind is the "no appropriate cli" error |
| Mock.ArgsCarryPort | src/configured-mock.js:72-85 | the value of the port flag reads back as the chosen port |
| Mock.ParsedCliHasArgs | src/configured-mock.js:86-87 | a CLI kind the version reader can report never reaches the "no appropriate cli" branch |
| Mock.AdviceText | src/configured-mock.js:200-212 | for a log path without line breaks, split on line breaks, the advice is an empty first line followed by exactly the log-file, verbose and doctor lines whose conditions hold, in that order |
| Mock.AdviceExample | src/__tests__/configured-mock.test.js:14-22 | the advice for a file-logging, non-verbose mock on a recent CLI is the three lines the unit test expects |
| Mock.BuildDebugAdvice | src/configured-mock.js:200-212 | a version error propagates; otherwise the advice has the log-file line iff logging to a file, the verbose hint iff not verbose, and the doctor line iff the CLI is at least 0.6.2 |
| Mock.WriteChunk | src/configured-mock.js:214-227 | an absent or empty chunk reaches neither sink; the console gets the trimmed chunk iff verbose; the log stream gets the raw chunk iff logging to a file and the write succeeds |
| Mock.WriteChunkSinksIndependent | src/configured-mock.js:214-227 | what reaches the console depends only on the verbose flag, and what reaches the file only on the file flag and the stream |
| Mock.WriteChunkExamples | src/__tests__/configured-mock.test.js:24-46 | the chunk "foo" reaches only the console when verbose without file logging, and only the stream the other way round |
| Mock.LogFileIsVerbatim | src/configured-mock.js:129-134 | with file logging and a working stream, the log file holds exactly the engine's output, in order |
| Mock.SilentSinks | src/configured-mock.js:129-134 | without file logging nothing reaches the stream; when not verbose nothing reaches the console |
| Mock.Decide | src/configured-mock.js:137-155 | the decision is the first pass that sees a non-zero exit code (failed, with that code) or a status 200 (ready), the exit code checked first; with neither on every pass, still polling |
| Mock.ZeroExitKeepsPolling | src/configured-mock.js:141 | an exit code of 0 is not a failure: with every exit code null or 0 and no status 200, the loop keeps polling |
| Mock.DecideFromCharacterised | src/configured-mock.js:137-155 | the loop decides at the first pass that sees an exit code (failure) or a status 200 (ready); with neither it is still polling |
| Mock.DecisionStable | src/configured-mock.js:140-153 | once decided, the outcome does not depend on later observations |
| Mock.PollUntilReady | src/configured-mock.js:137-155 | the loop's decision is the first deciding pass, and it sleeps once for each probe that threw before that pass |
| Mock.StartPlan | src/configured-mock.js:50-108 | a started mock, a failed initialisation or no port refuses with nothing changed; otherwise the port is kept or assigned; the engine is spawned iff the CLI is known, with that kind's arguments; only a ready engine's process is kept; the log file is chosen after spawning; consistency of the fields is preserved |
| Mock.LaunchPlan | src/configured-mock.js:68-105 | once the port is set: the engine is spawned exactly when the CLI kind is known, with that kind's arguments on the mock's port; a version error rejects; readiness decides started, failed (port, exit code, advice) or pending; only a ready engine's process is kept; the log file is chosen after spawning; the port and flags are untouched; field consistency is preserved |
| Mock.SecondStartRefused | src/configured-mock.js:51-53 | after a successful start, any further start is refused with "already started" on the mock's port |
| Mock.StartWithParsedCli | src/configured-mock.js:59-95 | with a parsable CLI version, a start past its guards always spawns, on the chosen port |
| Mock.ConfiguredMock.constructor | src/configured-mock.js:41-45 | a new mock has the given directory and port, logs to a file, is not verbose and has no process or log file |
| Mock.ConfiguredMock.Verbose | src/configured-mock.js:179-182 | switches on verbose logging, keeps the mock consistent and returns the same mock |
| Mock.ConfiguredMock.BaseUrl | src/configured-mock.js:187-192 | fails exactly when the port is null or 0; otherwise the URL is exactly `http://localhost:` followed by the port's decimal rendering, which reads back as the port |
| Mock.ConfiguredMock.GetCli | src/configured-mock.js:196-198 | the `cli` of the reader's answer, which is `imposter-cli` or `imposter`, or the reader's error |
| Mock.ConfiguredMock.ListenForEvents | src/configured-mock.js:124-128 | when logging to a file, the log path is `imposter.log` in the temporary directory and a stream is opened on it; otherwise nothing changes |
| Mock.ConfiguredMock.OnClose | src/configured-mock.js:113-121 | a close with code 0 rejects nothing; any other code rejects with the code and the debug advice |
| Mock.ConfiguredMock.WaitUntilReady | src/configured-mock.js:137-155 | up at the first status 200; down with the port, the exit code and the debug advice at the first pass that sees an exit code; still polling otherwise |
| Mock.ConfiguredMock.Start | src/configured-mock.js:50-108 | the outcome, the spawn arguments and the mock's new fields are those of `StartPlan` on the old fields and the reader's answer |
| Mock.ConfiguredMock.Launch | src/configured-mock.js:66-105 | the promise `start` awaits: its outcome and the fields it sets are those of `LaunchPlan` |
| Mock.ConfiguredMock.Stop | src/configured-mock.js:157-174 | kills exactly a process with a truthy pid, swallows a kill that throws, closes the stream iff one is open, and throws nothing |

## Left out

- Process spawning, events and I/O are not modelled. The outcome of each `imposter` run, the file
  utilities' initialisation, `assignFreePort`, `discoverLocalConfig`, the temporary directory and
  the spawned process are inputs. Creating the temporary directory is assumed to succeed.
- The engine's 'error' and 'close' listeners can reject the start promise at any time, racing the
  readiness loop. This timing is not modelled. The 'close' listener is `OnClose` on its own, and
  the 'error' listener, which rejects with "Error running 'imposter' command", is not modelled.
- `httpGet` and `sleep` are not modelled. Each pass of the readiness loop is an observation of the
  exit code and of the probe. The loop in the source runs until the engine answers or exits. The
  model runs over a finite sequence of observations and reports `Pending`/`Polling` when they run
  out.
- Console debug and warning logging is left out, because it does not affect any result.
- `Number` is modelled only for decimal digit strings, after trimming, with empty giving 0. Other
  forms (sign, hexadecimal, exponent, `Infinity`) give `NaN` in the model.
- Version components are exact natural numbers. JavaScript `Number` gives a double, which rounds
  integers above 2^53; `versionAtLeast` then compares the rounded values. The model agrees with
  the program only for components below 2^53.
- Output chunks are text. Buffers are not distinguished from strings.
- The component name regular expression is a literal substring test. The names used are plain
  words.
- The version parse error's message ends at the closing quote of the output. The `: ` and the text
  of the underlying `TypeError` are not modelled. Only the message's prefix takes part in the
  program's decisions.
- `invokeVersionCommand` collects stdout and stderr into one output string in arrival order. The
  model takes that combined string as given.
- `Version.ParseVersion` follows the code where it is stricter than the comment before it. The
  version text is extracted from every line that mentions the component before the first is
  taken. So any such line without a second space-separated token makes the parse fail, not only
  the first one.
- `Mock.ConfiguredMock.Stop` reports what it does but does not clear `proc`, as the source does
  not. A stopped mock therefore still refuses a second `start`.
- Concurrency between overlapping calls on the same mock or reader is not modelled.
