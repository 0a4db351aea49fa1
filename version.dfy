/**
 * The CLI version reader of src/version.js: it runs `imposter version` once (falling back to
 * `imposter --version`), keeps the raw output, parses it into a major/minor/revision triple
 * tagged with the kind of CLI that printed it, caches that triple, and answers
 * "is the installed version at least X.Y.Z" questions.
 */
module Version {
  import opened Results
  import opened Text

  /** The `cli` tag of the current CLI, printed as `imposter-cli X.Y.Z` lines. */
  const ImposterCli: string := "imposter-cli"
  /** The `cli` tag of the older CLI, printed as `Version: X.Y.Z`. */
  const Imposter: string := "imposter"
  /** The prefix that selects the fallback parse. */
  const VersionPrefix: string := "Version: "
  /** The message prefix of a failed version query, which `initIfRequired` answers with a retry. */
  const DeterminingVersion: string := "Error determining version"
  /** The message prefix of a failed parse, which `determineCliVersion` answers with the fallback parse. */
  const ParsingVersion: string := "Error parsing version"
  // Long message constants are written as concatenations of short literals: the verifier
  // reasons about the characters of a short literal far more readily than of a long one.

  /** The rest of the message of a query that could not run, before the error's own text. */
  const FromCommand: string := " from 'imposter' command." + " Is Imposter CLI installed?\n"
  /** The rest of the message of a query whose process exited with a failure, before the code. */
  const TerminatedWith: string := ". Imposter process terminated " + "with code: "

  /** A `{major, minor, revision}` object; each part is whatever `Number` made of its text. */
  datatype Semver = Semver(major: Num, minor: Num, revision: Num)

  /** The cached `{major, minor, revision, cli}` object. */
  datatype CliVersion = CliVersion(version: Semver, cli: string)

  /** A version whose parts are all numbers. */
  function Release(major: nat, minor: nat, revision: nat): Semver {
    Semver(N(major), N(minor), N(revision))
  }

  /** The dotted `X.Y.Z` text of a release. */
  function Dotted(major: nat, minor: nat, revision: nat): string {
    NatToString(major) + "." + NatToString(minor) + "." + NatToString(revision)
  }

  /** How one run of the external `imposter` command ended (its spawn and event wiring are not modelled). */
  datatype VersionRun =
    | LaunchError(detail: string)              // the child process emitted `error`
    | Closed(code: Option<int>, output: string) // it closed with this exit code (None: null); stdout and stderr concatenated
    | SpawnThrew(detail: string)               // `spawn` itself threw

  /** The errors the version reader throws. */
  datatype VersionError =
    | CommandFailed(detail: string)
    | CommandExited(code: Option<int>)
    | SpawnFailed(detail: string)
    | NotInitialised
    | ParseFailed(output: string)
  {
    /** The `message` of the thrown `Error`. */
    function Message(): string {
      match this
      case CommandFailed(d) => DeterminingVersion + (FromCommand + d)
      case CommandExited(c) => DeterminingVersion + (TerminatedWith + CodeText(c))
      case SpawnFailed(d) => "Error spawning Imposter process: " + d
      case NotInitialised => "initIfRequired() not called"
      case ParseFailed(out) => ParsingVersion + " '" + out + "'"
    }
  }

  /** `${code}` for an exit code that may be null. */
  function CodeText(code: Option<int>): string {
    match code
    case None => "null"
    case Some(c) => IntToString(c)
  }

  /** The settled promise of `invokeVersionCommand`: the output on exit code 0, otherwise an error. */
  function InvokeVersionCommand(run: VersionRun): (r: Result<string, VersionError>)
    ensures r.Ok? <==> run.Closed? && run.code == Some(0)
    ensures r.Ok? ==> r.value == run.output
  {
    match run
    case LaunchError(d) => Err(CommandFailed(d))
    case Closed(code, out) => if code == Some(0) then Ok(out) else Err(CommandExited(code))
    case SpawnThrew(d) => Err(SpawnFailed(d))
  }

  /** The message test `initIfRequired` applies to the first query's error before retrying. */
  predicate WarrantsRetry(e: VersionError) {
    StartsWith(e.Message(), DeterminingVersion)
  }

  /** The retry is taken exactly for a launch error or a non-zero (or null) exit code. */
  lemma RetryOnlyForCommandErrors(run: VersionRun)
    requires InvokeVersionCommand(run).Err?
    ensures WarrantsRetry(InvokeVersionCommand(run).error) <==> run.LaunchError? || run.Closed?
  {
    var e := InvokeVersionCommand(run).error;
    match e
    case CommandFailed(d) =>
      StartsWithConcat(DeterminingVersion, FromCommand + d);
    case CommandExited(c) =>
      StartsWithConcat(DeterminingVersion, TerminatedWith + CodeText(c));
    case SpawnFailed(d) =>
      NotStartsWithAt(e.Message(), DeterminingVersion, 6);
  }

  /**
   * The raw output `initIfRequired` stores: the `imposter version` outcome, or on a
   * "could not determine" error the `imposter --version` outcome. Exit code 0 on the first run
   * gives its output; a launch error or another exit code gives the second run's outcome; a
   * throwing spawn is passed on without a second run.
   */
  function QueryVersionOutput(primary: VersionRun, fallback: VersionRun): (q: Result<string, VersionError>)
    ensures primary.Closed? && primary.code == Some(0) ==> q == Ok(primary.output)
    ensures primary.LaunchError? || (primary.Closed? && primary.code != Some(0)) ==> q == InvokeVersionCommand(fallback)
    ensures primary.SpawnThrew? ==> q == Err(SpawnFailed(primary.detail))
  {
    match InvokeVersionCommand(primary)
    case Ok(out) => Ok(out)
    case Err(e) =>
      RetryOnlyForCommandErrors(primary);
      if WarrantsRetry(e) then InvokeVersionCommand(fallback) else Err(e)
  }

  /** Index of the first line that mentions `name`. */
  function FirstMatch(lines: seq<string>, name: string): (r: Option<nat>)
    ensures r.Some? ==> r.value < |lines| && Contains(lines[r.value], name)
    ensures r.Some? ==> forall j :: 0 <= j < r.value ==> !Contains(lines[j], name)
    ensures r.None? ==> forall j :: 0 <= j < |lines| ==> !Contains(lines[j], name)
  {
    if |lines| == 0 then None
    else if Contains(lines[0], name) then Some(0)
    else match FirstMatch(lines[1..], name)
      case None => None
      case Some(k) => Some(k + 1)
  }

  /** `.map(l => l.split(' ')[1]...)` runs over every matching line, so each needs a second token. */
  predicate EveryMatchHasToken(lines: seq<string>, name: string) {
    forall j :: 0 <= j < |lines| && Contains(lines[j], name) ==> |Split(lines[j], ' ')| >= 2
  }

  /** `token.trim().split('.')` with `Number` applied to parts 0, 1 and 2 (a missing part is NaN). */
  function VersionParts(token: string): (v: Semver)
    ensures var parts := Split(Trim(token), '.');
      && (v.major.N? <==> AllDigits(Trim(parts[0])))
      && (v.minor.N? <==> |parts| > 1 && AllDigits(Trim(parts[1])))
      && (v.revision.N? <==> |parts| > 2 && AllDigits(Trim(parts[2])))
  {
    var parts := Split(Trim(token), '.');
    Semver(ToNumber(parts[0]), PartAt(parts, 1), PartAt(parts, 2))
  }

  function PartAt(parts: seq<string>, i: nat): Num {
    if i < |parts| then ToNumber(parts[i]) else NaN
  }

  /** `determineVersion`'s parse of initialised output: first line mentioning `name`, second space-separated token. */
  function ParseVersion(output: string, name: string): (r: Result<CliVersion, VersionError>)
    ensures r.Err? ==> r.error == ParseFailed(output)
    ensures r.Ok? ==> r.value.cli == ImposterCli
    ensures r.Ok? <==> FirstMatch(Split(output, '\n'), name).Some? && EveryMatchHasToken(Split(output, '\n'), name)
  {
    var lines := Split(output, '\n');
    if !EveryMatchHasToken(lines, name) then Err(ParseFailed(output))
    else match FirstMatch(lines, name)
      case None => Err(ParseFailed(output))
      case Some(k) => Ok(CliVersion(VersionParts(Split(lines[k], ' ')[1]), ImposterCli))
  }

  /** The characters a dotted version is made of: digits and '.'. */
  lemma DottedChars(major: nat, minor: nat, revision: nat, x: char)
    requires x in Dotted(major, minor, revision)
    ensures IsDigit(x) || x == '.'
  {
    var a, b, c := NatToString(major), NatToString(minor), NatToString(revision);
    assert Dotted(major, minor, revision) == a + "." + b + "." + c;
    assert x in a || x == '.' || x in b || x in c;
  }

  /** Trimmed and split on '.', the text `X.Y.Z` gives back the numbers X, Y and Z. */
  lemma DottedParts(token: string, major: nat, minor: nat, revision: nat)
    requires Trim(token) == Dotted(major, minor, revision)
    ensures VersionParts(token) == Release(major, minor, revision)
  {
    DottedSplit(major, minor, revision);
    ToNumberOfNatToString(major);
    ToNumberOfNatToString(minor);
    ToNumberOfNatToString(revision);
  }

  /** `X.Y.Z` splits on '.' into the decimal texts of X, Y and Z. */
  lemma DottedSplit(major: nat, minor: nat, revision: nat)
    ensures Split(Dotted(major, minor, revision), '.') == [NatToString(major), NatToString(minor), NatToString(revision)]
  {
    var a, b, c := NatToString(major), NatToString(minor), NatToString(revision);
    DigitsWithout(a, '.');
    DigitsWithout(b, '.');
    DigitsWithout(c, '.');
    DottedIsJoin(a, b, c);
    SplitJoin([a, b, c], '.');
  }

  lemma DottedIsJoin(a: string, b: string, c: string)
    ensures Join([a, b, c], '.') == a + "." + b + "." + c
  {
    assert [a, b, c][1..] == [b, c] && [b, c][1..] == [c];
    assert Join([b, c], '.') == b + "." + c;
  }

  /** The token `X.Y.Z` itself, untrimmed, gives back X, Y and Z. */
  lemma DottedToken(major: nat, minor: nat, revision: nat)
    ensures VersionParts(Dotted(major, minor, revision)) == Release(major, minor, revision)
  {
    var dotted := Dotted(major, minor, revision);
    var d := NatToString(revision);
    assert dotted[|dotted| - 1] == d[|d| - 1];
    TrimUnchanged(dotted);
    DottedParts(dotted, major, minor, revision);
  }

  /** The line `imposter-cli X.Y.Z` mentions `imposter-cli`, has no line break, and splits on ' ' into its two halves. */
  lemma PrimaryLine(major: nat, minor: nat, revision: nat)
    ensures var line := ImposterCli + " " + Dotted(major, minor, revision);
      && '\n' !in line && Contains(line, ImposterCli)
      && Split(line, ' ') == [ImposterCli, Dotted(major, minor, revision)]
  {
    var dotted := Dotted(major, minor, revision);
    var line := ImposterCli + " " + dotted;
    assert ' ' !in dotted && '\n' !in dotted by {
      forall i | 0 <= i < |dotted| ensures dotted[i] != ' ' && dotted[i] != '\n' {
        DottedChars(major, minor, revision, dotted[i]);
      }
    }
    assert line == "imposter-cli " + dotted;
    StartsWithConcat(ImposterCli, " " + dotted);
    assert line == Join([ImposterCli, dotted], ' ');
    SplitJoin([ImposterCli, dotted], ' ');
  }

  /** `FirstMatch` finds the line that matches when none before it does. */
  lemma FirstMatchAt(lines: seq<string>, name: string, k: nat)
    requires k < |lines| && Contains(lines[k], name)
    requires forall j :: 0 <= j < k ==> !Contains(lines[j], name)
    ensures FirstMatch(lines, name) == Some(k)
  {
  }

  /** The parse succeeds with the second token of the first matching line when every matching line has one. */
  lemma ParseVersionOfLines(output: string, name: string, k: nat, token: string)
    requires k < |Split(output, '\n')|
    requires EveryMatchHasToken(Split(output, '\n'), name)
    requires FirstMatch(Split(output, '\n'), name) == Some(k)
    requires |Split(Split(output, '\n')[k], ' ')| >= 2 && Split(Split(output, '\n')[k], ' ')[1] == token
    ensures ParseVersion(output, name) == Ok(CliVersion(VersionParts(token), ImposterCli))
  {
  }

  /**
   * Output whose lines are a line `imposter-cli X.Y.Z`, preceded by lines none of which mentions
   * `imposter-cli` and followed by lines each of which has a second token if it mentions it,
   * parses back to the release X.Y.Z.
   */
  lemma PrimaryParseRoundTrip(output: string, before: seq<string>, major: nat, minor: nat, revision: nat, after: seq<string>)
    requires Split(output, '\n') == before + [ImposterCli + " " + Dotted(major, minor, revision)] + after
    requires forall i :: 0 <= i < |before| ==> !Contains(before[i], ImposterCli)
    requires forall i :: 0 <= i < |after| ==> Contains(after[i], ImposterCli) ==> |Split(after[i], ' ')| >= 2
    ensures ParseVersion(output, ImposterCli) == Ok(CliVersion(Release(major, minor, revision), ImposterCli))
  {
    var dotted := Dotted(major, minor, revision);
    var lines := Split(output, '\n');
    PrimaryLine(major, minor, revision);
    PrimaryLinesMatch(lines, before, ImposterCli + " " + dotted, after);
    ParseVersionOfLines(output, ImposterCli, |before|, dotted);
    DottedToken(major, minor, revision);
  }

  /**
   * Lines made of non-matching lines, a matching line with a second token, and lines that have
   * one whenever they match: the first match is that line, and every match has a token.
   */
  lemma PrimaryLinesMatch(lines: seq<string>, before: seq<string>, line: string, after: seq<string>)
    requires lines == before + [line] + after
    requires Contains(line, ImposterCli) && |Split(line, ' ')| >= 2
    requires forall i :: 0 <= i < |before| ==> !Contains(before[i], ImposterCli)
    requires forall i :: 0 <= i < |after| ==> Contains(after[i], ImposterCli) ==> |Split(after[i], ' ')| >= 2
    ensures FirstMatch(lines, ImposterCli) == Some(|before|)
    ensures EveryMatchHasToken(lines, ImposterCli)
  {
    forall j | 0 <= j < |before| ensures !Contains(lines[j], ImposterCli) {
      assert lines[j] == before[j];
    }
    forall j | 0 <= j < |lines| && Contains(lines[j], ImposterCli)
      ensures |Split(lines[j], ' ')| >= 2
    {
      if j > |before| {
        assert lines[j] == after[j - |before| - 1];
      }
    }
    FirstMatchAt(lines, ImposterCli, |before|);
  }

  lemma ExampleCliLine()
    ensures ImposterCli + " " + Dotted(0, 1, 0) == "imposter-cli 0.1.0"
  {
    assert NatToString(0) == "0";
  }

  lemma ExampleLinesUnbroken()
    ensures '\n' !in "imposter-cli 0.1.0" && '\n' !in "imposter-engine 0.1.0"
  {
  }

  lemma ExampleOutputLines()
    ensures Split("imposter-cli 0.1.0" + "\n" + "imposter-engine 0.1.0", '\n')
         == [] + [ImposterCli + " " + Dotted(0, 1, 0)] + ["imposter-engine 0.1.0"]
  {
    ExampleLinesUnbroken();
    JoinTwo("imposter-cli 0.1.0", "imposter-engine 0.1.0", '\n');
    SplitJoin(["imposter-cli 0.1.0", "imposter-engine 0.1.0"], '\n');
    ExampleCliLine();
  }

  lemma ExampleEngineTokens()
    ensures Split("imposter-engine 0.1.0", ' ') == ["imposter-engine", "0.1.0"]
  {
    assert ' ' !in "imposter-engine" && ' ' !in "0.1.0";
    JoinTwo("imposter-engine", "0.1.0", ' ');
    assert "imposter-engine" + " " + "0.1.0" == "imposter-engine 0.1.0";
    SplitJoin(["imposter-engine", "0.1.0"], ' ');
  }

  /** The example output of the current CLI, which also reports its engine, parses to 0.1.0. */
  lemma PrimaryParseExample()
    ensures ParseVersion("imposter-cli 0.1.0" + "\n" + "imposter-engine 0.1.0", ImposterCli)
         == Ok(CliVersion(Release(0, 1, 0), ImposterCli))
  {
    ExampleOutputLines();
    ExampleEngineTokens();
    PrimaryParseRoundTrip("imposter-cli 0.1.0" + "\n" + "imposter-engine 0.1.0", [], 0, 1, 0, ["imposter-engine 0.1.0"]);
  }

  /** The message test `determineCliVersion` applies to the primary parse's error. */
  predicate IsParseError(e: VersionError) {
    StartsWith(e.Message(), ParsingVersion)
  }

  lemma ParseErrorMessage(e: VersionError)
    ensures IsParseError(e) <==> e.ParseFailed?
  {
    match e
    case CommandFailed(d) => CommandFailedIsNotParseError(d);
    case CommandExited(c) => CommandExitedIsNotParseError(c);
    case SpawnFailed(d) => SpawnFailedIsNotParseError(d);
    case NotInitialised => NotStartsWithAt(e.Message(), ParsingVersion, 0);
    case ParseFailed(out) => ParseFailedIsParseError(out);
  }

  lemma CommandFailedIsNotParseError(d: string)
    ensures !IsParseError(CommandFailed(d))
  {
    QueryErrorIsNotParseError(FromCommand + d);
  }

  lemma CommandExitedIsNotParseError(c: Option<int>)
    ensures !IsParseError(CommandExited(c))
  {
    QueryErrorIsNotParseError(TerminatedWith + CodeText(c));
  }

  /** A message that starts with the query-failure prefix does not start with the parse-failure prefix. */
  lemma QueryErrorIsNotParseError(rest: string)
    ensures !StartsWith(DeterminingVersion + rest, ParsingVersion)
  {
    NotStartsWithAt(DeterminingVersion + rest, ParsingVersion, 6);
  }

  lemma SpawnFailedIsNotParseError(d: string)
    ensures !IsParseError(SpawnFailed(d))
  {
    NotStartsWithAt(SpawnFailed(d).Message(), ParsingVersion, 6);
  }

  lemma ParseFailedIsParseError(out: string)
    ensures IsParseError(ParseFailed(out))
  {
    assert ParseFailed(out).Message() == ParsingVersion + (" '" + out + "'");
    StartsWithConcat(ParsingVersion, " '" + out + "'");
  }

  /** The fallback parse: the text after `Version: ` up to any later `Version: `, trimmed, split on '.'. */
  function FallbackVersion(output: string): CliVersion
    requires StartsWith(output, VersionPrefix)
  {
    CliVersion(VersionParts(UpTo(output[|VersionPrefix|..], VersionPrefix)), Imposter)
  }

  /**
   * What `determineCliVersion` computes from initialised output: the primary parse, else the
   * fallback when the output starts with `Version: `, else the primary parse error unchanged.
   */
  function CliVersionOf(output: string): (r: Result<CliVersion, VersionError>)
    ensures r.Err? <==> ParseVersion(output, ImposterCli).Err? && !StartsWith(output, VersionPrefix)
    ensures r.Err? ==> r.error == ParseFailed(output)
    ensures r.Ok? ==> r.value.cli == ImposterCli || r.value.cli == Imposter
    ensures r.Ok? && r.value.cli == ImposterCli ==> r == ParseVersion(output, ImposterCli)
    ensures r.Ok? && r.value.cli == Imposter ==> StartsWith(output, VersionPrefix) && ParseVersion(output, ImposterCli).Err?
  {
    match ParseVersion(output, ImposterCli)
    case Ok(v) => Ok(v)
    case Err(e) =>
      ParseErrorMessage(e);
      if IsParseError(e) && StartsWith(output, VersionPrefix) then Ok(FallbackVersion(output)) else Err(e)
  }

  /**
   * The older CLI prints `Version: X.Y.Z`, possibly followed by whitespace: no line mentions
   * `imposter-cli`, so the fallback parse applies and gives back the release tagged `imposter`.
   */
  lemma FallbackParseRoundTrip(major: nat, minor: nat, revision: nat, trailer: string)
    requires forall i :: 0 <= i < |trailer| ==> IsWhitespace(trailer[i])
    ensures CliVersionOf(VersionPrefix + Dotted(major, minor, revision) + trailer)
         == Ok(CliVersion(Release(major, minor, revision), Imposter))
  {
    var rest := Dotted(major, minor, revision) + trailer;
    var output := VersionPrefix + rest;
    assert output == VersionPrefix + Dotted(major, minor, revision) + trailer;
    FallbackTextWithout(major, minor, revision, trailer);
    NoPrimaryLine(output);
    StartsWithConcat(VersionPrefix, rest);
    assert output[|VersionPrefix|..] == rest;
    FallbackToken(major, minor, revision, trailer);
    ParseErrorMessage(ParseFailed(output));
  }

  /** `Version: X.Y.Z` and a whitespace trailer hold no `-`, and no `V` after the prefix. */
  lemma FallbackTextWithout(major: nat, minor: nat, revision: nat, trailer: string)
    requires forall i :: 0 <= i < |trailer| ==> IsWhitespace(trailer[i])
    ensures var rest := Dotted(major, minor, revision) + trailer;
      (forall i :: 0 <= i < |rest| ==> rest[i] != '-' && rest[i] != 'V') && '-' !in VersionPrefix + rest
  {
    var dotted := Dotted(major, minor, revision);
    var rest := dotted + trailer;
    var output := VersionPrefix + rest;
    forall i | 0 <= i < |rest| ensures rest[i] != '-' && rest[i] != 'V' {
      if i >= |dotted| {
        assert IsWhitespace(trailer[i - |dotted|]);
      } else {
        DottedChars(major, minor, revision, dotted[i]);
      }
    }
    forall i | 0 <= i < |output| ensures output[i] != '-' {
      if i >= |VersionPrefix| {
        assert output[i] == rest[i - |VersionPrefix|];
      } else {
        assert output[i] == "Version: "[i];
      }
    }
  }

  /** Output without a `-` has no line naming `imposter-cli`. */
  lemma NoPrimaryLine(output: string)
    requires '-' !in output
    ensures FirstMatch(Split(output, '\n'), ImposterCli).None?
  {
    var lines := Split(output, '\n');
    SplitPiecesWithout(output, '\n', '-');
    assert ImposterCli[8] == '-';
    forall j | 0 <= j < |lines|
      ensures !Contains(lines[j], ImposterCli)
    {
      NotContainsWithout(lines[j], ImposterCli, 8);
    }
  }

  /** What follows `Version: ` reads back as the release. */
  lemma FallbackToken(major: nat, minor: nat, revision: nat, trailer: string)
    requires forall i :: 0 <= i < |trailer| ==> IsWhitespace(trailer[i])
    requires forall i :: 0 <= i < |Dotted(major, minor, revision) + trailer| ==> (Dotted(major, minor, revision) + trailer)[i] != 'V'
    ensures VersionParts(UpTo(Dotted(major, minor, revision) + trailer, VersionPrefix)) == Release(major, minor, revision)
  {
    var dotted := Dotted(major, minor, revision);
    var rest := dotted + trailer;
    UpToWithout(rest, VersionPrefix);
    var d := NatToString(revision);
    assert dotted[|dotted| - 1] == d[|d| - 1];
    assert dotted[0] == NatToString(major)[0];
    TrimTrailing(dotted, trailer);
    DottedParts(rest, major, minor, revision);
  }

  /** JavaScript `a > b` on numbers (false when either is NaN). */
  predicate Gt(a: Num, b: Num) {
    a.N? && b.N? && a.value > b.value
  }

  /** JavaScript `a === b` on numbers (false when either is NaN). */
  predicate StrictEq(a: Num, b: Num) {
    a.N? && b.N? && a.value == b.value
  }

  /** JavaScript `a >= b` on numbers (false when either is NaN). */
  predicate Ge(a: Num, b: Num) {
    a.N? && b.N? && a.value >= b.value
  }

  /**
   * `versionAtLeast(required, test)`: is `test` at or above `required`? On numeric versions
   * this is the lexicographic order on (major, minor, revision).
   */
  predicate VersionAtLeast(required: Semver, test: Semver)
    ensures IsNumeric(required) && IsNumeric(test) ==>
      (VersionAtLeast(required, test) <==> LexLe(Parts(required), Parts(test)))
  {
    var atLeast :=
      if Gt(test.major, required.major) then true
      else if StrictEq(test.major, required.major) then
        if Gt(test.minor, required.minor) then true
        else if StrictEq(test.minor, required.minor) then Ge(test.revision, required.revision)
        else false
      else false;
    if IsNumeric(required) && IsNumeric(test) then
      LexLeOfThree(Parts(required), Parts(test));
      atLeast
    else
      atLeast
  }

  /** A version all of whose parts are numbers. */
  predicate IsNumeric(v: Semver) {
    v.major.N? && v.minor.N? && v.revision.N?
  }

  function Parts(v: Semver): seq<nat>
    requires IsNumeric(v)
  {
    [v.major.value, v.minor.value, v.revision.value]
  }

  /** Lexicographic order on equally long sequences of naturals. */
  predicate LexLe(a: seq<nat>, b: seq<nat>)
    requires |a| == |b|
  {
    a == [] || a[0] < b[0] || (a[0] == b[0] && LexLe(a[1..], b[1..]))
  }

  /** On sequences of three, the lexicographic order compares the first, then the second, then the third. */
  lemma LexLeOfThree(a: seq<nat>, b: seq<nat>)
    requires |a| == |b| == 3
    ensures LexLe(a, b) <==> a[0] < b[0] || (a[0] == b[0] && (a[1] < b[1] || (a[1] == b[1] && a[2] <= b[2])))
  {
    assert a[1..] == [a[1], a[2]] && b[1..] == [b[1], b[2]];
    assert a[1..][1..] == [a[2]] && b[1..][1..] == [b[2]];
    assert LexLe(a[1..][1..], b[1..][1..]) <==> a[2] <= b[2] by {
      assert a[1..][1..][1..] == [];
    }
  }

  lemma {:induction false} LexLeTotal(a: seq<nat>, b: seq<nat>)
    requires |a| == |b|
    ensures LexLe(a, b) || LexLe(b, a)
  {
    if a != [] && a[0] == b[0] {
      LexLeTotal(a[1..], b[1..]);
    }
  }

  lemma {:induction false} LexLeTransitive(a: seq<nat>, b: seq<nat>, c: seq<nat>)
    requires |a| == |b| == |c|
    requires LexLe(a, b) && LexLe(b, c)
    ensures LexLe(a, c)
  {
    if a != [] && a[0] == b[0] == c[0] {
      LexLeTransitive(a[1..], b[1..], c[1..]);
    }
  }

  lemma {:induction false} LexLeAntisymmetric(a: seq<nat>, b: seq<nat>)
    requires |a| == |b|
    requires LexLe(a, b) && LexLe(b, a)
    ensures a == b
  {
    if a != [] {
      LexLeAntisymmetric(a[1..], b[1..]);
      assert a == [a[0]] + a[1..] && b == [b[0]] + b[1..];
    }
  }

  /** On numeric versions `versionAtLeast` is a total order: reflexive, total, transitive and antisymmetric. */
  lemma VersionAtLeastTotalOrder(u: Semver, v: Semver, w: Semver)
    requires IsNumeric(u) && IsNumeric(v) && IsNumeric(w)
    ensures VersionAtLeast(u, u)
    ensures VersionAtLeast(u, v) || VersionAtLeast(v, u)
    ensures VersionAtLeast(u, v) && VersionAtLeast(v, w) ==> VersionAtLeast(u, w)
    ensures VersionAtLeast(u, v) && VersionAtLeast(v, u) ==> u == v
  {
    LexLeTotal(Parts(u), Parts(v));
    if VersionAtLeast(u, v) && VersionAtLeast(v, w) {
      LexLeTransitive(Parts(u), Parts(v), Parts(w));
    }
    if VersionAtLeast(u, v) && VersionAtLeast(v, u) {
      LexLeAntisymmetric(Parts(u), Parts(v));
    }
  }

  /** A NaN major part fails every comparison, even against itself. */
  lemma NaNMajorNeverAtLeast(required: Semver, test: Semver)
    requires test.major.NaN? || required.major.NaN?
    ensures !VersionAtLeast(required, test)
  {
  }

  /** Four comparisons against 1.2.3: equal, a higher revision, a lower minor, a higher major. */
  lemma VersionAtLeastExamples()
    ensures VersionAtLeast(Release(1, 2, 3), Release(1, 2, 3))
    ensures VersionAtLeast(Release(1, 2, 3), Release(1, 2, 4))
    ensures !VersionAtLeast(Release(1, 2, 3), Release(1, 1, 9))
    ensures VersionAtLeast(Release(1, 2, 3), Release(2, 0, 0))
  {
  }

  /**
   * The process-wide version reader. `initialised` and `versionOutput` are set together,
   * once, by a successful query; `cliVersion` caches the first successful parse of that output.
   */
  class VersionReader {
    var initialised: bool
    var versionOutput: Option<string>
    var cliVersion: Option<CliVersion>

    ghost predicate Valid()
      reads this
    {
      && (initialised <==> versionOutput.Some?)
      && (cliVersion.Some? ==> initialised && CliVersionOf(versionOutput.value) == Ok(cliVersion.value))
    }

    constructor ()
      ensures Valid()
      ensures !initialised && versionOutput == None && cliVersion == None
    {
      initialised := false;
      versionOutput := None;
      cliVersion := None;
    }

    /** What `determineCliVersion` would answer now. */
    function CurrentCliVersion(): Result<CliVersion, VersionError>
      reads this
      requires Valid()
    {
      if cliVersion.Some? then Ok(cliVersion.value)
      else if !initialised then Err(NotInitialised)
      else CliVersionOf(versionOutput.value)
    }

    /**
     * `initIfRequired`: runs the version query unless already initialised. `primary` and
     * `fallback` are how `imposter version` and `imposter --version` would end; `invoked`
     * lists the arguments of the runs actually made.
     */
    method InitIfRequired(primary: VersionRun, fallback: VersionRun) returns (r: Result<(), VersionError>, invoked: seq<string>)
      requires Valid()
      modifies this
      ensures Valid()
      ensures old(initialised) ==> r == Ok(()) && invoked == [] && unchanged(this)
      ensures !old(initialised) ==> cliVersion == old(cliVersion)
      ensures !old(initialised) ==> var q := QueryVersionOutput(primary, fallback);
        && (r.Ok? <==> q.Ok?)
        && (q.Err? ==> r.error == q.error)
        && initialised == q.Ok?
        && versionOutput == (if q.Ok? then Some(q.value) else None)
      ensures !old(initialised) ==> invoked == if InvokeVersionCommand(primary).Err? && WarrantsRetry(InvokeVersionCommand(primary).error)
                                               then ["version", "--version"] else ["version"]
    {
      if initialised {
        return Ok(()), [];
      }
      invoked := ["version"];
      var first := InvokeVersionCommand(primary);
      if first.Ok? {
        versionOutput := Some(first.value);
      } else if WarrantsRetry(first.error) {
        invoked := invoked + ["--version"];
        var second := InvokeVersionCommand(fallback);
        if second.Err? {
          return Err(second.error), invoked;
        }
        versionOutput := Some(second.value);
      } else {
        return Err(first.error), invoked;
      }
      initialised := true;
      r := Ok(());
    }

    /** `determineVersion(name)`: refuses before initialisation, otherwise parses the stored output. */
    function DetermineVersion(name: string): (r: Result<CliVersion, VersionError>)
      reads this
      requires Valid()
      ensures r == Err(NotInitialised) <==> !initialised
      ensures initialised ==> r == ParseVersion(versionOutput.value, name)
    {
      if !initialised then Err(NotInitialised) else ParseVersion(versionOutput.value, name)
    }

    /**
     * `determineCliVersion`: answers from the cache when it is set, otherwise computes,
     * caching a success. The answer never changes from one call to the next.
     */
    method DetermineCliVersion() returns (r: Result<CliVersion, VersionError>)
      requires Valid()
      modifies this`cliVersion
      ensures Valid()
      ensures r == old(CurrentCliVersion()) && CurrentCliVersion() == r
      ensures old(cliVersion).Some? ==> cliVersion == old(cliVersion)
      ensures old(cliVersion).None? ==> cliVersion == if r.Ok? then Some(r.value) else None
    {
      if cliVersion.None? {
        var primary := DetermineVersion(ImposterCli);
        if primary.Ok? {
          cliVersion := Some(primary.value);
        } else {
          ParseErrorMessage(primary.error);
          if IsParseError(primary.error) && StartsWith(versionOutput.value, VersionPrefix) {
            cliVersion := Some(FallbackVersion(versionOutput.value));
          } else {
            return Err(primary.error);
          }
        }
      }
      r := Ok(cliVersion.value);
    }

    /**
     * `runIfVersionAtLeast(major, minor, revision, block, orElseBlock)`: the callbacks are
     * represented by the values they return; the result is that of the branch run, or
     * None (`undefined`) when no branch runs.
     */
    method RunIfVersionAtLeast<T>(major: nat, minor: nat, revision: nat, block: T, orElse: Option<T>)
      returns (r: Result<Option<T>, VersionError>)
      requires Valid()
      modifies this`cliVersion
      ensures Valid() && CurrentCliVersion() == old(CurrentCliVersion())
      ensures old(CurrentCliVersion()).Err? ==> r == Err(old(CurrentCliVersion()).error)
      ensures old(CurrentCliVersion()).Ok? && VersionAtLeast(Release(major, minor, revision), old(CurrentCliVersion()).value.version) ==>
        r == Ok(Some(block))
      ensures old(CurrentCliVersion()).Ok? && !VersionAtLeast(Release(major, minor, revision), old(CurrentCliVersion()).value.version) ==>
        r == Ok(orElse)
    {
      var current := DetermineCliVersion();
      if current.Err? {
        return Err(current.error);
      }
      var atLeast := VersionAtLeast(Release(major, minor, revision), current.value.version);
      if atLeast {
        r := Ok(Some(block));
      } else if orElse.Some? {
        r := Ok(Some(orElse.value));
      } else {
        r := Ok(None);
      }
    }
  }
}
