/** What the command-line parser guarantees, proved about its specification. */
module FlagProperties {
  import opened Wrappers
  import opened OptionTable
  import opened Strings
  import opened Configuration
  import opened Menu
  import opened MenuProperties
  import opened PasswordPrompt
  import opened FlagParser

  /** A step that does not fail for lack of a value reads nothing past the token it stands on and the one after it. */
  lemma StepPrefix(args: seq<string>, more: seq<string>, i: nat, st: ScanState, env: Env)
    requires i < |args|
    requires var r := Step(args, i, st, env); !(r.Halt? && r.error.MissingArgument?)
    ensures Step(args + more, i, st, env) == Step(args, i, st, env)
  {
    assert (args + more)[i] == args[i];
    if i + 1 < |args| {
      assert (args + more)[i + 1] == args[i + 1];
    }
  }

  /** A scan that consumed exactly the prefix continues on the extended arguments from the state it reached. */
  lemma {:induction false} ScanDonePrefix(args: seq<string>, more: seq<string>, i: nat, st: ScanState, env: Env)
    requires i <= |args|
    requires var r := Scan(args, i, st, env); r.Done? && r.at == |args|
    ensures Scan(args + more, i, st, env) == Scan(args + more, |args|, Scan(args, i, st, env).state, env)
    decreases |args| - i
  {
    if i < |args| {
      var r := Step(args, i, st, env);
      assert r.Next?;
      StepPrefix(args, more, i, st, env);
      assert r.at <= |args|;
      ScanDonePrefix(args, more, r.at, r.state, env);
    }
  }

  /** A scan stopped by anything but a missing value stops the same way whatever follows the arguments. */
  lemma {:induction false} ScanStopPrefix(args: seq<string>, more: seq<string>, i: nat, st: ScanState, env: Env)
    requires i <= |args|
    requires var r := Scan(args, i, st, env); r.Stopped? && !r.error.MissingArgument?
    ensures Scan(args + more, i, st, env) == Scan(args, i, st, env)
    decreases |args| - i
  {
    var r := Step(args, i, st, env);
    StepPrefix(args, more, i, st, env);
    if r.Next? {
      ScanStopPrefix(args, more, r.at, r.state, env);
    }
  }

  /** A switch that needs a value fails with the option's mandatory-argument error when no token follows it. */
  lemma StepWithoutValue(args: seq<string>, i: nat, st: ScanState, env: Env)
    requires i + 1 == |args| && Lookup(args[i]).Some? && TakesValue(Lookup(args[i]).value)
    ensures var sw := Lookup(args[i]).value;
      Step(args, i, st, env) == Halt(MissingArgument(sw), st.(config := PreCheck(sw, st.config)))
  {
    var sw := Lookup(args[i]).value;
    assert sw != Help && sw != License && sw != Interactive;
  }

  /** A switch that needs a value, given as the last argument, fails with "argument for ... is mandatory". */
  lemma TrailingValueSwitch(args: seq<string>, token: string, st: ScanState, env: Env)
    requires Lookup(token).Some? && TakesValue(Lookup(token).value)
    requires var r := Scan(args, 0, st, env); r.Done? && r.at == |args|
    ensures var sw := Lookup(token).value;
      var reached := Scan(args, 0, st, env).state;
      Scan(args + [token], 0, st, env)
        == Stopped(MissingArgument(sw), reached.(config := PreCheck(sw, reached.config)), |args|)
  {
    ScanDonePrefix(args, [token], 0, st, env);
    assert (args + [token])[|args|] == token;
    StepWithoutValue(args + [token], |args|, Scan(args, 0, st, env).state, env);
  }

  /** An unknown token, or --help, stops the scan where it stands, whatever follows it. */
  lemma UnknownTokenStops(args: seq<string>, token: string, more: seq<string>, st: ScanState, env: Env)
    requires Lookup(token).None? || Lookup(token) == Some(Help)
    requires var r := Scan(args, 0, st, env); r.Done? && r.at == |args|
    ensures var reached := Scan(args, 0, st, env).state;
      Scan(args + [token] + more, 0, st, env)
        == Stopped(if Lookup(token).None? then UnknownOption(token) else HelpRequested, reached, |args|)
  {
    assert args + [token] + more == args + ([token] + more);
    ScanDonePrefix(args, [token] + more, 0, st, env);
    assert (args + ([token] + more))[|args|] == token;
  }

  /** --level accepts exactly the export level names, and otherwise reports the value with the full list of names. */
  lemma LevelChecked(v: string, c: Config, env: Env)
    ensures var e := ApplyValue(Level, v, c, env);
      && (e.error.None? <==> v in LevelNames())
      && (e.error.None? ==> LevelName(e.config.tasks.report.exportLevel) == v
                            && e.config == WithTasks(c, c.tasks.(report := c.tasks.report.(exportLevel := e.config.tasks.report.exportLevel))))
      && (e.error.Some? ==> e.error.value == NotInEnum(Level, v, LevelNames()) && e.config == c)
  {
    LevelNamesRoundTrip(v, Full);
    if ParseLevel(v).Some? {
      LevelNamesRoundTrip(v, ParseLevel(v).value);
    }
  }

  /** --protocol accepts exactly the connection type names, and otherwise reports the value with the full list of names. */
  lemma ProtocolChecked(v: string, c: Config, env: Env)
    ensures var e := ApplyValue(Protocol, v, c, env);
      && (e.error.None? <==> v in ConnectionTypeNames())
      && (e.error.None? ==> ConnectionTypeName(e.config.settings.connectionType) == v
                            && e.config == c.(settings := c.settings.(connectionType := e.config.settings.connectionType)))
      && (e.error.Some? ==> e.error.value == NotInEnum(Protocol, v, ConnectionTypeNames()) && e.config == c)
  {
    ConnectionTypeNamesRoundTrip(v, ADWSThenLDAP);
    if ParseConnectionType(v).Some? {
      ConnectionTypeNamesRoundTrip(v, ParseConnectionType(v).value);
    }
  }

  /** --scanner accepts exactly the registered scanner names, selecting the scanner and its intent. */
  lemma ScannerChecked(v: string, c: Config, env: Env)
    ensures var e := ApplyValue(Scanner, v, c, env);
      && (e.error.None? <==> v in env.scanners)
      && (e.error.None? ==> e.config.tasks.scanner == v && e.config.intents.scanner)
      && (e.error.Some? ==> e.error.value == UnknownScanner(v) && e.config == c)
  {
  }

  /** Value switches leave the intents alone, except --scanner, which sets its own intent on success. */
  lemma ValueKeepsIntents(sw: Switch, v: string, c: Config, env: Env)
    requires TakesValue(sw) && !WritesLocal(sw)
    ensures var e := ApplyValue(sw, v, c, env);
      e.config.intents == if sw == Scanner && e.error.None? then c.intents.(scanner := true) else c.intents
  {
    if !StoresText(sw) {
      ParsedKeepsIntents(sw, v, c, env);
    }
  }

  lemma ParsedKeepsIntents(sw: Switch, v: string, c: Config, env: Env)
    requires TakesValue(sw) && !WritesLocal(sw) && !StoresText(sw)
    ensures var e := ApplyParsed(sw, v, c, env);
      e.config.intents == if sw == Scanner && e.error.None? then c.intents.(scanner := true) else c.intents
  {
  }

  /** --user DOMAIN\name splits at the first backslash; without one the whole value is the user and an earlier domain stays. */
  lemma UserSplit(args: seq<string>, i: nat, st: ScanState, env: Env)
    requires i + 1 < |args| && args[i] == "--user"
    ensures var r := Step(args, i, st, env);
      var v := args[i + 1];
      && r.Next? && r.at == i + 2 && r.state.config == st.config && r.state.user.Some?
      && ('\\' in v ==> r.state.userDomain.Some? && v == r.state.userDomain.value + "\\" + r.state.user.value
                        && '\\' !in r.state.userDomain.value)
      && ('\\' !in v ==> r.state.user == Some(v) && r.state.userDomain == st.userDomain)
  {
    UserToken();
    SplitUserParts(args[i + 1]);
  }

  lemma UserToken()
    ensures Lookup("--user") == Some(User)
  {
  }

  /** --license consumes the next token unchecked: even a switch is skipped, and a trailing --license is no error. */
  lemma LicenseSkipsNext(args: seq<string>, i: nat, st: ScanState, env: Env)
    requires i < |args| && args[i] == "--license"
    ensures Step(args, i, st, env) == Next(i + 2, st)
    ensures i + 1 == |args| ==> Scan(args, i, st, env) == Done(st, |args| + 1)
    ensures i + 1 < |args| ==> Scan(args, i, st, env) == Scan(args, i + 2, st, env)
  {
  }

  /** The switches that write the report path. */
  predicate ReportPathSwitch(token: string) {
    token in ["--xmls", "--regen-report", "--reload-report", "--slim-report"]
  }

  /** Each report-path switch stores its value there, after setting its own intent if it has one. */
  lemma ReportPathStep(args: seq<string>, i: nat, st: ScanState, env: Env, sw: Switch)
    requires i + 1 < |args| && Lookup(args[i]) == Some(sw)
    requires sw == Xmls || sw == RegenReport || sw == ReloadReport
    ensures Step(args, i, st, env)
         == Next(i + 2, st.(config := WithTasks(PreCheck(sw, st.config), PreCheck(sw, st.config).tasks.(fileOrDirectory := args[i + 1]))))
  {
    assert TakesValue(sw) && !WritesLocal(sw) && StoresText(sw);
    assert sw != Help && sw != License && sw != Interactive && sw != User && sw != Password;
    var c0 := PreCheck(sw, st.config);
    assert StoreText(sw, args[i + 1], c0) == WithTasks(c0, c0.tasks.(fileOrDirectory := args[i + 1]));
  }

  /** The switch a report-path token selects. */
  function ReportPathTarget(token: string): (sw: Switch)
    requires ReportPathSwitch(token)
    ensures Lookup(token) == Some(sw)
    ensures sw == Xmls || sw == RegenReport || sw == ReloadReport
    ensures sw == RegenReport <==> token == "--regen-report"
    ensures sw == ReloadReport <==> token in ["--reload-report", "--slim-report"]
  {
    if token == "--xmls" then Xmls else if token == "--regen-report" then RegenReport else ReloadReport
  }

  /** The three switches that write the report path share it: the last one given wins, and each sets its own intent. */
  lemma ReportPathLastWins(first: string, a: string, second: string, b: string, st: ScanState, env: Env)
    requires ReportPathSwitch(first) && ReportPathSwitch(second)
    ensures var r := Scan([first, a, second, b], 0, st, env);
      && r.Done? && r.at == 4
      && r.state.config.tasks.fileOrDirectory == b
      && (r.state.config.intents.regenerateReport <==>
            st.config.intents.regenerateReport || first == "--regen-report" || second == "--regen-report")
      && (r.state.config.intents.reloadReport <==>
            st.config.intents.reloadReport || first in ["--reload-report", "--slim-report"]
            || second in ["--reload-report", "--slim-report"])
  {
    var args := [first, a, second, b];
    var st1 := ReportPathScan(args, 0, st, env);
    var st2 := ReportPathScan(args, 2, st1, env);
    assert Scan(args, 4, st2, env) == Done(st2, 4);
  }

  /** One report-path switch with its value, seen from the loop: the scan goes on two tokens later with the path stored. */
  lemma ReportPathScan(args: seq<string>, i: nat, st: ScanState, env: Env) returns (next: ScanState)
    requires i + 1 < |args| && ReportPathSwitch(args[i])
    ensures Scan(args, i, st, env) == Scan(args, i + 2, next, env)
    ensures next.config.tasks.fileOrDirectory == args[i + 1]
    ensures next.config.intents.regenerateReport <==>
      st.config.intents.regenerateReport || args[i] == "--regen-report"
    ensures next.config.intents.reloadReport <==>
      st.config.intents.reloadReport || args[i] in ["--reload-report", "--slim-report"]
  {
    var sw := ReportPathTarget(args[i]);
    ReportPathStep(args, i, st, env, sw);
    PreCheckIntents(sw, st.config);
    next := Step(args, i, st, env).state;
  }

  /** The tokens the loop moves past at a token it accepts: two for --license and for a switch that takes a value, one otherwise. */
  function Width(token: string): (w: nat)
    ensures w == 1 || w == 2
  {
    match Lookup(token)
    case Some(sw) => if sw == License || TakesValue(sw) then 2 else 1
    case None => 1
  }

  /**
   * The report path a command line leaves, read off its tokens alone: the
   * value after the last report-path switch the loop stands on, or `path`
   * when there is none.
   */
  function LastReportPath(args: seq<string>, i: nat, path: string): string
    decreases |args| - i
  {
    if i >= |args| then path
    else if ReportPathSwitch(args[i]) && i + 1 < |args| then LastReportPath(args, i + 2, args[i + 1])
    else LastReportPath(args, i + Width(args[i]), path)
  }

  /** A step the loop goes on from moves past exactly the width of its token. */
  lemma StepWidth(args: seq<string>, i: nat, st: ScanState, env: Env)
    requires i < |args| && Step(args, i, st, env).Next?
    ensures Step(args, i, st, env).at == i + Width(args[i])
  {
  }

  /** The switches without a value never write the report path. */
  lemma FlagKeepsReportPath(sw: Switch, c: Config)
    requires !TakesValue(sw) && sw != Help && sw != License && sw != Interactive
    ensures ApplyFlag(sw, c).tasks.fileOrDirectory == c.tasks.fileOrDirectory
  {
  }

  /** The text switches other than the three report-path ones never write the report path. */
  lemma TextKeepsReportPath(sw: Switch, v: string, c: Config)
    requires StoresText(sw) && sw != Xmls && sw != RegenReport && sw != ReloadReport
    ensures StoreText(sw, v, c).tasks.fileOrDirectory == c.tasks.fileOrDirectory
  {
  }

  /** The switches that convert or check their value never write the report path, whether they succeed or fail. */
  lemma ParsedKeepsReportPath(sw: Switch, v: string, c: Config, env: Env)
    requires TakesValue(sw) && !WritesLocal(sw) && !StoresText(sw)
    ensures ApplyParsed(sw, v, c, env).config.tasks.fileOrDirectory == c.tasks.fileOrDirectory
  {
  }

  /** The value switches other than the three report-path ones never write the report path, whether they succeed or fail. */
  lemma ValueKeepsReportPath(sw: Switch, v: string, c: Config, env: Env)
    requires TakesValue(sw) && !WritesLocal(sw)
    requires sw != Xmls && sw != RegenReport && sw != ReloadReport
    ensures ApplyValue(sw, v, c, env).config.tasks.fileOrDirectory == c.tasks.fileOrDirectory
  {
    if StoresText(sw) {
      TextKeepsReportPath(sw, v, c);
    } else {
      ParsedKeepsReportPath(sw, v, c, env);
    }
  }

  /** Only the report-path switches write the report path: a step at any other token, whether it goes on or fails, leaves it alone. */
  lemma StepKeepsReportPath(args: seq<string>, i: nat, st: ScanState, env: Env)
    requires i < |args| && !ReportPathSwitch(args[i])
    ensures Step(args, i, st, env).state.config.tasks.fileOrDirectory == st.config.tasks.fileOrDirectory
  {
    match Lookup(args[i])
    case None =>
    case Some(sw) =>
      SelectedBySpelling(args[i]);
      assert sw != Xmls && sw != RegenReport && sw != ReloadReport;
      if sw == Help || sw == License || sw == Interactive {
      } else if !TakesValue(sw) {
        FlagKeepsReportPath(sw, st.config);
      } else if i + 1 < |args| && !WritesLocal(sw) {
        ValueKeepsReportPath(sw, args[i + 1], st.config, env);
      }
  }

  /** A report-path switch with no token after it stops the loop. */
  lemma ReportPathNeedsValue(args: seq<string>, i: nat, st: ScanState, env: Env)
    requires i + 1 == |args| && ReportPathSwitch(args[i])
    ensures Step(args, i, st, env).Halt?
  {
    var sw := ReportPathTarget(args[i]);
    StepWithoutValue(args, i, st, env);
  }

  /**
   * The report path after a command line the loop accepts is the value of the
   * last report-path switch on it, wherever it stands, or the path the loop
   * started with when there is none.
   */
  lemma {:induction false} ScanReportPath(args: seq<string>, i: nat, st: ScanState, env: Env)
    requires Scan(args, i, st, env).Done?
    ensures Scan(args, i, st, env).state.config.tasks.fileOrDirectory
         == LastReportPath(args, i, st.config.tasks.fileOrDirectory)
    decreases |args| - i
  {
    if i < |args| {
      if ReportPathSwitch(args[i]) && i + 1 == |args| {
        ReportPathNeedsValue(args, i, st, env);
        assert false;
      }
      if ReportPathSwitch(args[i]) {
        var next := ReportPathScan(args, i, st, env);
        ScanReportPath(args, i + 2, next, env);
      } else {
        var r := Step(args, i, st, env);
        assert r.Next?;
        StepKeepsReportPath(args, i, st, env);
        StepWidth(args, i, st, env);
        ScanReportPath(args, r.at, r.state, env);
      }
    }
  }

  /** --regen-report and --reload-report set their own intent and nothing else. */
  lemma PreCheckIntents(sw: Switch, c: Config)
    ensures PreCheck(sw, c).tasks == c.tasks
    ensures PreCheck(sw, c).intents.regenerateReport <==> c.intents.regenerateReport || sw == RegenReport
    ensures PreCheck(sw, c).intents.reloadReport <==> c.intents.reloadReport || sw == ReloadReport
  {
  }

  /** Finish reports only a missing domain or a missing directory. */
  lemma FinishErrors(st: ScanState, console: seq<Answer>, env: Env)
    ensures var r := Finish(st, console, env);
      r.error.Some? ==> r.error.value == NoDomain || r.error.value.NotADirectory?
  {
  }

  /** The completeness check fails for lack of a task exactly when no intent is set and --interactive was not given. */
  lemma NoIntentIff(st: ScanState, console: seq<Answer>, env: Env)
    ensures Complete(st, console, env).error == Some(NoIntent) <==> !AnyIntent(st.config.intents) && !st.delayedInteractive
  {
    if st.delayedInteractive {
      var r := InteractiveSession(st.config, console, env);
      FinishErrors(st.(config := r.config), r.input, env);
    } else if AnyIntent(st.config.intents) {
      FinishErrors(st, console, env);
    }
  }

  /** A domain-facing task without a server fails exactly when the machine has no domain to fall back on. */
  lemma NoDomainIff(st: ScanState, console: seq<Answer>, env: Env)
    ensures Finish(st, console, env).error == Some(NoDomain)
        <==> DirectoryFacing(st.config.intents) && st.config.tasks.server == "" && env.currentDomain == ""
  {
  }

  /** The consolidation check changes at most the report path, and fails only on a missing directory. */
  lemma ConsolidationCheckScope(c: Config, console: seq<Answer>, env: Env)
    ensures var r := ConsolidationCheck(c, console, env);
      && (r.config == c || r.config == WithTasks(c, c.tasks.(fileOrDirectory := env.currentDirectory)))
      && r.config.intents == c.intents && r.config.tasks.server == c.tasks.server
      && r.console == console
      && (r.error.Some? ==> r.error.value.NotADirectory?)
  {
  }

  /** Finish keeps the intents and the console, and a successful run of a domain-facing task has a server: the one given, else the machine's domain. */
  lemma FinishServer(st: ScanState, console: seq<Answer>, env: Env)
    ensures var r := Finish(st, console, env);
      && r.config.intents == st.config.intents
      && r.console == console
      && (r.Succeeded() && DirectoryFacing(r.config.intents) ==>
            && r.config.tasks.server != ""
            && r.config.tasks.server == (if st.config.tasks.server == "" then env.currentDomain else st.config.tasks.server))
  {
    var checked := FinishChecked(st, env);
    CheckedServer(st, env);
    ConsolidationCheckScope(checked, console, env);
    assert Finish(st, console, env)
        == if DirectoryFacing(checked.intents) && checked.tasks.server == "" then Resolution(Some(NoDomain), checked, console)
           else ConsolidationCheck(checked, console, env);
  }

  /** A domain-facing task gets the server given, else the machine's domain. */
  lemma CheckedServer(st: ScanState, env: Env)
    ensures DirectoryFacing(st.config.intents) ==>
      FinishChecked(st, env).tasks.server == if st.config.tasks.server == "" then env.currentDomain else st.config.tasks.server
  {
  }

  /** A successful run of a domain-facing task with --user carries a credential for that user, with the given or typed password. */
  lemma FinishCredential(st: ScanState, console: seq<Answer>, env: Env)
    ensures var r := Finish(st, console, env);
      r.Succeeded() && DirectoryFacing(st.config.intents) && st.user.Some? ==>
        && r.config.tasks.credential == Some(MakeCredential(st.user.value, st.userDomain, st.password, env))
        && r.config.tasks.credential.value.user == st.user.value
        && r.config.tasks.credential.value.password
           == (if st.password.Some? then st.password.value else TypedPassword(env.passwordKeys))
        && (r.config.tasks.credential.value.domain.Some? <==> st.userDomain.Some? && st.userDomain.value != "")
  {
  }

  /** A successful consolidation has its report directory: an existing one given, else the working directory. */
  lemma FinishConsolidation(st: ScanState, console: seq<Answer>, env: Env)
    ensures var r := Finish(st, console, env);
      r.Succeeded() && (st.config.intents.healthCheckConsolidation || st.config.intents.graphConsolidation) ==>
        if st.config.tasks.fileOrDirectory == "" then r.config.tasks.fileOrDirectory == env.currentDirectory
        else r.config.tasks.fileOrDirectory == st.config.tasks.fileOrDirectory
             && env.directoryExists(st.config.tasks.fileOrDirectory)
  {
    var c := st.config;
    var checked := FinishChecked(st, env);
    ConsolidationDirectory(checked, console, env);
    if DirectoryFacing(c.intents) && checked.tasks.server == "" {
      assert Finish(st, console, env).error == Some(NoDomain);
    } else {
      assert Finish(st, console, env) == ConsolidationCheck(checked, console, env);
    }
  }

  /** The consolidation check leaves an existing report directory, or the working directory when none was given. */
  lemma ConsolidationDirectory(c: Config, console: seq<Answer>, env: Env)
    ensures var r := ConsolidationCheck(c, console, env);
      r.Succeeded() && (c.intents.healthCheckConsolidation || c.intents.graphConsolidation) ==>
        if c.tasks.fileOrDirectory == "" then r.config.tasks.fileOrDirectory == env.currentDirectory
        else r.config.tasks.fileOrDirectory == c.tasks.fileOrDirectory && env.directoryExists(c.tasks.fileOrDirectory)
  {
  }

  /** The consolidation check fails exactly when a consolidation is asked for with a report path that is not an existing directory, and names that path. */
  lemma ConsolidationErrorIff(c: Config, console: seq<Answer>, env: Env)
    ensures var r := ConsolidationCheck(c, console, env);
      && (r.error.Some? <==> (c.intents.healthCheckConsolidation || c.intents.graphConsolidation)
                             && c.tasks.fileOrDirectory != "" && !env.directoryExists(c.tasks.fileOrDirectory))
      && (r.error.Some? ==> r.error.value == NotADirectory(c.tasks.fileOrDirectory))
  {
  }

  /** After the argument loop, "isn't a directory" is reported exactly when the domain check passed and a consolidation names a path that is not an existing directory. */
  lemma FinishNotADirectoryIff(st: ScanState, console: seq<Answer>, env: Env)
    ensures var r := Finish(st, console, env);
      (r.error.Some? && r.error.value.NotADirectory?)
        <==> && !(DirectoryFacing(st.config.intents) && st.config.tasks.server == "" && env.currentDomain == "")
             && (st.config.intents.healthCheckConsolidation || st.config.intents.graphConsolidation)
             && st.config.tasks.fileOrDirectory != "" && !env.directoryExists(st.config.tasks.fileOrDirectory)
  {
    CheckedServer(st, env);
    ConsolidationErrorIff(FinishChecked(st, env), console, env);
  }

  /** With no arguments the menu runs first, so the completeness check can never fail for lack of a task, and interactive mode is recorded. */
  lemma EmptyArgsSelectTask(c: Config, console: seq<Answer>, env: Env)
    ensures var r := Resolve([], c, console, env);
      && r.error != Some(NoIntent)
      && (r.Succeeded() ==> AnyIntent(r.config.intents) && r.config.tasks.interactiveMode)
  {
    var s := InteractiveSession(c, console, env);
    InteractiveSelectsTask(c, console, env);
    if s.Succeeded() {
      NoIntentIff(Initial(s.config), s.input, env);
      NavigateKeepsInteractive([MainMenu], WithTasks(c, c.tasks.(interactiveMode := true)), console, env);
      FinishServer(Initial(s.config), s.input, env);
    }
  }

  /** The loop never clears interactive mode once set. */
  lemma {:induction false} NavigateKeepsInteractive(stack: seq<DisplayState>, c: Config, input: seq<Answer>, env: Env)
    requires c.tasks.interactiveMode
    ensures Navigate(stack, c, input, env).config.tasks.interactiveMode
    decreases |input|, |stack|
  {
    if |stack| > 0 && stack[|stack| - 1] != Run {
      var r := Handle(stack[|stack| - 1], c, input, env);
      assert r.config.tasks.interactiveMode;
      match r.next
      case OutOfInput =>
      case Goto(n) =>
        if n == Exit {
          NavigateKeepsInteractive(stack[..|stack| - 1], r.config, r.input, env);
        } else {
          NavigateKeepsInteractive(stack + [n], r.config, r.input, env);
        }
    }
  }

  /**
   * The result of the session --interactive starts is ignored: leaving the
   * menu at once still lets ParseCommandLine succeed, with no task selected.
   */
  lemma DelayedInteractiveIgnoresResult(c: Config, env: Env)
    requires c.intents == NoIntents
    ensures var r := Resolve(["--interactive"], c, [Pick(0)], env);
      r.Succeeded() && !AnyIntent(r.config.intents) && r.console == []
  {
    var st := Initial(c).(delayedInteractive := true);
    assert Scan(["--interactive"], 0, Initial(c), env) == Done(st, 1);
    ExitAtMainMenu(c, [], env);
    assert [Pick(0)] + [] == [Pick(0)];
  }

  /**
   * With --interactive the menu's result is ignored whatever the console
   * answers: the checks run on the configuration the session left, a session
   * backed out of is no failure, and only a missing domain or directory can
   * make the command line fail.
   */
  lemma DelayedInteractiveOutcome(args: seq<string>, c: Config, console: seq<Answer>, env: Env)
    requires |args| > 0
    requires var r := Scan(args, 0, Initial(c), env); r.Done? && r.state.delayedInteractive
    ensures var st := Scan(args, 0, Initial(c), env).state;
      var s := InteractiveSession(st.config, console, env);
      var res := Resolve(args, c, console, env);
      && res == Finish(st.(config := s.config), s.input, env)
      && (res.error.Some? ==> res.error.value == NoDomain || res.error.value.NotADirectory?)
  {
    var st := Scan(args, 0, Initial(c), env).state;
    var s := InteractiveSession(st.config, console, env);
    FinishErrors(st.(config := s.config), s.input, env);
  }
}
