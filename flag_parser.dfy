/**
 * ParseCommandLine as a specification: one step per recognised token, the
 * scan over the argument array that stops at the first failure, and the
 * completeness phase that runs after the scan (or after the interactive
 * menu when there are no arguments).
 */
module FlagParser {
  import opened Wrappers
  import opened OptionTable
  import opened Strings
  import opened Configuration
  import opened Menu
  import opened PasswordPrompt

  /**
   * Why ParseCommandLine returned false (or, for an unknown scanner, threw).
   * The first three carry the switch; their message spells it as MandatoryName does.
   */
  datatype ParseError =
    | MissingArgument(option: Switch)
    | InvalidValue(option: Switch, value: string)
    | NotInEnum(option: Switch, value: string, accepted: seq<string>)
    | UnknownOption(token: string)
    | HelpRequested
    | UnknownScanner(name: string)
    | UnreadableFile(path: string)
    | NoIntent
    | NoDomain
    | NotADirectory(path: string)
    | InteractiveAborted

  /** The configuration being written and the four locals of ParseCommandLine. */
  datatype ScanState = ScanState(
    config: Config,
    user: Option<string>,
    userDomain: Option<string>,
    password: Option<string>,
    delayedInteractive: bool)

  function Initial(c: Config): ScanState {
    ScanState(c, None, None, None, false)
  }

  /** What a value switch did to the configuration, and the error it reported if any. */
  datatype Effect = Effect(error: Option<ParseError>, config: Config)

  function Accept(c: Config): Effect {
    Effect(None, c)
  }

  /** Whether a switch writes one of ParseCommandLine's locals rather than the configuration. */
  predicate WritesLocal(sw: Switch) {
    sw == User || sw == Password || sw == Interactive
  }

  /** The switches without a value that select a task. */
  predicate IntentFlag(sw: Switch) {
    sw == Carto || sw == DemoReports || sw == GenerateKey || sw == Graph || sw == HealthCheck
    || sw == HcConso || sw == CgConso || sw == UploadAllReports
  }

  /** The switches that take no value: each sets an intent, a task field or a collaborator setting. */
  function ApplyFlag(sw: Switch, c: Config): Config
    requires !TakesValue(sw) && sw != Help && sw != License && sw != Interactive
  {
    var i := c.intents;
    var t := c.tasks;
    var s := c.settings;
    match sw
    case Carto => WithIntents(c, i.(carto := true))
    case DemoReports => WithIntents(c, i.(generateDemoReports := true))
    case Encrypt => WithTasks(c, t.(report := t.report.(encryptReport := true)))
    case ExploreTrust => WithTasks(c, t.(exploration := t.exploration.(exploreTerminalDomains := true)))
    case ExploreForestTrust => WithTasks(c, t.(exploration := t.exploration.(exploreForestTrust := true)))
    case GenerateKey => WithIntents(c, i.(generateKey := true))
    case Graph => WithIntents(c, i.(advancedLive := true))
    case HealthCheck => WithIntents(c, i.(healthCheckReport := true))
    case HcConso => WithIntents(c, i.(healthCheckConsolidation := true))
    case CgConso => WithIntents(c, i.(graphConsolidation := true))
    case Log => c.(settings := s.(listeners := s.listeners + [FileListener]))
    case LogConsole => c.(settings := s.(listeners := s.listeners + [ConsoleListener]))
    case NoEnumLimit => c.(settings := s.(maxUsersInHtmlReport := IntMaxValue))
    case Reachable => WithTasks(c, t.(exploration := t.exploration.(analyzeReachableDomains := true)))
    case ScModeSingle => c.(settings := s.(scanningMode := 1))
    case SkipNullSession => c.(settings := s.(skipNullSession := true))
    case SmtpTls => WithTasks(c, t.(mail := t.mail.(smtpTls := true)))
    case UploadAllReports => WithIntents(c, i.(uploadAllReport := true))
    case _ => c
  }

  /** --regen-report and --reload-report set their intent before checking that a value follows. */
  function PreCheck(sw: Switch, c: Config): Config {
    if sw == RegenReport then WithIntents(c, c.intents.(regenerateReport := true))
    else if sw == ReloadReport then WithIntents(c, c.intents.(reloadReport := true))
    else c
  }

  /** The value switches that store their value as given. */
  predicate StoresText(sw: Switch) {
    sw == ApiKey || sw == CenterOn || sw == ForeignDomain || sw == RegenReport || sw == NotifyMail
    || sw == SendXmlTo || sw == SendHtmlTo || sw == SendAllTo || sw == Server || sw == ReloadReport
    || sw == SmtpLogin || sw == SmtpPass || sw == WebDirectory || sw == WebUser || sw == WebPassword || sw == Xmls
  }

  /** Where a switch of StoresText puts its value; the three report switches share the report path. */
  function StoreText(sw: Switch, v: string, c: Config): (r: Config)
    requires StoresText(sw)
    ensures r.intents == c.intents
  {
    var t := c.tasks;
    match sw
    case ApiKey => WithTasks(c, t.(upload := t.upload.(apiKey := v)))
    case CenterOn => WithTasks(c, t.(exploration := t.exploration.(centerDomain := v)))
    case ForeignDomain => c.(settings := c.settings.(enumInboundSid := v))
    case RegenReport => WithTasks(c, t.(fileOrDirectory := v))
    case NotifyMail => WithTasks(c, t.(mail := t.mail.(mailNotification := v)))
    case SendXmlTo => WithTasks(c, t.(mail := t.mail.(sendXmlTo := v)))
    case SendHtmlTo => WithTasks(c, t.(mail := t.mail.(sendHtmlTo := v)))
    case SendAllTo => WithTasks(c, t.(mail := t.mail.(sendAllTo := v)))
    case Server => WithTasks(c, t.(server := v))
    case ReloadReport => WithTasks(c, t.(fileOrDirectory := v))
    case SmtpLogin => WithTasks(c, t.(mail := t.mail.(smtpLogin := v)))
    case SmtpPass => WithTasks(c, t.(mail := t.mail.(smtpPassword := v)))
    case WebDirectory => WithTasks(c, t.(sharepoint := t.sharepoint.(sharepointDirectory := v)))
    case WebUser => WithTasks(c, t.(sharepoint := t.sharepoint.(sharepointUser := v)))
    case WebPassword => WithTasks(c, t.(sharepoint := t.sharepoint.(sharepointPassword := v)))
    case Xmls => WithTasks(c, t.(fileOrDirectory := v))
  }

  /**
   * The value switches that convert or check their value. A failed
   * int.TryParse or DateTime.TryParse into a field writes that field's
   * default before the error; --api-endpoint stores the value before
   * validating it.
   */
  function ApplyParsed(sw: Switch, v: string, c: Config, env: Env): Effect
    requires TakesValue(sw) && !WritesLocal(sw) && !StoresText(sw)
  {
    var t := c.tasks;
    var s := c.settings;
    match sw
    case ApiEndpoint =>
      var c1 := WithTasks(c, t.(upload := t.upload.(apiEndpoint := v)));
      if env.isAbsoluteUri(v) then Accept(c1) else Effect(Some(InvalidValue(ApiEndpoint, v)), c1)
    case ExploreException => Accept(WithTasks(c, t.(exploration := t.exploration.(domainsToNotExplore := Split(v, ',')))))
    case FilterDate =>
      if env.parseDate(v).Some? then Accept(WithTasks(c, t.(report := t.report.(filterReportDate := env.parseDate(v).value))))
      else Effect(Some(InvalidValue(FilterDate, v)), WithTasks(c, t.(report := t.report.(filterReportDate := 0))))
    case Level =>
      if ParseLevel(v).Some? then Accept(WithTasks(c, t.(report := t.report.(exportLevel := ParseLevel(v).value))))
      else Effect(Some(NotInEnum(Level, v, LevelNames())), c)
    case MaxNodes =>
      if env.parseInt(v).Some? then Accept(c.(settings := s.(maxNodes := env.parseInt(v).value)))
      else Effect(Some(InvalidValue(MaxNodes, v)), c)
    case MaxDepth =>
      if env.parseInt(v).Some? then Accept(c.(settings := s.(maxDepth := env.parseInt(v).value)))
      else Effect(Some(InvalidValue(MaxDepth, v)), c)
    case Node => Accept(WithTasks(c, t.(nodesToInvestigate := env.splitNodes(v))))
    case Nodes =>
      if env.readLines(v).Some? then Accept(WithTasks(c, t.(nodesToInvestigate := env.readLines(v).value)))
      else Effect(Some(UnreadableFile(v)), c)
    case NsLimit =>
      if env.parseInt(v).Some? then Accept(c.(settings := s.(nullSessionLimit := env.parseInt(v).value)))
      else Effect(Some(InvalidValue(NsLimit, v)), c.(settings := s.(nullSessionLimit := 0)))
    case Port =>
      if env.parseInt(v).Some? then Accept(WithTasks(c, t.(port := env.parseInt(v).value)))
      else Effect(Some(InvalidValue(Port, v)), WithTasks(c, t.(port := 0)))
    case Protocol =>
      if ParseConnectionType(v).Some? then Accept(c.(settings := s.(connectionType := ParseConnectionType(v).value)))
      else Effect(Some(NotInEnum(Protocol, v, ConnectionTypeNames())), c)
    case Scanner =>
      if v in env.scanners then Accept(c.(intents := c.intents.(scanner := true), tasks := t.(scanner := v)))
      else Effect(Some(UnknownScanner(v)), c)
    case _ => Accept(c)
  }

  /** The switches whose value goes into the configuration: the value stored, and the error reported if any. */
  function ApplyValue(sw: Switch, v: string, c: Config, env: Env): Effect
    requires TakesValue(sw) && !WritesLocal(sw)
  {
    if StoresText(sw) then Accept(StoreText(sw, v, c)) else ApplyParsed(sw, v, c, env)
  }

  /** --user: the name, and the domain when the value has a backslash; otherwise an earlier domain stays. */
  function ApplyUser(v: string, st: ScanState): ScanState {
    var a := SplitUser(v);
    st.(user := Some(a.name), userDomain := if a.domain.Some? then a.domain else st.userDomain)
  }

  datatype StepResult = Next(at: nat, state: ScanState) | Halt(error: ParseError, state: ScanState)

  /** One iteration of the for loop at index `i`: the index the loop continues from, or the failure. */
  function Step(args: seq<string>, i: nat, st: ScanState, env: Env): (r: StepResult)
    requires i < |args|
    ensures r.Next? ==> i < r.at <= i + 2
  {
    match Lookup(args[i])
    case None => Halt(UnknownOption(args[i]), st)
    case Some(sw) =>
      if sw == Help then Halt(HelpRequested, st)
      else if sw == License then Next(i + 2, st)
      else if sw == Interactive then Next(i + 1, st.(delayedInteractive := true))
      else if !TakesValue(sw) then Next(i + 1, st.(config := ApplyFlag(sw, st.config)))
      else StepValue(args, i, sw, st, env)
  }

  /** The part of a step for a switch that checks for a following value. */
  function StepValue(args: seq<string>, i: nat, sw: Switch, st: ScanState, env: Env): (r: StepResult)
    requires i < |args| && TakesValue(sw) && sw != Interactive
    ensures r.Next? ==> r.at == i + 2
  {
    var st0 := st.(config := PreCheck(sw, st.config));
    if i + 1 >= |args| then Halt(MissingArgument(sw), st0)
    else
      var t := TakeValue(sw, args[i + 1], st0, env);
      if t.error.None? then Next(i + 2, t.state) else Halt(t.error.value, t.state)
  }

  /** What a value switch did with its value: the error it reported if any, and the state it left. */
  datatype Taken = Taken(error: Option<ParseError>, state: ScanState)

  /** The value of --user and --password goes into a local, any other into the configuration. */
  function TakeValue(sw: Switch, v: string, st: ScanState, env: Env): Taken
    requires TakesValue(sw) && sw != Interactive
  {
    if sw == User then Taken(None, ApplyUser(v, st))
    else if sw == Password then Taken(None, st.(password := Some(v)))
    else
      var e := ApplyValue(sw, v, st.config, env);
      Taken(e.error, st.(config := e.config))
  }

  /** How the loop over the arguments ended: past the end at index `at`, or stopped at the token at `at`. */
  datatype ScanResult = Done(state: ScanState, at: nat) | Stopped(error: ParseError, state: ScanState, at: nat)

  /** The for loop of ParseCommandLine from index `i`. */
  function Scan(args: seq<string>, i: nat, st: ScanState, env: Env): (r: ScanResult)
    ensures r.Done? ==> |args| <= r.at && (i <= |args| ==> r.at <= |args| + 1)
    ensures r.Stopped? ==> i <= r.at < |args|
    decreases |args| + 1 - i
  {
    if i >= |args| then Done(st, i)
    else match Step(args, i, st, env)
      case Next(j, st1) => Scan(args, j, st1, env)
      case Halt(e, st1) => Stopped(e, st1, i)
  }

  /** The outcome of ParseCommandLine: the failure if any, the configuration left behind and the unread console answers. */
  datatype Resolution = Resolution(error: Option<ParseError>, config: Config, console: seq<Answer>) {
    predicate Succeeded() {
      error.None?
    }
  }

  /** The credential built for --user: the password given, or else the one typed at the prompt; no domain when none or an empty one was given. */
  function MakeCredential(user: string, userDomain: Option<string>, password: Option<string>, env: Env): Credential {
    var typed := if password.Some? then password.value else TypedPassword(env.passwordKeys);
    var domain := if userDomain.Some? && userDomain.value != "" then userDomain else None;
    Credential(user, typed, domain)
  }

  /** The consolidation check: the report directory defaults to the working directory and must otherwise exist. */
  function ConsolidationCheck(c: Config, console: seq<Answer>, env: Env): Resolution {
    if c.intents.healthCheckConsolidation || c.intents.graphConsolidation then
      if c.tasks.fileOrDirectory == "" then
        Resolution(None, WithTasks(c, c.tasks.(fileOrDirectory := env.currentDirectory)), console)
      else if !env.directoryExists(c.tasks.fileOrDirectory) then
        Resolution(Some(NotADirectory(c.tasks.fileOrDirectory)), c, console)
      else Resolution(None, c, console)
    else Resolution(None, c, console)
  }

  /** The server defaults to the machine's domain when none was given. */
  function WithDefaultServer(c: Config, env: Env): Config {
    if c.tasks.server == "" then WithTasks(c, c.tasks.(server := env.currentDomain)) else c
  }

  /** The configuration after the server default and the credential, for tasks that talk to a domain. */
  function FinishChecked(st: ScanState, env: Env): (c: Config)
    ensures c.intents == st.config.intents
    ensures c.tasks.fileOrDirectory == st.config.tasks.fileOrDirectory
  {
    var c := st.config;
    if DirectoryFacing(c.intents) then
      var c1 := WithDefaultServer(c, env);
      if c1.tasks.server != "" && st.user.Some? then
        WithTasks(c1, c1.tasks.(credential := Some(MakeCredential(st.user.value, st.userDomain, st.password, env))))
      else c1
    else c
  }

  /** The server and credential checks for tasks that talk to a domain, then the consolidation check. */
  function Finish(st: ScanState, console: seq<Answer>, env: Env): Resolution {
    var c := FinishChecked(st, env);
    if DirectoryFacing(c.intents) && c.tasks.server == "" then Resolution(Some(NoDomain), c, console)
    else ConsolidationCheck(c, console, env)
  }

  /** Everything after the argument loop: at least one intent, the delayed interactive session, then Finish. */
  function Complete(st: ScanState, console: seq<Answer>, env: Env): Resolution {
    if !AnyIntent(st.config.intents) && !st.delayedInteractive then
      Resolution(Some(NoIntent), st.config, console)
    else if st.delayedInteractive then
      var r := InteractiveSession(st.config, console, env);
      Finish(st.(config := r.config), r.input, env)
    else Finish(st, console, env)
  }

  /** ParseCommandLine: the interactive menu when there are no arguments, the argument loop otherwise, then Complete. */
  function Resolve(args: seq<string>, c: Config, console: seq<Answer>, env: Env): Resolution {
    if |args| == 0 then
      var r := InteractiveSession(c, console, env);
      if !r.Succeeded() then Resolution(Some(InteractiveAborted), r.config, r.input)
      else Complete(Initial(r.config), r.input, env)
    else
      match Scan(args, 0, Initial(c), env)
      case Stopped(e, st, _) => Resolution(Some(e), st.config, console)
      case Done(st, _) => Complete(st, console, env)
  }
}
