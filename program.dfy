/**
 * The Program object: its Perform* intent fields, the Tasks object and the
 * collaborator settings it writes in place, and the console it reads from.
 * Each method is proved to leave the object as the corresponding
 * specification function of FlagParser, Menu, PasswordPrompt or Dispatch
 * says.
 */
module PingCastle {
  import opened Wrappers
  import opened OptionTable
  import opened Strings
  import opened Configuration
  import opened PasswordPrompt
  import opened Menu
  import opened FlagParser
  import opened Dispatch

  class Program {
    /** The eleven Perform* properties. */
    var perform: Intents
    var tasks: TaskConfig
    var settings: Settings
    /** The console answers not read yet. */
    var console: seq<Answer>

    /** Everything the resolution writes, as one value. */
    function Current(): Config
      reads this
    {
      Config(perform, tasks, settings)
    }

    constructor(tasks0: TaskConfig, settings0: Settings, console0: seq<Answer>)
      ensures Current() == Config(NoIntents, tasks0, settings0) && console == console0
    {
      perform := NoIntents;
      tasks := tasks0;
      settings := settings0;
      console := console0;
    }

    /** Adds the trace.log listener. */
    method EnableLogFile()
      modifies this
      ensures Current() == old(Current()).(settings := old(settings).(listeners := old(settings.listeners) + [FileListener]))
      ensures console == old(console)
    {
      settings := settings.(listeners := settings.listeners + [FileListener]);
    }

    /** Adds the console listener. */
    method EnableLogConsole()
      modifies this
      ensures Current() == old(Current()).(settings := old(settings).(listeners := old(settings.listeners) + [ConsoleListener]))
      ensures console == old(console)
    {
      settings := settings.(listeners := settings.listeners + [ConsoleListener]);
    }

    /** One console question: answers it does not accept are passed over; None once the script is exhausted. */
    method Ask(q: Question) returns (a: Option<Answer>)
      modifies this
      ensures (a, console) == Read(old(console), q)
      ensures Current() == old(Current())
    {
      while console != [] && !Accepts(q, console[0])
        invariant Read(console, q) == Read(old(console), q)
        invariant Current() == old(Current())
        decreases |console|
      {
        console := console[1..];
      }
      if console == [] {
        a := None;
      } else {
        a := Some(console[0]);
        console := console[1..];
      }
    }

    /** A switch without a value. */
    method SetFlag(sw: Switch)
      requires !TakesValue(sw) && sw != Help && sw != License && sw != Interactive
      modifies this
      ensures Current() == ApplyFlag(sw, old(Current())) && console == old(console)
    {
      if IntentFlag(sw) {
        SetIntentFlag(sw);
      } else {
        SetOptionFlag(sw);
      }
    }

    /** A switch that selects a task. */
    method SetIntentFlag(sw: Switch)
      requires IntentFlag(sw)
      modifies this
      ensures Current() == ApplyFlag(sw, old(Current())) && console == old(console)
    {
      match sw
      case Carto => perform := perform.(carto := true);
      case DemoReports => perform := perform.(generateDemoReports := true);
      case GenerateKey => perform := perform.(generateKey := true);
      case Graph => perform := perform.(advancedLive := true);
      case HealthCheck => perform := perform.(healthCheckReport := true);
      case HcConso => perform := perform.(healthCheckConsolidation := true);
      case CgConso => perform := perform.(graphConsolidation := true);
      case UploadAllReports => perform := perform.(uploadAllReport := true);
    }

    /** A switch that sets a task option or a collaborator setting. */
    method SetOptionFlag(sw: Switch)
      requires !TakesValue(sw) && sw != Help && sw != License && sw != Interactive && !IntentFlag(sw)
      modifies this
      ensures Current() == ApplyFlag(sw, old(Current())) && console == old(console)
    {
      match sw
      case Encrypt => tasks := tasks.(report := tasks.report.(encryptReport := true));
      case ExploreTrust => tasks := tasks.(exploration := tasks.exploration.(exploreTerminalDomains := true));
      case ExploreForestTrust => tasks := tasks.(exploration := tasks.exploration.(exploreForestTrust := true));
      case Log => EnableLogFile();
      case LogConsole => EnableLogConsole();
      case NoEnumLimit => settings := settings.(maxUsersInHtmlReport := IntMaxValue);
      case Reachable => tasks := tasks.(exploration := tasks.exploration.(analyzeReachableDomains := true));
      case ScModeSingle => settings := settings.(scanningMode := 1);
      case SkipNullSession => settings := settings.(skipNullSession := true);
      case SmtpTls => tasks := tasks.(mail := tasks.mail.(smtpTls := true));
      case _ =>
    }

    /** A switch whose value goes into the configuration; the error it reports, if any. */
    method SetValue(sw: Switch, v: string, env: Env) returns (error: Option<ParseError>)
      requires TakesValue(sw) && !WritesLocal(sw)
      modifies this
      ensures Effect(error, Current()) == ApplyValue(sw, v, old(Current()), env) && console == old(console)
    {
      if StoresText(sw) {
        SetText(sw, v);
        error := None;
      } else {
        error := SetParsedValue(sw, v, env);
      }
    }

    /** A switch whose value is stored as given. */
    method SetText(sw: Switch, v: string)
      requires StoresText(sw)
      modifies this
      ensures Current() == StoreText(sw, v, old(Current())) && console == old(console)
    {
      match sw
      case ApiKey => tasks := tasks.(upload := tasks.upload.(apiKey := v));
      case CenterOn => tasks := tasks.(exploration := tasks.exploration.(centerDomain := v));
      case ForeignDomain => settings := settings.(enumInboundSid := v);
      case RegenReport => tasks := tasks.(fileOrDirectory := v);
      case NotifyMail => tasks := tasks.(mail := tasks.mail.(mailNotification := v));
      case SendXmlTo => tasks := tasks.(mail := tasks.mail.(sendXmlTo := v));
      case SendHtmlTo => tasks := tasks.(mail := tasks.mail.(sendHtmlTo := v));
      case SendAllTo => tasks := tasks.(mail := tasks.mail.(sendAllTo := v));
      case Server => tasks := tasks.(server := v);
      case ReloadReport => tasks := tasks.(fileOrDirectory := v);
      case SmtpLogin => tasks := tasks.(mail := tasks.mail.(smtpLogin := v));
      case SmtpPass => tasks := tasks.(mail := tasks.mail.(smtpPassword := v));
      case WebDirectory => tasks := tasks.(sharepoint := tasks.sharepoint.(sharepointDirectory := v));
      case WebUser => tasks := tasks.(sharepoint := tasks.sharepoint.(sharepointUser := v));
      case WebPassword => tasks := tasks.(sharepoint := tasks.sharepoint.(sharepointPassword := v));
      case Xmls => tasks := tasks.(fileOrDirectory := v);
    }

    /** A switch whose value is converted or checked; the error it reports, if any. */
    method SetParsedValue(sw: Switch, v: string, env: Env) returns (error: Option<ParseError>)
      requires TakesValue(sw) && !WritesLocal(sw) && !StoresText(sw)
      modifies this
      ensures Effect(error, Current()) == ApplyParsed(sw, v, old(Current()), env) && console == old(console)
    {
      if sw == MaxNodes || sw == MaxDepth || sw == NsLimit || sw == Protocol {
        error := SetSettingValue(sw, v, env);
      } else if sw == FilterDate || sw == Level || sw == Port {
        error := SetNumericValue(sw, v, env);
      } else {
        error := SetTaskValue(sw, v, env);
      }
    }

    /** The value switches that write a collaborator setting. */
    method SetSettingValue(sw: Switch, v: string, env: Env) returns (error: Option<ParseError>)
      requires sw == MaxNodes || sw == MaxDepth || sw == NsLimit || sw == Protocol
      modifies this
      ensures Effect(error, Current()) == ApplyParsed(sw, v, old(Current()), env) && console == old(console)
    {
      error := None;
      match sw
      case MaxNodes =>
        var maxNodes := env.parseInt(v);
        if maxNodes.None? {
          error := Some(InvalidValue(MaxNodes, v));
        } else {
          settings := settings.(maxNodes := maxNodes.value);
        }
      case MaxDepth =>
        var maxDepth := env.parseInt(v);
        if maxDepth.None? {
          error := Some(InvalidValue(MaxDepth, v));
        } else {
          settings := settings.(maxDepth := maxDepth.value);
        }
      case NsLimit =>
        var limit := env.parseInt(v);
        settings := settings.(nullSessionLimit := limit.GetOr(0));
        if limit.None? {
          error := Some(InvalidValue(NsLimit, v));
        }
      case Protocol =>
        var protocol := ParseConnectionType(v);
        if protocol.Some? {
          settings := settings.(connectionType := protocol.value);
        } else {
          error := Some(NotInEnum(Protocol, v, ConnectionTypeNames()));
        }
    }

    /** The value switches that convert their value into a task field. */
    method SetNumericValue(sw: Switch, v: string, env: Env) returns (error: Option<ParseError>)
      requires sw == FilterDate || sw == Level || sw == Port
      modifies this
      ensures Effect(error, Current()) == ApplyParsed(sw, v, old(Current()), env) && console == old(console)
    {
      error := None;
      match sw
      case FilterDate =>
        var date := env.parseDate(v);
        tasks := tasks.(report := tasks.report.(filterReportDate := date.GetOr(0)));
        if date.None? {
          error := Some(InvalidValue(FilterDate, v));
        }
      case Level =>
        var level := ParseLevel(v);
        if level.Some? {
          tasks := tasks.(report := tasks.report.(exportLevel := level.value));
        } else {
          error := Some(NotInEnum(Level, v, LevelNames()));
        }
      case Port =>
        var port := env.parseInt(v);
        tasks := tasks.(port := port.GetOr(0));
        if port.None? {
          error := Some(InvalidValue(Port, v));
        }
    }

    /** The value switches that check their value, read a file or select a scanner. */
    method SetTaskValue(sw: Switch, v: string, env: Env) returns (error: Option<ParseError>)
      requires TakesValue(sw) && !WritesLocal(sw) && !StoresText(sw)
      requires sw != MaxNodes && sw != MaxDepth && sw != NsLimit && sw != Protocol
      requires sw != FilterDate && sw != Level && sw != Port
      modifies this
      ensures Effect(error, Current()) == ApplyParsed(sw, v, old(Current()), env) && console == old(console)
    {
      error := None;
      match sw
      case ApiEndpoint =>
        tasks := tasks.(upload := tasks.upload.(apiEndpoint := v));
        if !env.isAbsoluteUri(tasks.upload.apiEndpoint) {
          error := Some(InvalidValue(ApiEndpoint, v));
        }
      case ExploreException => tasks := tasks.(exploration := tasks.exploration.(domainsToNotExplore := Split(v, ',')));
      case Node => tasks := tasks.(nodesToInvestigate := env.splitNodes(v));
      case Nodes =>
        var lines := env.readLines(v);
        if lines.None? {
          error := Some(UnreadableFile(v));
        } else {
          tasks := tasks.(nodesToInvestigate := lines.value);
        }
      case Scanner =>
        if v !in env.scanners {
          error := Some(UnknownScanner(v));
        } else {
          tasks := tasks.(scanner := v);
          perform := perform.(scanner := true);
        }
      case _ =>
    }

    /** The password prompt: the keys read until Enter, with Backspace erasing the last character. */
    method AskCredential(keys: seq<Key>) returns (password: string)
      ensures password == TypedPassword(keys)
    {
      var builder := "";
      var i := 0;
      while i < |keys| && keys[i] != Enter
        invariant 0 <= i <= |keys|
        invariant Edit(builder, keys[i..]) == TypedPassword(keys)
        decreases |keys| - i
      {
        assert keys[i..][1..] == keys[i + 1..];
        if keys[i] == Backspace {
          if |builder| > 0 {
            builder := builder[..|builder| - 1];
          }
        } else {
          builder := builder + [keys[i].c];
        }
        i := i + 1;
      }
      password := builder;
    }

    /** DisplayMainMenu: the six menu intents are reset, then the choice sets one and names the next state. */
    method DisplayMainMenu() returns (next: Next)
      modifies this
      ensures Reply(next, Current(), console) == MainMenuStep(old(Current()), old(console))
    {
      perform := perform.(healthCheckReport := false, graphConsolidation := false, advancedLive := false,
                          carto := false, healthCheckConsolidation := false, scanner := false);
      var a := Ask(Choose(|MainMenuActions|, None));
      if a.None? {
        return OutOfInput;
      }
      var choice := a.value.index;
      if choice == 0 {
        return Goto(Exit);
      }
      match MainMenuActions[choice - 1]
      case HealthCheckAction =>
        perform := perform.(healthCheckReport := true);
        next := Goto(AskForServer);
      case GraphAction =>
        perform := perform.(advancedLive := true);
        next := Goto(AskForServer);
      case CartoAction =>
        perform := perform.(carto := true);
        next := Goto(AskForServer);
      case ConsoAction =>
        perform := perform.(healthCheckConsolidation := true, graphConsolidation := true);
        next := Goto(Run);
      case ScannerAction =>
        perform := perform.(scanner := true);
        next := Goto(ScannerMenu);
      case AdvancedAction =>
        next := Goto(AvancedMenu);
    }

    /** DisplayScannerMenu: the chosen scanner is recorded in the tasks. */
    method DisplayScannerMenu(env: Env) returns (next: Next)
      modifies this
      ensures Reply(next, Current(), console) == ScannerMenuStep(old(Current()), old(console), env)
    {
      var a := Ask(Choose(|env.scanners|, None));
      if a.None? {
        return OutOfInput;
      }
      var choice := a.value.index;
      if choice == 0 {
        return Goto(Exit);
      }
      tasks := tasks.(scanner := env.scanners[choice - 1]);
      next := Goto(AskForScannerParameter);
    }

    /** DisplayAskForScannerParameter: the scanner's own prompts, completed or abandoned. */
    method DisplayAskForScannerParameter() returns (next: Next)
      modifies this
      ensures Reply(next, Current(), console) == ScannerParameterStep(old(Current()), old(console))
    {
      var a := Ask(AskConfirm);
      if a.None? {
        return OutOfInput;
      }
      if !a.value.accepted {
        return Goto(Exit);
      }
      next := Goto(AskForServer);
    }

    /** DisplayAskServer: asks for the server, then goes on to the extra users for a graph analysis. */
    method DisplayAskServer(env: Env) returns (next: Next)
      modifies this
      ensures Reply(next, Current(), console) == AskServerStep(old(Current()), old(console), env)
    {
      var defaultDomain := tasks.server;
      if defaultDomain == "" {
        defaultDomain := env.currentDomain;
      }
      var found := AskServer(defaultDomain);
      if !found {
        next := OutOfInput;
      } else if perform.advancedLive {
        next := Goto(AskForAdditionalUsers);
      } else {
        next := Goto(Run);
      }
    }

    /** The loop of DisplayAskServer: asks until the answer, or the default it falls back to, is not empty. */
    method AskServer(defaultDomain: string) returns (found: bool)
      modifies this
      ensures (tasks.server, console, found) == AskServerLoop(defaultDomain, old(tasks.server), old(console))
      ensures Current() == WithTasks(old(Current()), old(tasks).(server := tasks.server))
    {
      found := false;
      while true
        invariant AskServerLoop(defaultDomain, tasks.server, console)
               == AskServerLoop(defaultDomain, old(tasks.server), old(console))
        invariant Current() == WithTasks(old(Current()), old(tasks).(server := tasks.server))
        decreases |console|
      {
        var a := Ask(AskString);
        if a.None? {
          break;
        }
        tasks := tasks.(server := a.value.text);
        if tasks.server == "" {
          tasks := tasks.(server := defaultDomain);
        }
        if tasks.server != "" {
          found := true;
          break;
        }
      }
    }

    /** DisplayAskForAdditionalUsers: the list typed becomes the nodes to investigate. */
    method DisplayAskForAdditionalUsers() returns (next: Next)
      modifies this
      ensures Reply(next, Current(), console) == AdditionalUsersStep(old(Current()), old(console))
    {
      var a := Ask(AskList);
      if a.None? {
        return OutOfInput;
      }
      tasks := tasks.(nodesToInvestigate := a.value.items);
      next := Goto(Run);
    }

    /** DisplayAdvancedMenu: the three advanced intents are reset, then the choice sets one or the log. */
    method DisplayAdvancedMenu() returns (next: Next)
      modifies this
      ensures Reply(next, Current(), console) == AdvancedMenuStep(old(Current()), old(console))
    {
      perform := perform.(generateKey := false, reloadReport := false, regenerateReport := false);
      var a := Ask(Choose(|AdvancedMenuActions|, None));
      if a.None? {
        return OutOfInput;
      }
      var choice := a.value.index;
      if choice == 0 {
        return Goto(Exit);
      }
      next := AdvancedMenuChoice(AdvancedMenuActions[choice - 1]);
    }

    /** The switch of DisplayAdvancedMenu on the entry chosen. */
    method AdvancedMenuChoice(action: AdvancedAction) returns (next: Next)
      modifies this
      ensures Reply(next, Current(), console) == AdvancedChoice(action, old(Current()), old(console))
    {
      match action
      case ProtocolAction =>
        next := Goto(ProtocolMenu);
      case GenerateKeyAction =>
        perform := perform.(generateKey := true);
        next := Goto(Run);
      case DecryptAction =>
        perform := perform.(reloadReport := true);
        next := Goto(AskForFile);
      case RegenerateAction =>
        perform := perform.(regenerateReport := true);
        next := Goto(AskForFile);
      case LogAction =>
        if |settings.listeners| <= 1 {
          EnableLogFile();
        }
        next := Goto(Exit);
    }

    /** The protocol menu's highlighted entry: the position whose name is that of the current protocol. */
    method DefaultProtocolChoice() returns (d: nat)
      ensures d == DefaultProtocolIndex(settings.connectionType)
    {
      var current := settings.connectionType;
      d := 1;
      for i := 0 to |ProtocolChoices|
        invariant d == if current in ProtocolChoices[..i] then DefaultProtocolIndex(current) else 1
      {
        ConnectionTypeNamesRoundTrip(ConnectionTypeName(ProtocolChoices[i]), current);
        ConnectionTypeNamesRoundTrip(ConnectionTypeName(ProtocolChoices[i]), ProtocolChoices[i]);
        assert ProtocolChoices[..i + 1] == ProtocolChoices[..i] + [ProtocolChoices[i]];
        if ConnectionTypeName(ProtocolChoices[i]) == ConnectionTypeName(current) {
          d := 1 + i;
        }
      }
      assert ProtocolChoices[..|ProtocolChoices|] == ProtocolChoices;
    }

    /** DisplayProtocolMenu: the chosen protocol, or the highlighted one, becomes the connection type. */
    method DisplayProtocolMenu() returns (next: Next)
      modifies this
      ensures Reply(next, Current(), console) == ProtocolMenuStep(old(Current()), old(console))
    {
      var defaultChoice := DefaultProtocolChoice();
      var a := Ask(Choose(|ProtocolChoices|, Some(defaultChoice)));
      if a.None? {
        return OutOfInput;
      }
      if a.value.Pick? && a.value.index == 0 {
        return Goto(Exit);
      }
      var choice := if a.value.Pick? then a.value.index else defaultChoice;
      settings := settings.(connectionType := ProtocolChoices[choice - 1]);
      next := Goto(Exit);
    }

    /** DisplayAskForFile: asks until the name is that of an existing file, which becomes the report to open. */
    method DisplayAskForFile(env: Env) returns (next: Next)
      modifies this
      ensures Reply(next, Current(), console) == AskForFileStep(old(Current()), old(console), env)
    {
      var file := "";
      while file == "" || !env.fileExists(file)
        invariant file == "" || !env.fileExists(file) ==> AskFileLoop(console, env) == AskFileLoop(old(console), env)
        invariant file != "" && env.fileExists(file) ==> AskFileLoop(old(console), env) == (Some(file), console)
        invariant Current() == old(Current())
        decreases |console|, if file == "" || !env.fileExists(file) then 1 else 0
      {
        var a := Ask(AskString);
        if a.None? {
          return OutOfInput;
        }
        file := a.value.text;
      }
      tasks := tasks.(fileOrDirectory := file);
      tasks := tasks.(report := tasks.report.(encryptReport := false));
      next := Goto(Run);
    }

    /** The switch of RunInteractiveMode's loop body. */
    method Display(state: DisplayState, env: Env) returns (next: Next)
      modifies this
      ensures Reply(next, Current(), console) == Handle(state, old(Current()), old(console), env)
    {
      match state
      case MainMenu => next := DisplayMainMenu();
      case ScannerMenu => next := DisplayScannerMenu(env);
      case AskForServer => next := DisplayAskServer(env);
      case AskForAdditionalUsers => next := DisplayAskForAdditionalUsers();
      case AskForScannerParameter => next := DisplayAskForScannerParameter();
      case AvancedMenu => next := DisplayAdvancedMenu();
      case AskForFile => next := DisplayAskForFile(env);
      case ProtocolMenu => next := DisplayProtocolMenu();
      case Exit => next := Goto(Exit);
      case Run => next := Goto(Exit);
    }

    /** RunInteractiveMode: the stack of screens, popped on Exit and pushed otherwise, until Run is on top or the stack is empty. */
    method RunInteractiveMode(env: Env) returns (ok: bool)
      modifies this
      ensures var r := InteractiveSession(old(Current()), old(console), env);
        ok == r.Succeeded() && Current() == r.config && console == r.input
    {
      ghost var session := InteractiveSession(Current(), console, env);
      tasks := tasks.(interactiveMode := true);
      var states := [MainMenu];
      var state := MainMenu;
      while |states| > 0 && states[|states| - 1] != Run
        invariant |states| > 0 ==> state == states[|states| - 1]
        invariant Navigate(states, Current(), console, env) == session
        decreases |console|, |states|
      {
        var stop;
        states, state, stop := Turn(states, state, env);
        if stop {
          return |states| > 0 && states[|states| - 1] == Run;
        }
      }
      NavigateStopped(states, Current(), console, env);
      ok := |states| > 0 && states[|states| - 1] == Run;
    }

    /** The body of RunInteractiveMode's loop: the handler of the current state, then Exit pops the stack and any other state is pushed; `stop` when the script ran out. */
    method Turn(states: seq<DisplayState>, state: DisplayState, env: Env)
      returns (states1: seq<DisplayState>, state1: DisplayState, stop: bool)
      requires |states| > 0 && states[|states| - 1] != Run && state == states[|states| - 1]
      modifies this
      ensures |states1| > 0 ==> state1 == states1[|states1| - 1]
      ensures stop ==> Navigate(states, old(Current()), old(console), env) == NavResult(states1, Current(), console)
      ensures !stop ==> Navigate(states, old(Current()), old(console), env) == Navigate(states1, Current(), console, env)
      ensures !stop ==> |console| < |old(console)| || (|console| == |old(console)| && |states1| < |states|)
    {
      ghost var c0, input0 := Current(), console;
      var next := Display(state, env);
      NavigateTurn(states, c0, input0, env, Reply(next, Current(), console));
      states1, state1, stop := states, state, false;
      if next.OutOfInput? {
        stop := true;
        return;
      }
      state1 := next.target;
      if state1 == Exit {
        states1 := states[..|states| - 1];
        if |states1| > 0 {
          state1 := states1[|states1| - 1];
        }
      } else {
        states1 := states + [state1];
      }
    }

    /**
     * ParseCommandLine: the interactive menu when there are no arguments,
     * the loop over the arguments otherwise, then the completeness checks;
     * the error where the source returns false.
     */
    method ParseCommandLine(args: seq<string>, env: Env) returns (error: Option<ParseError>)
      modifies this
      ensures Resolution(error, Current(), console) == Resolve(args, old(Current()), old(console), env)
    {
      if |args| == 0 {
        var ok := RunInteractiveMode(env);
        if !ok {
          return Some(InteractiveAborted);
        }
        error := Completeness(None, None, None, false, env);
        return;
      }
      var user: Option<string> := None;
      var userDomain: Option<string> := None;
      var password: Option<string> := None;
      var delayedInteractive := false;
      var i := 0;
      while i < |args|
        invariant i <= |args| + 1 && console == old(console)
        invariant Scan(args, i, ScanState(Current(), user, userDomain, password, delayedInteractive), env)
               == Scan(args, 0, Initial(old(Current())), env)
        decreases |args| + 1 - i
      {
        var e;
        i, user, userDomain, password, delayedInteractive, e :=
          ParseArgument(args, i, user, userDomain, password, delayedInteractive, env);
        if e.Some? {
          return e;
        }
      }
      error := Completeness(user, userDomain, password, delayedInteractive, env);
    }

    /** One pass of the argument loop's switch at index `i`: the index after the tokens it consumed, the four locals, and the error that ends the loop. */
    method ParseArgument(args: seq<string>, i: nat, user: Option<string>, userDomain: Option<string>,
                         password: Option<string>, delayedInteractive: bool, env: Env)
      returns (next: nat, user1: Option<string>, userDomain1: Option<string>, password1: Option<string>,
               delayedInteractive1: bool, error: Option<ParseError>)
      requires i < |args|
      modifies this
      ensures console == old(console)
      ensures var r := Step(args, i, ScanState(old(Current()), user, userDomain, password, delayedInteractive), env);
        var st := ScanState(Current(), user1, userDomain1, password1, delayedInteractive1);
        r == if error.None? then Next(next, st) else Halt(error.value, st)
    {
      next, user1, userDomain1, password1, delayedInteractive1, error :=
        i + 1, user, userDomain, password, delayedInteractive, None;
      var found := Lookup(args[i]);
      if found.None? {
        error := Some(UnknownOption(args[i]));
        return;
      }
      var sw := found.value;
      if sw == Help {
        error := Some(HelpRequested);
      } else if sw == License {
        next := i + 2;
      } else if sw == Interactive {
        delayedInteractive1 := true;
      } else if !TakesValue(sw) {
        SetFlag(sw);
      } else {
        next, user1, userDomain1, password1, error := ParseValue(args, i, sw, user, userDomain, password, delayedInteractive, env);
      }
    }

    /** The cases of the switch for a switch that checks for a following value. */
    method ParseValue(args: seq<string>, i: nat, sw: Switch, user: Option<string>, userDomain: Option<string>,
                      password: Option<string>, delayedInteractive: bool, env: Env)
      returns (next: nat, user1: Option<string>, userDomain1: Option<string>, password1: Option<string>,
               error: Option<ParseError>)
      requires i < |args| && TakesValue(sw) && sw != Interactive
      modifies this
      ensures console == old(console)
      ensures var r := StepValue(args, i, sw, ScanState(old(Current()), user, userDomain, password, delayedInteractive), env);
        var st := ScanState(Current(), user1, userDomain1, password1, delayedInteractive);
        r == if error.None? then Next(next, st) else Halt(error.value, st)
    {
      if sw == RegenReport {
        perform := perform.(regenerateReport := true);
      } else if sw == ReloadReport {
        perform := perform.(reloadReport := true);
      }
      ghost var st := ScanState(old(Current()), user, userDomain, password, delayedInteractive);
      assert ScanState(Current(), user, userDomain, password, delayedInteractive) == st.(config := PreCheck(sw, st.config));
      if i + 1 >= |args| {
        return i + 2, user, userDomain, password, Some(MissingArgument(sw));
      }
      next := i + 2;
      user1, userDomain1, password1, error := TakeArgument(sw, args[i + 1], user, userDomain, password, delayedInteractive, env);
    }

    /** The value of --user and --password goes into a local, any other into the configuration. */
    method TakeArgument(sw: Switch, v: string, user: Option<string>, userDomain: Option<string>,
                        password: Option<string>, delayedInteractive: bool, env: Env)
      returns (user1: Option<string>, userDomain1: Option<string>, password1: Option<string>, error: Option<ParseError>)
      requires TakesValue(sw) && sw != Interactive
      modifies this
      ensures console == old(console)
      ensures Taken(error, ScanState(Current(), user1, userDomain1, password1, delayedInteractive))
           == TakeValue(sw, v, ScanState(old(Current()), user, userDomain, password, delayedInteractive), env)
    {
      user1, userDomain1, password1, error := user, userDomain, password, None;
      if sw == User {
        // the name after the first backslash, and the domain before it when there is one
        var account := SplitUser(v);
        user1 := Some(account.name);
        if account.domain.Some? {
          userDomain1 := account.domain;
        }
      } else if sw == Password {
        password1 := Some(v);
      } else {
        error := SetValue(sw, v, env);
      }
    }

    /** The checks after the arguments: at least one task, the delayed menu, the domain and credential, the consolidation directory. */
    method Completeness(user: Option<string>, userDomain: Option<string>, password: Option<string>,
                        delayedInteractive: bool, env: Env) returns (error: Option<ParseError>)
      modifies this
      ensures Resolution(error, Current(), console)
           == Complete(ScanState(old(Current()), user, userDomain, password, delayedInteractive), old(console), env)
    {
      if !AnyIntent(perform) && !delayedInteractive {
        return Some(NoIntent);
      }
      if delayedInteractive {
        var _ := RunInteractiveMode(env);
      }
      error := CheckDomain(user, userDomain, password, env);
      if error.None? {
        error := CheckConsolidation(env);
      }
    }

    /** A domain-facing task falls back on the machine's domain and takes the --user credential. */
    method CheckDomain(user: Option<string>, userDomain: Option<string>, password: Option<string>, env: Env)
      returns (error: Option<ParseError>)
      modifies this
      ensures var st := ScanState(old(Current()), user, userDomain, password, false);
        Current() == FinishChecked(st, env) && console == old(console)
      ensures error.Some? <==> DirectoryFacing(perform) && tasks.server == ""
      ensures error.Some? ==> error == Some(NoDomain)
    {
      error := None;
      if perform.healthCheckReport || perform.scanner || perform.advancedLive {
        if tasks.server == "" {
          tasks := tasks.(server := env.currentDomain);
          if tasks.server == "" {
            return Some(NoDomain);
          }
        }
        assert Current() == WithDefaultServer(old(Current()), env);
        if user.Some? {
          SetCredential(user.value, userDomain, password, env);
        }
      }
    }

    /** The NetworkCredential for --user, asking for the password when none was given. */
    method SetCredential(user: string, userDomain: Option<string>, password: Option<string>, env: Env)
      modifies this
      ensures Current() == WithTasks(old(Current()), old(tasks).(credential := Some(MakeCredential(user, userDomain, password, env))))
      ensures console == old(console)
    {
      var typed: string;
      if password.None? {
        typed := AskCredential(env.passwordKeys);
      } else {
        typed := password.value;
      }
      var domain := if userDomain.Some? && userDomain.value != "" then userDomain else None;
      tasks := tasks.(credential := Some(Credential(user, typed, domain)));
    }

    /** The consolidation tasks read the working directory when no path was given, and otherwise need an existing directory. */
    method CheckConsolidation(env: Env) returns (error: Option<ParseError>)
      modifies this
      ensures Resolution(error, Current(), console) == ConsolidationCheck(old(Current()), old(console), env)
    {
      error := None;
      if perform.healthCheckConsolidation || perform.graphConsolidation {
        if tasks.fileOrDirectory == "" {
          tasks := tasks.(fileOrDirectory := env.currentDirectory);
        } else if !env.directoryExists(tasks.fileOrDirectory) {
          error := Some(NotADirectory(tasks.fileOrDirectory));
        }
      }
    }
  
    /**
     * The tail of Run: each selected task in the order of Run's blocks,
     * returning at the first that reports failure; CompleteTasks (the
     * outcome's `completed`) only when none did.
     */
    method RunTasks(succeeds: Task -> bool) returns (o: Outcome)
      ensures o == RunPlan(Planned(Current()), succeeds)
    {
      ghost var c := Current();
      ghost var plan := RunPlan(Planned(c), succeeds);
      PlanRunsBlocks(c, succeeds);
      var ran, failed := RunAnalysisTasks(c, succeeds, plan);
      if failed {
        return Outcome(ran, false);
      }
      ran, failed := RunConsolidationTasks(c, ran, succeeds, plan);
      if failed {
        return Outcome(ran, false);
      }
      ran, failed := RunReportTasks(c, ran, succeeds, plan);
      if failed {
        return Outcome(ran, false);
      }
      PastLastBlock(c, ran, succeeds);
      o := Outcome(ran, true);
    }

    /** The first five blocks of Run: key generation, scanner, cartography and the two analyses. */
    method RunAnalysisTasks(ghost c: Config, succeeds: Task -> bool, ghost plan: Outcome) returns (ran1: seq<Task>, failed: bool)
      requires c == Current() && plan == After([], RunFrom(c, 0, succeeds))
      ensures failed ==> plan == Outcome(ran1, false)
      ensures !failed ==> plan == After(ran1, RunFrom(c, 5, succeeds))
    {
      ran1 := [];
      ran1, failed := StartTask(c, 0, perform.generateKey, GenerateKeyTask, ran1, succeeds, plan);
      if failed {
        return;
      }
      ran1, failed := StartTask(c, 1, perform.scanner, ScannerTask, ran1, succeeds, plan);
      if failed {
        return;
      }
      ran1, failed := StartTask(c, 2, perform.carto, CartoTask(perform.generateDemoReports), ran1, succeeds, plan);
      if failed {
        return;
      }
      ran1, failed := StartTask(c, 3, perform.healthCheckReport, HealthCheckAnalysis, ran1, succeeds, plan);
      if failed {
        return;
      }
      ran1, failed := StartTask(c, 4, perform.advancedLive, GraphAnalysis, ran1, succeeds, plan);
      if failed {
        return;
      }
    }

    /** Blocks 5 and 6 of Run: the two consolidations, also started after an interactive analysis of every domain. */
    method RunConsolidationTasks(ghost c: Config, ran: seq<Task>, succeeds: Task -> bool, ghost plan: Outcome)
      returns (ran1: seq<Task>, failed: bool)
      requires c == Current() && plan == After(ran, RunFrom(c, 5, succeeds))
      ensures failed ==> plan == Outcome(ran1, false)
      ensures !failed ==> plan == After(ran1, RunFrom(c, 7, succeeds))
    {
      ran1 := ran;
      ran1, failed := StartTask(c, 5, perform.healthCheckConsolidation || (perform.healthCheckReport && tasks.server == "*" && tasks.interactiveMode), HealthCheckConsolidationTask, ran1, succeeds, plan);
      if failed {
        return;
      }
      ran1, failed := StartTask(c, 6, perform.graphConsolidation || (perform.advancedLive && tasks.server == "*" && tasks.interactiveMode), GraphConsolidationTask, ran1, succeeds, plan);
      if failed {
        return;
      }
    }

    /** The last four blocks of Run: report regeneration and reload, demo reports and upload. */
    method RunReportTasks(ghost c: Config, ran: seq<Task>, succeeds: Task -> bool, ghost plan: Outcome)
      returns (ran1: seq<Task>, failed: bool)
      requires c == Current() && plan == After(ran, RunFrom(c, 7, succeeds))
      ensures failed ==> plan == Outcome(ran1, false)
      ensures !failed ==> plan == After(ran1, RunFrom(c, SlotCount, succeeds))
    {
      ran1 := ran;
      ran1, failed := StartTask(c, 7, perform.regenerateReport, RegenerateHtmlTask, ran1, succeeds, plan);
      if failed {
        return;
      }
      ran1, failed := StartTask(c, 8, perform.reloadReport, ReloadXmlReport, ran1, succeeds, plan);
      if failed {
        return;
      }
      ran1, failed := StartTask(c, 9, perform.generateDemoReports && !perform.carto, GenerateDemoReportTask, ran1, succeeds, plan);
      if failed {
        return;
      }
      ran1, failed := StartTask(c, 10, perform.uploadAllReport, UploadAllReportTask, ran1, succeeds, plan);
      if failed {
        return;
      }
    }

    /** One `if` block of Run: when its guard holds the task starts, and a failure ends the run. */
    method StartTask(ghost c: Config, k: nat, guard: bool, t: Task, ran: seq<Task>, succeeds: Task -> bool,
                     ghost plan: Outcome)
      returns (ran1: seq<Task>, failed: bool)
      requires k < SlotCount && t == TaskAt(k, c) && guard == Selected(t, c)
      requires plan == After(ran, RunFrom(c, k, succeeds))
      ensures failed ==> plan == Outcome(ran1, false)
      ensures !failed ==> plan == After(ran1, RunFrom(c, k + 1, succeeds))
    {
      ran1, failed := ran, false;
      if guard {
        ran1 := ran + [t];
        failed := !succeeds(t);
        AfterAfter(ran, [t], RunFrom(c, k + 1, succeeds));
      }
    }

    /** Run once the license is accepted: the command line is resolved, then the tasks start unless resolution failed. */
    method RunProgram(args: seq<string>, env: Env, succeeds: Task -> bool) returns (error: Option<ParseError>, o: Option<Outcome>)
      modifies this
      ensures Resolution(error, Current(), console) == Resolve(args, old(Current()), old(console), env)
      ensures o == if error.None? then Some(RunPlan(Planned(Current()), succeeds)) else None
    {
      error := ParseCommandLine(args, env);
      if error.Some? {
        return error, None;
      }
      var outcome := RunTasks(succeeds);
      o := Some(outcome);
    }
}
}
