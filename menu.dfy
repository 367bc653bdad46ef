/**
 * The interactive menu as a specification: each Display* handler is a
 * function from the configuration and the remaining console answers to the
 * next state, the new configuration and the answers left; Navigate is the
 * stack loop of RunInteractiveMode.
 */
module Menu {
  import opened Wrappers
  import opened OptionTable
  import opened Configuration

  datatype DisplayState =
    | Exit | MainMenu | ScannerMenu | AskForServer | Run | AvancedMenu
    | AskForAdditionalUsers | AskForScannerParameter | ProtocolMenu | AskForFile

  /** What a console question accepts; an answer it does not accept is asked again. */
  datatype Question = Choose(count: nat, default: Option<nat>) | AskString | AskList | AskConfirm

  predicate Accepts(q: Question, a: Answer) {
    match q
    case Choose(n, d) => (a.Pick? && a.index <= n) || (a.Default? && d.Some?)
    case AskString => a.Line?
    case AskList => a.Lines?
    case AskConfirm => a.Confirm?
  }

  /** The first answer `q` accepts and the answers after it; None once the script is exhausted. */
  function Read(input: seq<Answer>, q: Question): (r: (Option<Answer>, seq<Answer>))
    ensures r.0.Some? ==> Accepts(q, r.0.value) && |r.1| < |input|
    ensures r.0.None? ==> r.1 == []
  {
    if input == [] then (None, [])
    else if Accepts(q, input[0]) then (Some(input[0]), input[1..])
    else Read(input[1..], q)
  }

  /** Outcome of one handler: a state to go to, or the script ran out while it was asking. */
  datatype Next = Goto(target: DisplayState) | OutOfInput

  datatype Reply = Reply(next: Next, config: Config, input: seq<Answer>)

  datatype MainAction = HealthCheckAction | GraphAction | ConsoAction | CartoAction | ScannerAction | AdvancedAction

  /** The main menu entries, in the order they are listed (index 1 is the first). */
  const MainMenuActions: seq<MainAction> :=
    [HealthCheckAction, GraphAction, ConsoAction, CartoAction, ScannerAction, AdvancedAction]

  datatype AdvancedAction = ProtocolAction | GenerateKeyAction | DecryptAction | RegenerateAction | LogAction

  const AdvancedMenuActions: seq<AdvancedAction> :=
    [ProtocolAction, GenerateKeyAction, DecryptAction, RegenerateAction, LogAction]

  /** The protocol menu entries. */
  const ProtocolChoices: seq<ConnectionType> := [ADWSThenLDAP, ADWSOnly, LDAPOnly, LDAPThenADWS]

  /** The six intents the main menu resets before asking. */
  function ClearMainIntents(i: Intents): Intents {
    i.(healthCheckReport := false, graphConsolidation := false, advancedLive := false,
       carto := false, healthCheckConsolidation := false, scanner := false)
  }

  /** The three intents the advanced menu resets before asking. */
  function ClearAdvancedIntents(i: Intents): Intents {
    i.(generateKey := false, reloadReport := false, regenerateReport := false)
  }

  function WithIntents(c: Config, i: Intents): Config {
    c.(intents := i)
  }

  function WithTasks(c: Config, t: TaskConfig): Config {
    c.(tasks := t)
  }

  /** DisplayMainMenu. */
  function MainMenuStep(c: Config, input: seq<Answer>): Reply {
    var i := ClearMainIntents(c.intents);
    var c0 := WithIntents(c, i);
    var (a, rest) := Read(input, Choose(|MainMenuActions|, None));
    if a.None? then Reply(OutOfInput, c0, rest)
    else if a.value.index == 0 then Reply(Goto(Exit), c0, rest)
    else MainChoice(MainMenuActions[a.value.index - 1], c0, rest)
  }

  /** The switch of DisplayMainMenu on the chosen entry. */
  function MainChoice(action: MainAction, c: Config, rest: seq<Answer>): Reply {
    var i := c.intents;
    match action
    case HealthCheckAction => Reply(Goto(AskForServer), WithIntents(c, i.(healthCheckReport := true)), rest)
    case GraphAction => Reply(Goto(AskForServer), WithIntents(c, i.(advancedLive := true)), rest)
    case CartoAction => Reply(Goto(AskForServer), WithIntents(c, i.(carto := true)), rest)
    case ConsoAction =>
      Reply(Goto(Run), WithIntents(c, i.(healthCheckConsolidation := true, graphConsolidation := true)), rest)
    case ScannerAction => Reply(Goto(ScannerMenu), WithIntents(c, i.(scanner := true)), rest)
    case AdvancedAction => Reply(Goto(AvancedMenu), c, rest)
  }

  /** DisplayScannerMenu: the registry's scanners, listed in order. */
  function ScannerMenuStep(c: Config, input: seq<Answer>, env: Env): Reply {
    var (a, rest) := Read(input, Choose(|env.scanners|, None));
    if a.None? then Reply(OutOfInput, c, rest)
    else if a.value.index == 0 then Reply(Goto(Exit), c, rest)
    else Reply(Goto(AskForScannerParameter), WithTasks(c, c.tasks.(scanner := env.scanners[a.value.index - 1])), rest)
  }

  /** DisplayAskForScannerParameter: the scanner's own prompts either complete or are abandoned. */
  function ScannerParameterStep(c: Config, input: seq<Answer>): Reply {
    var (a, rest) := Read(input, AskConfirm);
    if a.None? then Reply(OutOfInput, c, rest)
    else if !a.value.accepted then Reply(Goto(Exit), c, rest)
    else Reply(Goto(AskForServer), c, rest)
  }

  /** The server the prompt proposes when the answer is empty. */
  function DefaultServer(c: Config, env: Env): string {
    if c.tasks.server == "" then env.currentDomain else c.tasks.server
  }

  /** The re-asking loop of DisplayAskServer: the server last stored, the answers left, and whether a non-empty server was obtained. */
  function AskServerLoop(defaultDomain: string, server: string, input: seq<Answer>): (r: (string, seq<Answer>, bool))
    ensures |r.1| <= |input|
    ensures r.2 ==> r.0 != "" && |r.1| < |input|
    decreases |input|
  {
    var (a, rest) := Read(input, AskString);
    if a.None? then (server, rest, false)
    else
      var s := if a.value.text == "" then defaultDomain else a.value.text;
      if s != "" then (s, rest, true) else AskServerLoop(defaultDomain, s, rest)
  }

  /** DisplayAskServer. */
  function AskServerStep(c: Config, input: seq<Answer>, env: Env): Reply {
    var (server, rest, found) := AskServerLoop(DefaultServer(c, env), c.tasks.server, input);
    var c1 := WithTasks(c, c.tasks.(server := server));
    if !found then Reply(OutOfInput, c1, rest)
    else if c.intents.advancedLive then Reply(Goto(AskForAdditionalUsers), c1, rest)
    else Reply(Goto(Run), c1, rest)
  }

  /** DisplayAskForAdditionalUsers. */
  function AdditionalUsersStep(c: Config, input: seq<Answer>): Reply {
    var (a, rest) := Read(input, AskList);
    if a.None? then Reply(OutOfInput, c, rest)
    else Reply(Goto(Run), WithTasks(c, c.tasks.(nodesToInvestigate := a.value.items)), rest)
  }

  /** DisplayAdvancedMenu. */
  function AdvancedMenuStep(c: Config, input: seq<Answer>): Reply {
    var i := ClearAdvancedIntents(c.intents);
    var c0 := WithIntents(c, i);
    var (a, rest) := Read(input, Choose(|AdvancedMenuActions|, None));
    if a.None? then Reply(OutOfInput, c0, rest)
    else if a.value.index == 0 then Reply(Goto(Exit), c0, rest)
    else AdvancedChoice(AdvancedMenuActions[a.value.index - 1], c0, rest)
  }

  /** The switch of DisplayAdvancedMenu on the chosen entry; logging is enabled only when no listener but the default one is registered. */
  function AdvancedChoice(action: AdvancedAction, c: Config, rest: seq<Answer>): Reply {
    var i := c.intents;
    match action
    case ProtocolAction => Reply(Goto(ProtocolMenu), c, rest)
    case GenerateKeyAction => Reply(Goto(Run), WithIntents(c, i.(generateKey := true)), rest)
    case DecryptAction => Reply(Goto(AskForFile), WithIntents(c, i.(reloadReport := true)), rest)
    case RegenerateAction => Reply(Goto(AskForFile), WithIntents(c, i.(regenerateReport := true)), rest)
    case LogAction =>
      var listeners := c.settings.listeners;
      var s := if |listeners| <= 1 then c.settings.(listeners := listeners + [FileListener]) else c.settings;
      Reply(Goto(Exit), c.(settings := s), rest)
  }

  /** Position (1-based) of the current protocol in the protocol menu: its highlighted default. */
  function DefaultProtocolIndex(t: ConnectionType): (d: nat)
    ensures 1 <= d <= |ProtocolChoices| && ProtocolChoices[d - 1] == t
  {
    match t
    case ADWSThenLDAP => 1
    case ADWSOnly => 2
    case LDAPOnly => 3
    case LDAPThenADWS => 4
  }

  /** DisplayProtocolMenu: any outcome goes back. */
  function ProtocolMenuStep(c: Config, input: seq<Answer>): Reply {
    var d := DefaultProtocolIndex(c.settings.connectionType);
    var (a, rest) := Read(input, Choose(|ProtocolChoices|, Some(d)));
    if a.None? then Reply(OutOfInput, c, rest)
    else if a.value.Pick? && a.value.index == 0 then Reply(Goto(Exit), c, rest)
    else
      var k := if a.value.Pick? then a.value.index else d;
      Reply(Goto(Exit), c.(settings := c.settings.(connectionType := ProtocolChoices[k - 1])), rest)
  }

  /** The re-asking loop of DisplayAskForFile: the first non-empty name of an existing file. */
  function AskFileLoop(input: seq<Answer>, env: Env): (r: (Option<string>, seq<Answer>))
    ensures r.0.Some? ==> r.0.value != "" && env.fileExists(r.0.value) && |r.1| < |input|
    ensures r.0.None? ==> r.1 == []
    decreases |input|
  {
    var (a, rest) := Read(input, AskString);
    if a.None? then (None, rest)
    else if a.value.text != "" && env.fileExists(a.value.text) then (Some(a.value.text), rest)
    else AskFileLoop(rest, env)
  }

  /** DisplayAskForFile. */
  function AskForFileStep(c: Config, input: seq<Answer>, env: Env): Reply {
    var (file, rest) := AskFileLoop(input, env);
    if file.None? then Reply(OutOfInput, c, rest)
    else Reply(Goto(Run), WithTasks(c, c.tasks.(fileOrDirectory := file.value, report := c.tasks.report.(encryptReport := false))), rest)
  }

  /** The switch of the loop body; Exit and Run have no handler and give Exit. */
  function Handle(state: DisplayState, c: Config, input: seq<Answer>, env: Env): (r: Reply)
    ensures |r.input| <= |input|
    ensures r.next.Goto? && r.next.target != Exit ==> |r.input| < |input|
  {
    match state
    case MainMenu => MainMenuStep(c, input)
    case ScannerMenu => ScannerMenuStep(c, input, env)
    case AskForServer => AskServerStep(c, input, env)
    case AskForAdditionalUsers => AdditionalUsersStep(c, input)
    case AskForScannerParameter => ScannerParameterStep(c, input)
    case AvancedMenu => AdvancedMenuStep(c, input)
    case AskForFile => AskForFileStep(c, input, env)
    case ProtocolMenu => ProtocolMenuStep(c, input)
    case Exit => Reply(Goto(Exit), c, input)
    case Run => Reply(Goto(Exit), c, input)
  }

  /** How the loop ended: the stack, the configuration and the answers left. */
  datatype NavResult = NavResult(stack: seq<DisplayState>, config: Config, input: seq<Answer>) {
    /** RunInteractiveMode's result: the stack is not empty, so Run is on top. */
    predicate Succeeded() {
      |stack| > 0 && stack[|stack| - 1] == Run
    }
  }

  /** The loop of RunInteractiveMode from a given stack: Exit pops and resumes the new top, any other state is pushed. */
  function Navigate(stack: seq<DisplayState>, c: Config, input: seq<Answer>, env: Env): NavResult
    decreases |input|, |stack|
  {
    if |stack| == 0 || stack[|stack| - 1] == Run then NavResult(stack, c, input)
    else
      var r := Handle(stack[|stack| - 1], c, input, env);
      match r.next
      case OutOfInput => NavResult(stack, r.config, r.input)
      case Goto(n) =>
        if n == Exit then Navigate(stack[..|stack| - 1], r.config, r.input, env)
        else Navigate(stack + [n], r.config, r.input, env)
  }

  /** One turn of the loop from a stack with a handler on top: pop on Exit, push any other state, stop when the script ran out. */
  lemma NavigateTurn(stack: seq<DisplayState>, c: Config, input: seq<Answer>, env: Env, r: Reply)
    requires |stack| > 0 && stack[|stack| - 1] != Run
    requires r == Handle(stack[|stack| - 1], c, input, env)
    ensures r.next.OutOfInput? ==> Navigate(stack, c, input, env) == NavResult(stack, r.config, r.input)
    ensures r.next == Goto(Exit) ==> Navigate(stack, c, input, env) == Navigate(stack[..|stack| - 1], r.config, r.input, env)
    ensures r.next.Goto? && r.next.target != Exit ==>
      Navigate(stack, c, input, env) == Navigate(stack + [r.next.target], r.config, r.input, env)
  {
  }

  /** The loop has stopped once the stack is empty or Run is on top. */
  lemma NavigateStopped(stack: seq<DisplayState>, c: Config, input: seq<Answer>, env: Env)
    requires |stack| == 0 || stack[|stack| - 1] == Run
    ensures Navigate(stack, c, input, env) == NavResult(stack, c, input)
  {
  }

  /** RunInteractiveMode: interactive mode is recorded, then the loop starts at the main menu. */
  function InteractiveSession(c: Config, input: seq<Answer>, env: Env): NavResult {
    Navigate([MainMenu], WithTasks(c, c.tasks.(interactiveMode := true)), input, env)
  }
}
