/** What the menu state machine guarantees, proved about its specification. */
module MenuProperties {
  import opened Wrappers
  import opened OptionTable
  import opened Configuration
  import opened Menu

  /** The state a handler can hand control to: the arrows of the menu graph. */
  predicate Edge(from: DisplayState, to: DisplayState) {
    match from
    case MainMenu => to == AskForServer || to == Run || to == ScannerMenu || to == AvancedMenu
    case ScannerMenu => to == AskForScannerParameter
    case AskForScannerParameter => to == AskForServer
    case AskForServer => to == AskForAdditionalUsers || to == Run
    case AskForAdditionalUsers => to == Run
    case AvancedMenu => to == ProtocolMenu || to == Run || to == AskForFile
    case AskForFile => to == Run
    case _ => false
  }

  /** What the intents satisfy while a state is on the stack; Exit is never there. */
  predicate Guard(s: DisplayState, i: Intents) {
    match s
    case Exit => false
    case MainMenu => true
    case AvancedMenu => true
    case ProtocolMenu => true
    case ScannerMenu => i.scanner
    case AskForScannerParameter => i.scanner
    case AskForServer => i.healthCheckReport || i.advancedLive || i.carto || i.scanner
    case AskForAdditionalUsers => i.advancedLive
    case AskForFile => i.reloadReport || i.regenerateReport
    case Run => AnyIntent(i)
  }

  /** The stack is a path of the menu graph from the main menu, and each state's guard holds. */
  predicate PathStack(stack: seq<DisplayState>, i: Intents) {
    && (|stack| > 0 ==> stack[0] == MainMenu)
    && (forall k :: 0 < k < |stack| ==> Edge(stack[k - 1], stack[k]))
    && (forall k :: 0 <= k < |stack| ==> Guard(stack[k], i))
  }

  /** The main menu only ever sits at the bottom of a path stack. */
  lemma MainMenuAtBottom(stack: seq<DisplayState>, i: Intents)
    requires PathStack(stack, i)
    ensures forall k :: 0 < k < |stack| ==> stack[k] != MainMenu
  {
    forall k | 0 < k < |stack|
      ensures stack[k] != MainMenu
    {
      assert Edge(stack[k - 1], stack[k]);
    }
  }

  /** The advanced menu only ever sits right above the main menu. */
  lemma AdvancedMenuSecond(stack: seq<DisplayState>, i: Intents)
    requires PathStack(stack, i)
    ensures forall k :: 0 <= k < |stack| && stack[k] == AvancedMenu ==> k == 1
  {
    MainMenuAtBottom(stack, i);
    forall k | 0 <= k < |stack| && stack[k] == AvancedMenu
      ensures k == 1
    {
      assert k != 0;
      assert Edge(stack[k - 1], stack[k]);
    }
  }

  /** Pushing a guarded successor of the top keeps a guarded path. */
  lemma PushKeepsPath(stack: seq<DisplayState>, i: Intents, n: DisplayState)
    requires PathStack(stack, i) && |stack| > 0
    requires Edge(stack[|stack| - 1], n) && Guard(n, i)
    ensures PathStack(stack + [n], i)
  {
    var s := stack + [n];
    assert forall k :: 0 <= k < |stack| ==> s[k] == stack[k];
  }

  /** Popping keeps a guarded path. */
  lemma PopKeepsPath(stack: seq<DisplayState>, i: Intents)
    requires PathStack(stack, i) && |stack| > 0
    ensures PathStack(stack[..|stack| - 1], i)
  {
  }

  /** The main menu hands control only along its arrows, to a state whose guard its choice has made true. */
  lemma MainMenuEdges(c: Config, input: seq<Answer>)
    ensures var r := MainMenuStep(c, input);
      r.next.Goto? && r.next.target != Exit ==> Edge(MainMenu, r.next.target) && Guard(r.next.target, r.config.intents)
  {
    var (a, rest) := Read(input, Choose(|MainMenuActions|, None));
    if a.Some? && a.value.index > 0 {
      var k := a.value.index;
      assert 1 <= k <= 6;
      if k == 1 {} else if k == 2 {} else if k == 3 {} else if k == 4 {} else if k == 5 {} else {}
    }
  }

  /** The advanced menu hands control only along its arrows, to a state whose guard its choice has made true. */
  lemma AdvancedMenuEdges(c: Config, input: seq<Answer>)
    ensures var r := AdvancedMenuStep(c, input);
      r.next.Goto? && r.next.target != Exit ==> Edge(AvancedMenu, r.next.target) && Guard(r.next.target, r.config.intents)
  {
    var (a, rest) := Read(input, Choose(|AdvancedMenuActions|, None));
    if a.Some? && a.value.index > 0 {
      var k := a.value.index;
      assert 1 <= k <= 5;
      if k == 1 {} else if k == 2 {} else if k == 3 {} else if k == 4 {} else {}
    }
  }

  /** The other handlers leave the intents alone and hand control only along their arrows. */
  lemma OtherHandlerEdges(state: DisplayState, c: Config, input: seq<Answer>, env: Env)
    requires state != MainMenu && state != AvancedMenu && Guard(state, c.intents)
    ensures var r := Handle(state, c, input, env);
      && r.config.intents == c.intents
      && (r.next.Goto? && r.next.target != Exit ==> Edge(state, r.next.target) && Guard(r.next.target, c.intents))
  {
  }

  /** One handler call keeps the stack a guarded path, whether it pushes, pops or runs out of answers. */
  lemma HandleKeepsPath(stack: seq<DisplayState>, c: Config, input: seq<Answer>, env: Env)
    requires PathStack(stack, c.intents)
    requires |stack| > 0 && stack[|stack| - 1] != Run
    ensures var r := Handle(stack[|stack| - 1], c, input, env);
      match r.next
      case OutOfInput => PathStack(stack, r.config.intents)
      case Goto(n) =>
        if n == Exit then PathStack(stack[..|stack| - 1], r.config.intents)
        else PathStack(stack + [n], r.config.intents)
  {
    var top := stack[|stack| - 1];
    var r := Handle(top, c, input, env);
    assert Guard(top, c.intents);
    if top == MainMenu {
      MainMenuAtBottom(stack, c.intents);
      assert stack == [MainMenu];
      MainMenuEdges(c, input);
      if r.next.Goto? && r.next.target != Exit {
        assert stack + [r.next.target] == [MainMenu, r.next.target];
      }
    } else if top == AvancedMenu {
      AdvancedMenuSecond(stack, c.intents);
      assert stack == [MainMenu, AvancedMenu];
      AdvancedMenuEdges(c, input);
      if r.next.Goto? && r.next.target == Exit {
        assert stack[..|stack| - 1] == [MainMenu];
      } else if r.next.Goto? {
        assert stack + [r.next.target] == [MainMenu, AvancedMenu, r.next.target];
      }
    } else {
      OtherHandlerEdges(top, c, input, env);
      if r.next.Goto? && r.next.target != Exit {
        PushKeepsPath(stack, c.intents, r.next.target);
      } else if r.next.Goto? {
        PopKeepsPath(stack, c.intents);
      }
    }
  }

  /** The navigation loop keeps the stack a guarded path. */
  lemma {:induction false} NavigateKeepsPath(stack: seq<DisplayState>, c: Config, input: seq<Answer>, env: Env)
    requires PathStack(stack, c.intents)
    ensures var r := Navigate(stack, c, input, env); PathStack(r.stack, r.config.intents)
    decreases |input|, |stack|
  {
    if |stack| > 0 && stack[|stack| - 1] != Run {
      var r := Handle(stack[|stack| - 1], c, input, env);
      HandleKeepsPath(stack, c, input, env);
      match r.next
      case OutOfInput =>
      case Goto(n) =>
        if n == Exit {
          NavigateKeepsPath(stack[..|stack| - 1], r.config, r.input, env);
        } else {
          NavigateKeepsPath(stack + [n], r.config, r.input, env);
        }
    }
  }

  /**
   * Exit is never pushed, the main menu stays at the bottom, and an
   * interaction that ends with Run on top has selected at least one task,
   * so the completeness check after the menu cannot fail for lack of one.
   */
  lemma InteractiveSelectsTask(c: Config, input: seq<Answer>, env: Env)
    ensures var r := InteractiveSession(c, input, env);
      && Exit !in r.stack
      && (|r.stack| > 0 ==> r.stack[0] == MainMenu)
      && (r.Succeeded() ==> AnyIntent(r.config.intents))
  {
    var c1 := WithTasks(c, c.tasks.(interactiveMode := true));
    assert PathStack([MainMenu], c1.intents);
    NavigateKeepsPath([MainMenu], c1, input, env);
    var r := Navigate([MainMenu], c1, input, env);
    forall k | 0 <= k < |r.stack|
      ensures r.stack[k] != Exit
    {
      assert Guard(r.stack[k], r.config.intents);
    }
    if r.Succeeded() {
      assert Guard(r.stack[|r.stack| - 1], r.config.intents);
    }
  }

  /** The main menu resets its six intents before asking; back (0) returns Exit with them reset. */
  lemma MainMenuBack(c: Config, rest: seq<Answer>)
    ensures MainMenuStep(c, [Pick(0)] + rest) == Reply(Goto(Exit), WithIntents(c, ClearMainIntents(c.intents)), rest)
  {
    assert ([Pick(0)] + rest)[1..] == rest;
  }

  /** Choosing conso sets both consolidation intents and goes straight to Run. */
  lemma MainMenuConso(c: Config, rest: seq<Answer>)
    ensures var r := MainMenuStep(c, [Pick(3)] + rest);
      && r.next == Goto(Run)
      && r.config.intents == ClearMainIntents(c.intents).(healthCheckConsolidation := true, graphConsolidation := true)
      && r.input == rest
  {
    assert ([Pick(3)] + rest)[1..] == rest;
  }

  /** Whatever the main menu does, the main-menu intents it did not choose end up false and the others are untouched. */
  lemma MainMenuResets(c: Config, input: seq<Answer>)
    ensures var i := MainMenuStep(c, input).config.intents;
      && (i.healthCheckReport ==> !i.advancedLive && !i.carto && !i.scanner)
      && (i.advancedLive ==> !i.carto && !i.scanner)
      && (i.carto ==> !i.scanner)
      && (i.healthCheckConsolidation <==> i.graphConsolidation)
      && (i.healthCheckConsolidation ==> !i.healthCheckReport && !i.advancedLive && !i.carto && !i.scanner)
      && i.generateKey == c.intents.generateKey && i.reloadReport == c.intents.reloadReport
      && i.regenerateReport == c.intents.regenerateReport
  {
    var (a, rest) := Read(input, Choose(|MainMenuActions|, None));
    if a.Some? && a.value.index > 0 {
      var k := a.value.index;
      assert 1 <= k <= 6;
      if k == 1 {} else if k == 2 {} else if k == 3 {} else if k == 4 {} else if k == 5 {} else {}
    }
  }

  /** The server prompt continues to the additional-users prompt exactly when the graph intent is set, otherwise to Run. */
  lemma AskServerNext(c: Config, input: seq<Answer>, env: Env)
    ensures var r := AskServerStep(c, input, env);
      && r.next != Goto(Exit)
      && (r.next.Goto? ==>
            && r.config.tasks.server != ""
            && (r.next.target == AskForAdditionalUsers <==> c.intents.advancedLive)
            && (r.next.target == Run <==> !c.intents.advancedLive))
  {
  }

  /** The main menu's result depends on the intents only through those it does not reset. */
  lemma MainMenuIgnoresResetIntents(c: Config, d: Config, input: seq<Answer>)
    requires c.tasks == d.tasks && c.settings == d.settings
    requires ClearMainIntents(c.intents) == ClearMainIntents(d.intents)
    ensures MainMenuStep(c, input) == MainMenuStep(d, input)
  {
  }

  /** Choosing healthcheck (1) or graph (2) sets that intent alone among the six and asks for the server. */
  lemma MainMenuDirectoryChoice(c: Config, k: nat, rest: seq<Answer>)
    requires k == 1 || k == 2
    ensures MainMenuStep(c, [Pick(k)] + rest)
         == Reply(Goto(AskForServer),
                  WithIntents(c, if k == 1 then ClearMainIntents(c.intents).(healthCheckReport := true)
                                 else ClearMainIntents(c.intents).(advancedLive := true)),
                  rest)
  {
    assert ([Pick(k)] + rest)[1..] == rest;
  }

  /** A non-empty server answer is stored, and the prompt moves on to the node prompt for graph, to Run otherwise. */
  lemma ServerAnswered(c: Config, server: string, rest: seq<Answer>, env: Env)
    requires server != ""
    ensures AskServerStep(c, [Line(server)] + rest, env)
         == Reply(Goto(if c.intents.advancedLive then AskForAdditionalUsers else Run),
                  WithTasks(c, c.tasks.(server := server)), rest)
  {
    assert ([Line(server)] + rest)[1..] == rest;
  }

  /** An empty answer at the server prompt takes the proposed default when there is one, and otherwise the prompt asks again. */
  lemma {:induction false} EmptyServerTakesDefault(defaultDomain: string, server: string, rest: seq<Answer>)
    ensures AskServerLoop(defaultDomain, server, [Line("")] + rest)
         == if defaultDomain != "" then (defaultDomain, rest, true) else AskServerLoop(defaultDomain, "", rest)
  {
    assert ([Line("")] + rest)[1..] == rest;
  }

  /** An empty answer stores the current server, or else the machine's domain, and the prompt moves on as for a typed server. */
  lemma ServerDefaulted(c: Config, rest: seq<Answer>, env: Env)
    requires c.tasks.server != "" || env.currentDomain != ""
    ensures AskServerStep(c, [Line("")] + rest, env)
         == Reply(Goto(if c.intents.advancedLive then AskForAdditionalUsers else Run),
                  WithTasks(c, c.tasks.(server := if c.tasks.server != "" then c.tasks.server else env.currentDomain)),
                  rest)
  {
    EmptyServerTakesDefault(DefaultServer(c, env), c.tasks.server, rest);
  }

  /** With no server and no machine domain, an empty answer is passed over and the prompt asks again. */
  lemma ServerWithoutDefault(c: Config, rest: seq<Answer>, env: Env)
    requires c.tasks.server == "" && env.currentDomain == ""
    ensures AskServerStep(c, [Line("")] + rest, env) == AskServerStep(c, rest, env)
  {
    EmptyServerTakesDefault(DefaultServer(c, env), c.tasks.server, rest);
  }

  /** The list given at the node prompt is stored and the loop moves on to Run. */
  lemma NodesAnswered(c: Config, nodes: seq<string>, rest: seq<Answer>)
    ensures AdditionalUsersStep(c, [Lines(nodes)] + rest)
         == Reply(Goto(Run), WithTasks(c, c.tasks.(nodesToInvestigate := nodes)), rest)
  {
    assert ([Lines(nodes)] + rest)[1..] == rest;
  }

  /** One turn of the loop that pushes the handler's next state. */
  lemma NavigatePush(stack: seq<DisplayState>, c: Config, input: seq<Answer>, env: Env, r: Reply)
    requires |stack| > 0 && stack[|stack| - 1] != Run
    requires r == Handle(stack[|stack| - 1], c, input, env)
    requires r.next.Goto? && r.next.target != Exit
    ensures Navigate(stack, c, input, env) == Navigate(stack + [r.next.target], r.config, r.input, env)
  {
  }

  /** Back (0) at the main menu with nothing below it ends the interaction unsuccessfully, with the stack empty. */
  lemma ExitAtMainMenu(c: Config, rest: seq<Answer>, env: Env)
    ensures var r := InteractiveSession(c, [Pick(0)] + rest, env);
      && !r.Succeeded() && r.stack == [] && r.input == rest
  {
    var c1 := WithTasks(c, c.tasks.(interactiveMode := true));
    var r1 := Handle(MainMenu, c1, [Pick(0)] + rest, env);
    MainMenuBack(c1, rest);
    assert Navigate([MainMenu], c1, [Pick(0)] + rest, env) == Navigate([], r1.config, rest, env);
  }

  /** Healthcheck followed by a non-empty server always reaches Run with that server. */
  lemma HealthCheckThenServer(c: Config, server: string, rest: seq<Answer>, env: Env)
    requires server != ""
    ensures var r := InteractiveSession(c, [Pick(1), Line(server)] + rest, env);
      && r.Succeeded() && r.stack == [MainMenu, AskForServer, Run]
      && r.config.intents.healthCheckReport && r.config.tasks.server == server
      && r.config.tasks.interactiveMode && r.input == rest
  {
    var input := [Pick(1), Line(server)] + rest;
    assert input[1..] == [Line(server)] + rest;
    assert input[1..][1..] == rest;
    var c1 := WithTasks(c, c.tasks.(interactiveMode := true));
    var r1 := Handle(MainMenu, c1, input, env);
    assert r1.next == Goto(AskForServer) && r1.input == [Line(server)] + rest;
    var r2 := Handle(AskForServer, r1.config, r1.input, env);
    assert r2.next == Goto(Run) && r2.input == rest;
    assert [MainMenu] + [AskForServer] == [MainMenu, AskForServer];
    assert Navigate([MainMenu], c1, input, env) == Navigate([MainMenu, AskForServer], r1.config, r1.input, env);
    assert Navigate([MainMenu, AskForServer], r1.config, r1.input, env)
        == Navigate([MainMenu, AskForServer, Run], r2.config, rest, env);
  }

  /** After graph and a server, the loop waits at the node prompt: without an answer there it does not reach Run. */
  lemma GraphWaitsForNodes(c: Config, server: string, env: Env)
    requires server != ""
    ensures var r := InteractiveSession(c, [Pick(2), Line(server)], env);
      && !r.Succeeded() && r.stack == [MainMenu, AskForServer, AskForAdditionalUsers]
      && r.config.intents.advancedLive && r.config.tasks.server == server
  {
    var c1 := WithTasks(c, c.tasks.(interactiveMode := true));
    assert [Pick(2), Line(server)] == [Pick(2), Line(server)] + [];
    GraphThenServer(c1, server, [], env);
    var c2 := WithTasks(WithIntents(c1, ClearMainIntents(c1.intents).(advancedLive := true)), c1.tasks.(server := server));
    var r3 := Handle(AskForAdditionalUsers, c2, [], env);
    assert r3.next == OutOfInput && r3.config == c2;
  }

  /** Graph followed by a non-empty server stacks the node prompt on top of the server prompt, with both answers recorded. */
  lemma GraphThenServer(c: Config, server: string, rest: seq<Answer>, env: Env)
    requires server != ""
    ensures Navigate([MainMenu], c, [Pick(2), Line(server)] + rest, env)
         == Navigate([MainMenu, AskForServer, AskForAdditionalUsers],
                     WithTasks(WithIntents(c, ClearMainIntents(c.intents).(advancedLive := true)),
                               c.tasks.(server := server)),
                     rest, env)
  {
    var s1: seq<DisplayState> := [MainMenu];
    var input := [Pick(2)] + ([Line(server)] + rest);
    assert input == [Pick(2), Line(server)] + rest;
    MainMenuDirectoryChoice(c, 2, [Line(server)] + rest);
    var q1 := Handle(MainMenu, c, input, env);
    NavigatePush(s1, c, input, env, q1);
    ServerAnswered(q1.config, server, rest, env);
    var q2 := Handle(AskForServer, q1.config, q1.input, env);
    NavigatePush(s1 + [AskForServer], q1.config, q1.input, env, q2);
    assert s1 + [AskForServer] + [AskForAdditionalUsers] == [MainMenu, AskForServer, AskForAdditionalUsers];
  }

  /** Graph, a server and a list of nodes reach Run with the graph intent, the server and the nodes stored. */
  lemma GraphThenServerThenNodes(c: Config, server: string, nodes: seq<string>, env: Env)
    requires server != ""
    ensures var r := InteractiveSession(c, [Pick(2), Line(server), Lines(nodes)], env);
      && r.Succeeded() && r.stack == [MainMenu, AskForServer, AskForAdditionalUsers, Run]
      && r.config.intents.advancedLive && r.config.tasks.server == server
      && r.config.tasks.nodesToInvestigate == nodes && r.input == []
  {
    var c1 := WithTasks(c, c.tasks.(interactiveMode := true));
    var s3: seq<DisplayState> := [MainMenu, AskForServer, AskForAdditionalUsers];
    assert [Pick(2), Line(server), Lines(nodes)] == [Pick(2), Line(server)] + [Lines(nodes)];
    GraphThenServer(c1, server, [Lines(nodes)], env);
    var c2 := WithTasks(WithIntents(c1, ClearMainIntents(c1.intents).(advancedLive := true)), c1.tasks.(server := server));
    NodesAnswered(c2, nodes, []);
    assert [Lines(nodes)] + [] == [Lines(nodes)];
    var q3 := Handle(AskForAdditionalUsers, c2, [Lines(nodes)], env);
    NavigatePush(s3, c2, [Lines(nodes)], env, q3);
  }

  /** Back at the main menu: the loop's outcome does not depend on the intents the main menu resets. */
  lemma RestartAtMainMenu(c: Config, d: Config, input: seq<Answer>, env: Env)
    requires c.tasks == d.tasks && c.settings == d.settings
    requires ClearMainIntents(c.intents) == ClearMainIntents(d.intents)
    ensures Navigate([MainMenu], c, input, env) == Navigate([MainMenu], d, input, env)
  {
    MainMenuIgnoresResetIntents(c, d, input);
    assert Handle(MainMenu, c, input, env) == Handle(MainMenu, d, input, env);
  }

  /** Choosing the scanner menu and going back returns to the main menu as if neither answer had been given. */
  lemma BackFromScannerMenu(c: Config, rest: seq<Answer>, env: Env)
    ensures InteractiveSession(c, [Pick(5), Pick(0)] + rest, env) == InteractiveSession(c, rest, env)
  {
    var input := [Pick(5), Pick(0)] + rest;
    assert input[1..] == [Pick(0)] + rest;
    assert input[1..][1..] == rest;
    var c1 := WithTasks(c, c.tasks.(interactiveMode := true));
    var r1 := Handle(MainMenu, c1, input, env);
    assert r1.next == Goto(ScannerMenu) && r1.input == [Pick(0)] + rest;
    var r2 := Handle(ScannerMenu, r1.config, r1.input, env);
    assert r2 == Reply(Goto(Exit), r1.config, rest);
    var s: seq<DisplayState> := [MainMenu, ScannerMenu];
    assert s[..1] == [MainMenu];
    assert Navigate([MainMenu], c1, input, env) == Navigate(s, r1.config, r1.input, env);
    assert Navigate(s, r1.config, r1.input, env) == Navigate([MainMenu], r1.config, rest, env);
    RestartAtMainMenu(r1.config, c1, rest, env);
  }

  /**
   * Opening the advanced menu and going back returns to the main menu as if
   * neither answer had been given, except that the advanced menu has reset
   * its three intents.
   */
  lemma BackFromAdvancedMenu(c: Config, rest: seq<Answer>, env: Env)
    ensures InteractiveSession(c, [Pick(6), Pick(0)] + rest, env)
         == InteractiveSession(WithIntents(c, ClearAdvancedIntents(c.intents)), rest, env)
  {
    var input := [Pick(6), Pick(0)] + rest;
    assert input[1..] == [Pick(0)] + rest;
    assert input[1..][1..] == rest;
    var c1 := WithTasks(c, c.tasks.(interactiveMode := true));
    var d := WithIntents(c, ClearAdvancedIntents(c.intents));
    var d1 := WithTasks(d, d.tasks.(interactiveMode := true));
    var r1 := Handle(MainMenu, c1, input, env);
    assert r1.next == Goto(AvancedMenu) && r1.input == [Pick(0)] + rest;
    var r2 := Handle(AvancedMenu, r1.config, r1.input, env);
    assert r2.next == Goto(Exit) && r2.input == rest;
    var s: seq<DisplayState> := [MainMenu, AvancedMenu];
    assert s[..1] == [MainMenu];
    assert Navigate([MainMenu], c1, input, env) == Navigate(s, r1.config, r1.input, env);
    assert Navigate(s, r1.config, r1.input, env) == Navigate([MainMenu], r2.config, rest, env);
    RestartAtMainMenu(r2.config, d1, rest, env);
  }
}
