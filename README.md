# PingCastle command-line and interactive front end, in Dafny

This project models the part of PingCastle's `Program` class that decides
what a run does before any Active Directory is touched:

- **ParseCommandLine.** It takes the argument array, or the interactive menu when there are no arguments. Every switch of its `switch` statement is modelled, including its error returns. The completeness phase follows: at least one task must be selected, and `--interactive` opens the menu late. Domain-facing tasks get a server, either the one given or the machine's domain, and a `NetworkCredential` built from `--user`. The consolidation tasks need a report directory.
- **RunInteractiveMode.** A stack of `DisplayState` screens, with one `Display*` handler per screen. Each handler resets and sets the `Perform*` intents and fills in the `Tasks` fields.
- **AskCredential.** The masked password prompt: Enter ends it and Backspace erases one character.
- **The dispatch tail of Run.** The eleven `if (Perform…) { if (!task()) return; }` blocks in their fixed order, then `CompleteTasks`.

The model has two layers:

- **Specification functions** on values:
  - `OptionTable` holds the switch table;
  - `FlagParser` holds `Step`, `Scan`, `Complete` and `Resolve`;
  - `Menu` holds one function per handler, plus `Navigate` for the stack loop;
  - `PasswordPrompt` holds `Edit`;
  - `Dispatch` holds `Planned`, `RunPlan` and `RunFrom`.
- **An imperative class** `PingCastle.Program`. Its fields are the program's state:
  - the `Perform*` flags;
  - the `Tasks` fields;
  - the static settings the switches write;
  - the remaining console answers.

  Its methods follow the source's methods: `ParseCommandLine` loops over the arguments, `RunInteractiveMode` runs the stack loop, and the `Display*` handlers read answers. Each method is proved to leave exactly the state its specification function describes.

The properties proved about the specification are:

- **Parser locality.** A step reads only its own token and the one after it.
- **Value checks.** `--level` and `--protocol` accept exactly the enum names, and `--scanner` accepts exactly the registered scanners.
- **`--user`.** The value splits at the first backslash, with a round trip back to the value.
- **Report path.** `--xmls`, `--regen-report` and `--reload-report` share one path, and the last one given wins.
- **Completeness checks.** Each error of the completeness phase is characterised in both directions.
- **Menu graph.** The menu stack is always a guarded path of the graph from the main menu.
- **Menu scripts.** Concrete scripts such as healthcheck→server reach `Run`.
- **Dispatch.** The plan is the set of tasks whose guard holds, in block order. The run is a prefix of the plan that stops at the first failure, and it completes exactly when every planned task succeeded.

External inputs are given as data:

- the console answers are a script;
- the keys typed at the password prompt are a sequence;
- library parsers, the file system, the machine's domain and the scanner registry are the fields of `Env`;
- each task's success is a `succeeds` function.

## Model

| member | source | states |
|---|---|---|
| OptionTable.SelectedBySpelling | Program.cs:260-658 | a token selects a switch only when it is one of that switch's `case` labels |
| OptionTable.LevelNamesRoundTrip | Program.cs:375-383 | Enum.Parse on the export level accepts exactly the names Enum.GetNames lists, and parsing a level's name gives that level back |
| OptionTable.ConnectionTypeNamesRoundTrip | Program.cs:491-500 | the same for the connection type used by `--protocol` |
| Strings.IndexOf | Program.cs:613 | the position IndexOf returns never lies past the end; the end stands for "not found" |
| Strings.IndexFromFirst | Program.cs:613 | the scan from a position stops at the first occurrence of the character, or at the end exactly when there is none |
| Strings.IndexOfFirst | Program.cs:611-613 | IndexOf finds the first backslash: none before it, the backslash at it, and "not found" exactly when the text has none |
| Strings.SplitUserParts | Program.cs:610-620 | `DOMAIN\name` splits into a domain without a backslash and the rest, and the two joined by a backslash give back the value; without a backslash the whole value is the user and there is no domain |
| Strings.Split | Program.cs:325 | String.Split always yields at least one piece |
| Strings.SplitPieces | Program.cs:325 | no piece of the `--explore-exception` list holds a comma |
| Strings.JoinSplit | Program.cs:325 | joining the pieces with a comma gives back the value, so no character is lost |
| PasswordPrompt.PlainTyping | Program.cs:756-760 | without Enter or Backspace, the password is exactly the characters typed |
| PasswordPrompt.EnterEndsPrompt | Program.cs:743 | the keys after the first Enter are never read |
| PasswordPrompt.BackspaceUndoesTyping | Program.cs:745-749 | typing a character then Backspace leaves the buffer as it was |
| PasswordPrompt.BackspaceOnEmpty | Program.cs:747 | Backspace on an empty buffer changes nothing |
| PasswordPrompt.EditBounds | Program.cs:737-765 | the password is no longer than the number of keys, and every character of it was typed |
| PingCastle.Program.AskCredential | Program.cs:737-765 | the read loop returns the buffer the keys leave behind |
| Menu.Read | Program.cs:801 | an answer taken from the console is one the question accepts and consumes input; none once the script is exhausted |
| Menu.AskServerLoop | Program.cs:871-891 | the loop leaves only with a non-empty server, after consuming at least one answer |
| Menu.DefaultProtocolIndex | Program.cs:959-964 | the highlighted protocol entry is the 1-based position of the current connection type's name |
| Menu.AskFileLoop | Program.cs:977-983 | the loop leaves only with the non-empty name of an existing file |
| Menu.Handle | Program.cs:999-1033 | a handler never gives input back, and one that moves to a new screen has consumed an answer (so the loop ends) |
| MenuProperties.MainMenuAtBottom | Program.cs:994-1043 | the main menu is only ever at the bottom of the stack |
| MenuProperties.AdvancedMenuSecond | Program.cs:994-1043 | the advanced menu only ever sits right above the main menu |
| MenuProperties.PushKeepsPath | Program.cs:1040-1043 | pushing a successor whose guard holds keeps the stack a guarded path |
| MenuProperties.PopKeepsPath | Program.cs:1034-1039 | popping keeps the stack a guarded path |
| MenuProperties.MainMenuEdges | Program.cs:781-828 | the main menu moves only to the server prompt, Run, the scanner menu or the advanced menu, each with the intent that screen needs set |
| MenuProperties.AdvancedMenuEdges | Program.cs:907-946 | the advanced menu moves only to the protocol menu, Run or the file prompt, each with the intent that screen needs set |
| MenuProperties.OtherHandlerEdges | Program.cs:830-905 | the other handlers leave the intents alone and move only along their arrows |
| MenuProperties.HandleKeepsPath | Program.cs:999-1043 | one turn of the loop keeps the stack a guarded path, whether it pushes, pops or runs out of answers |
| MenuProperties.NavigateKeepsPath | Program.cs:997-1044 | the whole loop keeps the stack a guarded path from the main menu |
| MenuProperties.InteractiveSelectsTask | Program.cs:990-1046 | the stack never holds Exit and starts with the main menu; when the menu returns true some intent is set |
| MenuProperties.MainMenuBack | Program.cs:783-803 | back at the main menu returns Exit with its six intents reset |
| MenuProperties.MainMenuConso | Program.cs:818-821 | conso sets both consolidation intents and goes straight to Run |
| MenuProperties.MainMenuResets | Program.cs:781-828 | after the main menu at most one of its intents is set (conso sets its two together); the others are untouched |
| MenuProperties.AskServerNext | Program.cs:866-897 | the server prompt never returns Exit; it stores a non-empty server and goes to the node prompt exactly for graph, otherwise to Run |
| MenuProperties.MainMenuIgnoresResetIntents | Program.cs:783-788 | the main menu's result does not depend on the intents it resets |
| MenuProperties.MainMenuDirectoryChoice | Program.cs:809-814 | healthcheck or graph sets that intent alone among the six and asks for the server |
| MenuProperties.ServerAnswered | Program.cs:882-896 | a non-empty answer is stored as the server, then the node prompt follows for graph, Run otherwise |
| MenuProperties.EmptyServerTakesDefault | Program.cs:882-889 | an empty answer stands for the default domain: with one it ends the loop and is stored; without one the loop asks again |
| MenuProperties.ServerDefaulted | Program.cs:868-891 | an empty answer stores the current server, or else the machine's domain, then moves on as a typed server would |
| MenuProperties.ServerWithoutDefault | Program.cs:868-891 | with no current server and no machine domain, an empty answer is dropped and the prompt is asked again |
| MenuProperties.NodesAnswered | Program.cs:899-905 | the list typed becomes the nodes to investigate, then Run |
| MenuProperties.ExitAtMainMenu | Program.cs:1034-1045 | back at the main menu with nothing below ends the menu with false and an empty stack |
| MenuProperties.HealthCheckThenServer | Program.cs:990-1046 | healthcheck then a server reaches Run with that server, the healthcheck intent and interactive mode |
| MenuProperties.GraphWaitsForNodes | Program.cs:892-905 | after graph and a server the loop waits at the node prompt and has not reached Run |
| MenuProperties.GraphThenServer | Program.cs:812-814 | graph then a server stacks the node prompt above the server prompt, with both answers recorded |
| MenuProperties.GraphThenServerThenNodes | Program.cs:990-1046 | graph, a server and a node list reach Run with all three recorded |
| MenuProperties.RestartAtMainMenu | Program.cs:783-788 | from the main menu the loop's outcome does not depend on the intents the main menu resets |
| MenuProperties.BackFromScannerMenu | Program.cs:822-824 | scanner then back returns to the main menu as if neither answer had been given |
| MenuProperties.BackFromAdvancedMenu | Program.cs:907-924 | advanced then back leaves only the three advanced intents reset |
| FlagParser.StoreText | Program.cs:278-285 | the switches that store their value as given never change an intent |
| FlagParser.Step | Program.cs:258-659 | one pass of the loop body moves on by one token, or by two when it consumed a value |
| FlagParser.StepValue | Program.cs:262-653 | a switch that takes a value either fails or moves on by exactly two tokens |
| FlagParser.Scan | Program.cs:258-659 | the loop ends past the last argument (one past it after a trailing `--license`) or stops at an argument inside the array |
| FlagParser.FinishChecked | Program.cs:677-703 | the server and credential step keeps the intents and the report path |
| FlagProperties.StepPrefix | Program.cs:258-659 | a step that does not fail for lack of a value reads nothing past its own token and the next one |
| FlagProperties.ScanDonePrefix | Program.cs:258-659 | a scan that consumed a prefix exactly continues on the extended arguments from the state it reached |
| FlagProperties.ScanStopPrefix | Program.cs:258-659 | a scan stopped by anything but a missing value stops the same way whatever follows |
| FlagProperties.StepWithoutValue | Program.cs:262-267 | a value switch as the last argument fails with that switch's "is mandatory" error |
| FlagProperties.TrailingValueSwitch | Program.cs:262-267 | appending a value switch to a complete command line makes it fail with that switch's missing-argument error, at that position |
| FlagProperties.UnknownTokenStops | Program.cs:654-657 | an unknown token (or `--help`) stops the parse where it stands, whatever follows |
| FlagProperties.LevelChecked | Program.cs:369-384 | `--level` succeeds exactly on a level name and stores that level and nothing else; otherwise it reports the value with the full list of names and changes nothing |
| FlagProperties.ProtocolChecked | Program.cs:485-501 | the same for `--protocol` and the connection type |
| FlagProperties.ScannerChecked | Program.cs:505-529 | `--scanner` succeeds exactly on a registered scanner name, selecting it and the scanner intent; otherwise it reports that name |
| FlagProperties.ValueKeepsIntents | Program.cs:262-653 | value switches leave the intents alone, except `--scanner`, which sets its own on success |
| FlagProperties.ParsedKeepsIntents | Program.cs:262-653 | the same for the switches that convert or check their value |
| FlagProperties.UserSplit | Program.cs:604-621 | `--user DOMAIN\name` sets the domain and name split at the first backslash; without one the whole value is the user and an earlier domain stays |
| FlagProperties.LicenseSkipsNext | Program.cs:385-387 | `--license` skips the next token unchecked, even a switch, and a trailing `--license` is not an error |
| FlagProperties.ReportPathStep | Program.cs:339-347 | each report-path switch stores its value as the report path, after setting its own intent if it has one |
| FlagProperties.ReportPathTarget | Program.cs:572-573 | `--reload-report` and `--slim-report` select the same switch; `--regen-report` and `--xmls` each select their own |
| FlagProperties.ReportPathLastWins | Program.cs:339-347 | of two report-path switches the last value wins, and each sets its own intent |
| FlagProperties.ReportPathScan | Program.cs:572-580 | a report-path switch with its value resumes the loop two tokens later with the path stored |
| FlagProperties.StepWidth | Program.cs:258-659 | a step that goes on advances past its token, and past the following value exactly when the switch reads one |
| FlagProperties.FlagKeepsReportPath | Program.cs:258-659 | a switch that takes no value never touches the report path |
| FlagProperties.TextKeepsReportPath | Program.cs:258-659 | a switch that stores its text, other than the report-path ones, never touches the report path |
| FlagProperties.ParsedKeepsReportPath | Program.cs:258-659 | a switch that converts or checks its value never touches the report path, whether it succeeds or fails |
| FlagProperties.ValueKeepsReportPath | Program.cs:258-659 | a value switch other than the four report-path switches never touches the report path |
| FlagProperties.StepKeepsReportPath | Program.cs:258-659 | a step at any token that is not a report-path switch leaves the report path as it was |
| FlagProperties.ReportPathNeedsValue | Program.cs:339-345 | a report-path switch as the last argument stops the parse |
| FlagProperties.ScanReportPath | Program.cs:258-659 | after a successful scan the report path is the value after the last report-path switch, or the initial path when there is none |
| FlagProperties.PreCheckIntents | Program.cs:339-341 | `--regen-report` and `--reload-report` set their intent and nothing else before checking for a value |
| FlagProperties.FinishErrors | Program.cs:677-719 | after the intent check, the only errors are a missing domain or a missing directory |
| FlagProperties.NoIntentIff | Program.cs:662-671 | the "choose at least one value" error occurs exactly when no intent is set and `--interactive` was not given |
| FlagProperties.NoDomainIff | Program.cs:677-688 | the "not connected to a domain" error occurs exactly when a domain-facing task has no server and the machine has no domain |
| FlagProperties.ConsolidationCheckScope | Program.cs:704-719 | the consolidation check changes at most the report path, and fails only on a missing directory |
| FlagProperties.ConsolidationErrorIff | Program.cs:704-719 | the consolidation check fails exactly when a consolidation intent is set, a report path is given and it is not an existing directory, and the error names that path |
| FlagProperties.FinishNotADirectoryIff | Program.cs:677-719 | the completeness phase reports a missing directory exactly when the domain was found, a consolidation intent is set and the given report path is not an existing directory |
| FlagProperties.FinishServer | Program.cs:677-689 | a successful domain-facing run has a non-empty server: the one given, else the machine's domain |
| FlagProperties.CheckedServer | Program.cs:679-681 | the server default is the machine's domain when none was given |
| FlagProperties.FinishCredential | Program.cs:690-702 | with `--user`, the credential has that user, the given or typed password, and a domain exactly when a non-empty one was given |
| FlagProperties.FinishConsolidation | Program.cs:704-719 | a successful consolidation has its report directory: an existing one given, else the working directory |
| FlagProperties.ConsolidationDirectory | Program.cs:706-718 | the consolidation check keeps an existing directory, or takes the working directory when none was given |
| FlagProperties.EmptyArgsSelectTask | Program.cs:250-254 | with no arguments the completeness check cannot fail for lack of a task, and interactive mode is recorded |
| FlagProperties.NavigateKeepsInteractive | Program.cs:992 | the menu never clears interactive mode |
| FlagProperties.DelayedInteractiveIgnoresResult | Program.cs:673-676 | with `--interactive` the menu's result is ignored: backing out of it still succeeds with no task |
| FlagProperties.DelayedInteractiveOutcome | Program.cs:673-676 | for any console script, a parse with `--interactive` finishes from the menu's configuration whatever the menu returned, failing only for a missing domain or directory |
| Dispatch.Rank | Program.cs:158-201 | every task has one of the eleven block positions |
| Dispatch.TaskAt | Program.cs:158-201 | the task of block k is ranked k |
| Dispatch.SelectedAtRank | Program.cs:158-201 | a selected task is the task of its own block |
| Dispatch.SelectFromSpec | Program.cs:158-201 | the tasks from block k on are exactly those selected whose block is not before k, in strictly increasing block order |
| Dispatch.SelectFromMembers | Program.cs:158-201 | a task is among those from block k on exactly when its guard holds and its block is not before k |
| Dispatch.BlockMembers | Program.cs:158-201 | block k starts a task exactly when that task's guard holds and k is its position |
| Dispatch.SelectFromOrdered | Program.cs:158-201 | the tasks from block k on follow block order strictly |
| Dispatch.PlannedIff | Program.cs:158-201 | a task is planned exactly when its `if` guard holds |
| Dispatch.PlannedInOrder | Program.cs:158-201 | the plan follows block order, so no task is planned twice |
| Dispatch.DemoReportsOnce | Program.cs:166-168 | demo reports come from the cartography task when it runs and from GenerateDemoReportTask otherwise, never both |
| Dispatch.ConsolidationPlanned | Program.cs:178-185 | a consolidation runs when asked for, or after an interactive analysis of every domain (server `*`) |
| Dispatch.NothingPlanned | Program.cs:158-202 | with no intent no task starts and CompleteTasks is reached |
| Dispatch.SelectFromNone | Program.cs:158-201 | with no intent no block from k on starts a task |
| Dispatch.RunPlanStops | Program.cs:158-202 | the run is a prefix of the plan whose tasks succeeded except the last; it reaches CompleteTasks exactly when the whole plan ran and every task succeeded, and otherwise ends at the task that failed |
| Dispatch.RunBlock | Program.cs:158-201 | a block is skipped when its guard fails; otherwise its task runs and the later blocks follow only if it succeeded |
| Dispatch.RunFromPlan | Program.cs:158-202 | running the blocks one by one as written is running the plan |
| Dispatch.PlanRunsBlocks | Program.cs:158-202 | the whole plan is the run from the first block |
| Dispatch.PastLastBlock | Program.cs:202 | after the last block CompleteTasks is reached with the tasks started |
| PingCastle.Program.EnableLogFile | Program.cs:723-728 | adds the file listener to the trace listeners and changes nothing else |
| PingCastle.Program.EnableLogConsole | Program.cs:730-735 | adds the console listener and changes nothing else |
| PingCastle.Program.Ask | Program.cs:801 | one console question consumes the answers as Read says and changes nothing else |
| PingCastle.Program.SetFlag | Program.cs:286-603 | a switch without a value updates the state as ApplyFlag says |
| PingCastle.Program.SetIntentFlag | Program.cs:286-361 | a task-selecting switch sets its intent |
| PingCastle.Program.SetOptionFlag | Program.cs:302-599 | a switch without a value sets its task option or setting |
| PingCastle.Program.SetValue | Program.cs:262-653 | a value switch writes the configuration and reports the error as ApplyValue says |
| PingCastle.Program.SetText | Program.cs:278-653 | a value stored as given lands in its field |
| PingCastle.Program.SetParsedValue | Program.cs:262-529 | a converted or checked value is written, or the error reported, as ApplyParsed says |
| PingCastle.Program.SetSettingValue | Program.cs:394-501 | `--max-nodes`, `--max-depth`, `--nslimit` and `--protocol` write their setting as ApplyParsed says |
| PingCastle.Program.SetNumericValue | Program.cs:327-484 | `--filter-date`, `--level` and `--port` write their field as ApplyParsed says |
| PingCastle.Program.SetTaskValue | Program.cs:262-529 | `--api-endpoint`, `--explore-exception`, `--node`, `--nodes` and `--scanner` write their field as ApplyParsed says |
| PingCastle.Program.DisplayMainMenu | Program.cs:781-828 | the handler leaves the state MainMenuStep describes |
| PingCastle.Program.DisplayScannerMenu | Program.cs:830-856 | the handler leaves the state ScannerMenuStep describes |
| PingCastle.Program.DisplayAskForScannerParameter | Program.cs:858-864 | the handler leaves the state ScannerParameterStep describes |
| PingCastle.Program.DisplayAskServer | Program.cs:866-897 | the handler leaves the state AskServerStep describes |
| PingCastle.Program.AskServer | Program.cs:871-891 | the re-asking loop changes only the server, as AskServerLoop says |
| PingCastle.Program.DisplayAskForAdditionalUsers | Program.cs:899-905 | the handler leaves the state AdditionalUsersStep describes |
| PingCastle.Program.DisplayAdvancedMenu | Program.cs:907-946 | the handler leaves the state AdvancedMenuStep describes |
| PingCastle.Program.AdvancedMenuChoice | Program.cs:927-945 | the switch on the chosen entry leaves the state AdvancedChoice describes |
| PingCastle.Program.DefaultProtocolChoice | Program.cs:959-964 | the default-choice loop finds the current protocol's position |
| PingCastle.Program.DisplayProtocolMenu | Program.cs:948-972 | the handler leaves the state ProtocolMenuStep describes |
| PingCastle.Program.DisplayAskForFile | Program.cs:974-987 | the handler leaves the state AskForFileStep describes |
| PingCastle.Program.Display | Program.cs:999-1033 | the loop body's switch runs the handler Handle names |
| PingCastle.Program.Turn | Program.cs:999-1043 | one pass of the loop: the handler, then pop on Exit or push, continuing the session Navigate describes |
| PingCastle.Program.RunInteractiveMode | Program.cs:990-1046 | returns true exactly when the session ends with Run on top, and leaves the configuration the session describes |
| PingCastle.Program.ParseCommandLine | Program.cs:244-721 | the result and the state left are those Resolve describes |
| PingCastle.Program.ParseArgument | Program.cs:260-658 | one pass of the `switch` does what Step describes |
| PingCastle.Program.ParseValue | Program.cs:262-653 | the cases that check for a following value do what StepValue describes |
| PingCastle.Program.TakeArgument | Program.cs:262-653 | the value goes into a local or the configuration as TakeValue says |
| PingCastle.Program.Completeness | Program.cs:662-719 | the checks after the loop do what Complete describes |
| PingCastle.Program.CheckDomain | Program.cs:677-703 | the server default and the credential; an error exactly when a domain-facing task still has no server |
| PingCastle.Program.SetCredential | Program.cs:690-701 | the NetworkCredential is built as MakeCredential says |
| PingCastle.Program.CheckConsolidation | Program.cs:704-719 | the consolidation check does what ConsolidationCheck describes |
| PingCastle.Program.RunTasks | Program.cs:158-202 | the blocks start exactly the run RunPlan describes for the plan |
| PingCastle.Program.RunAnalysisTasks | Program.cs:158-177 | blocks 0 to 4 continue the planned run or end it at the failing task |
| PingCastle.Program.RunConsolidationTasks | Program.cs:178-185 | blocks 5 and 6 continue the planned run or end it at the failing task |
| PingCastle.Program.RunReportTasks | Program.cs:186-201 | blocks 7 to 10 continue the planned run or end it at the failing task |
| PingCastle.Program.StartTask | Program.cs:158-161 | one block: its task runs when its guard holds, and a failure ends the run |
| PingCastle.Program.RunProgram | Program.cs:143-202 | resolution as ParseCommandLine describes, then the planned run only when resolution succeeded |

## Left out

- FlagParser.ApplyParsed: an unreadable `--nodes` file gives `UnreadableFile`; the source's File.ReadAllLines throws there (Program.cs:443), and that exception is not modelled.
- Licensing is not modelled: the license check, its expiry test, the `--debug-license` pre-scan, DomainLimitation and the customer notice (Program.cs:87-157). RunProgram starts where the license has been accepted.
- Main, DisplayHelp and the help text are not modelled. The console colours, `WriteInRed` and the Trace output are not modelled either; only the trace listeners are kept, as a list.
- ConsoleMenu's rendering is not modelled. Its input is a script of answers, and a question passes over answers it does not accept.
- An exhausted script is not part of the source: a real console always answers. Its effects:
  - the menu loop ends with `OutOfInput`, which counts as false;
  - AskCredential ends at the end of the keys.
- Library and system calls are fields of `Env`. These are Uri.TryCreate, int.TryParse, DateTime.TryParse (a date is an integer), the regular-expression split of `--node`, File.ReadAllLines, File.Exists, Directory.Exists, Directory.GetCurrentDirectory, GetCurrentDomain and the scanner registry.
- The tasks' own work is not modelled. Each task's result is the `succeeds` parameter.
- The scanner registry is given as a list already sorted by name. The menu's sort (Program.cs:842-847) is not modelled.
- Loading a scanner and its own prompts (QueryForAdditionalParameterInInteractiveMode) are reduced to a yes/no answer.
- FlagParser.ApplyParsed: an unknown `--scanner` name gives an `UnknownScanner` error. In the source, the red message is followed by a dictionary lookup that throws (Program.cs:525-527). The exception is not modelled.
- An error carries its switch and value rather than the message text.
- Enum.Parse is modelled as accepting exactly the declared names. It also accepts numbers, case variants and comma lists; these are not modelled.
- A null string and "" are one value. The source tests them only with IsNullOrEmpty or passes them on.
- `--no-enum-limit` stores int.MaxValue as a constant. No other integer is bounded, because no arithmetic is done on the values stored.
- The Tasks fields are grouped into sub-records by the task they configure (report, exploration, upload, mail, SharePoint). Their meaning is unchanged.
- PingCastle.Program.RunTasks splits Run's eleven blocks over three methods and a per-block helper. The blocks, their guards and their order are those of Program.cs:158-201.
