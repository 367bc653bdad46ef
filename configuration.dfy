/**
 * The run configuration both resolution paths fill in: the Perform* intent
 * flags of Program, the fields of its Tasks object, and the static settings
 * of other components that some switches write. Also the environment the
 * resolver consults (library parsers, file system, machine domain, scanner
 * registry, task results) and the scripted console input.
 */
module Configuration {
  import opened Wrappers
  import opened OptionTable

  /** int.MaxValue, which --no-enum-limit stores. */
  const IntMaxValue: int := 0x7FFF_FFFF

  /** The eleven Perform* fields of Program. */
  datatype Intents = Intents(
    healthCheckReport: bool,
    healthCheckConsolidation: bool,
    graphConsolidation: bool,
    generateKey: bool,
    carto: bool,
    advancedLive: bool,
    uploadAllReport: bool,
    regenerateReport: bool,
    reloadReport: bool,
    generateDemoReports: bool,
    scanner: bool)

  const NoIntents := Intents(false, false, false, false, false, false, false, false, false, false, false)

  /** Some task is selected: the first test of the completeness phase. */
  predicate AnyIntent(i: Intents) {
    i.healthCheckReport || i.healthCheckConsolidation || i.graphConsolidation
    || i.regenerateReport || i.reloadReport || i.scanner || i.generateKey
    || i.generateDemoReports || i.carto || i.advancedLive || i.uploadAllReport
  }

  /** The intents whose tasks talk to a domain controller and so need a server. */
  predicate DirectoryFacing(i: Intents) {
    i.healthCheckReport || i.scanner || i.advancedLive
  }

  /** NetworkCredential: a domain only when one was given and is not empty. */
  datatype Credential = Credential(user: string, password: string, domain: Option<string>)

  /**
   * The fields of the Tasks object that the resolver writes. A null string
   * and "" are the same value here: the resolver only ever tests them with
   * IsNullOrEmpty or hands them on. A scanner is identified by its name.
   * The fields that only one switch writes are grouped below by the task
   * they configure; the others are the target and the credentials that
   * several resolution steps read.
   */
  datatype TaskConfig = TaskConfig(
    server: string,
    port: int,
    fileOrDirectory: string,
    scanner: string,
    nodesToInvestigate: seq<string>,
    credential: Option<Credential>,
    interactiveMode: bool,
    report: ReportOptions,
    exploration: Exploration,
    upload: Upload,
    mail: Mail,
    sharepoint: Sharepoint)

  /** How the healthcheck report is produced and filtered. */
  datatype ReportOptions = ReportOptions(encryptReport: bool, filterReportDate: int, exportLevel: ExportLevel)

  /** Which domains the healthcheck follows from the one it starts at. */
  datatype Exploration = Exploration(
    centerDomain: string,
    exploreTerminalDomains: bool,
    exploreForestTrust: bool,
    domainsToNotExplore: seq<string>,
    analyzeReachableDomains: bool)

  /** Where --upload-all-reports sends the reports. */
  datatype Upload = Upload(apiEndpoint: string, apiKey: string)

  /** The mail notification of the reports and its SMTP account. */
  datatype Mail = Mail(
    mailNotification: string,
    sendXmlTo: string,
    sendHtmlTo: string,
    sendAllTo: string,
    smtpLogin: string,
    smtpPassword: string,
    smtpTls: bool)

  /** The SharePoint upload of the reports. */
  datatype Sharepoint = Sharepoint(sharepointDirectory: string, sharepointUser: string, sharepointPassword: string)

  /** The trace listeners: the default one, then those --log, --log-console and the log menu entry add. */
  datatype Listener = DefaultListener | FileListener | ConsoleListener

  /**
   * Static settings of other components: ReportGenerator.MaxNodes/MaxDepth,
   * ADWebService.ConnectionType, ScannerBase.ScanningMode,
   * NullSessionScanner.NullSessionEnumerationLimit,
   * HealthcheckAnalyzer.SkipNullSession,
   * ReportHealthCheckSingle.MaxNumberUsersInHtmlReport,
   * ForeignUsersScanner.EnumInboundSid and Trace.Listeners.
   */
  datatype Settings = Settings(
    maxNodes: int,
    maxDepth: int,
    connectionType: ConnectionType,
    scanningMode: int,
    nullSessionLimit: int,
    skipNullSession: bool,
    maxUsersInHtmlReport: int,
    enumInboundSid: string,
    listeners: seq<Listener>)

  /** Everything a resolution path writes. */
  datatype Config = Config(intents: Intents, tasks: TaskConfig, settings: Settings)

  /** A key read by Console.ReadKey during the masked password prompt. */
  datatype Key = Enter | Backspace | Typed(c: char)

  /**
   * One scripted answer to a console question: a menu index (0 is back),
   * acceptance of the highlighted default, a line of text, a list of lines
   * ended by an empty one, or the outcome of a scanner's own prompts.
   */
  datatype Answer = Pick(index: nat) | Default | Line(text: string) | Lines(items: seq<string>) | Confirm(accepted: bool)

  /**
   * What the resolver learns from outside: library parsers (Uri.TryCreate,
   * int.TryParse, DateTime.TryParse as ticks, the regex split of --node),
   * the file system, the machine's domain, the scanner registry with its
   * names in the order the menu lists them, the keys typed at the password
   * prompt.
   */
  datatype Env = Env(
    isAbsoluteUri: string -> bool,
    parseInt: string -> Option<int>,
    parseDate: string -> Option<int>,
    splitNodes: string -> seq<string>,
    readLines: string -> Option<seq<string>>,
    directoryExists: string -> bool,
    fileExists: string -> bool,
    currentDirectory: string,
    currentDomain: string,
    scanners: seq<string>,
    passwordKeys: seq<Key>)
}
