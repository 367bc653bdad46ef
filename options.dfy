/** An optional value, used for the source's null references and TryParse results. */
module Wrappers {

  datatype Option<+T> = None | Some(value: T) {

    function GetOr(default: T): T {
      match this
      case Some(v) => v
      case None => default
    }
  }
}

/**
 * The option table of the command line: every switch the parser's `switch`
 * recognises, the tokens that spell it, whether it consumes a following
 * value, and the closed enumerations two of them are checked against.
 */
module OptionTable {
  import opened Wrappers

  /** One constructor per case group of the switch in ParseCommandLine. */
  datatype Switch =
    | ApiEndpoint | ApiKey | Carto | CenterOn | DebugLicense | DemoReports | Encrypt
    | ForeignDomain | ExploreTrust | ExploreForestTrust | ExploreException | FilterDate
    | RegenReport | GenerateKey | Graph | HealthCheck | HcConso | CgConso | Help | Interactive
    | Level | License | Log | LogConsole | MaxNodes | MaxDepth | NoEnumLimit | Node | Nodes
    | NotifyMail | NsLimit | Password | Port | Protocol | Reachable | Scanner | ScModeSingle
    | SendXmlTo | SendHtmlTo | SendAllTo | Server | SkipNullSession | ReloadReport
    | SmtpLogin | SmtpPass | SmtpTls | UploadAllReports | User | WebDirectory | WebUser
    | WebPassword | Xmls

  /** The token-to-switch mapping; tokens are compared case-sensitively. */
  function Lookup(token: string): Option<Switch> {
    match token
    case "--api-endpoint" => Some(ApiEndpoint)
    case "--api-key" => Some(ApiKey)
    case "--carto" => Some(Carto)
    case "--center-on" => Some(CenterOn)
    case "--debug-license" => Some(DebugLicense)
    case "--demo-reports" => Some(DemoReports)
    case "--encrypt" => Some(Encrypt)
    case "--foreigndomain" => Some(ForeignDomain)
    case "--explore-trust" => Some(ExploreTrust)
    case "--explore-forest-trust" => Some(ExploreForestTrust)
    case "--explore-exception" => Some(ExploreException)
    case "--filter-date" => Some(FilterDate)
    case "--regen-report" => Some(RegenReport)
    case "--generate-key" => Some(GenerateKey)
    case "--graph" => Some(Graph)
    case "--healthcheck" => Some(HealthCheck)
    case "--hc-conso" => Some(HcConso)
    case "--cg-conso" => Some(CgConso)
    case "--help" => Some(Help)
    case "--interactive" => Some(Interactive)
    case "--level" => Some(Level)
    case "--license" => Some(License)
    case "--log" => Some(Log)
    case "--log-console" => Some(LogConsole)
    case "--max-nodes" => Some(MaxNodes)
    case "--max-depth" => Some(MaxDepth)
    case "--no-enum-limit" => Some(NoEnumLimit)
    case "--node" => Some(Node)
    case "--nodes" => Some(Nodes)
    case "--notifyMail" => Some(NotifyMail)
    case "--nslimit" => Some(NsLimit)
    case "--password" => Some(Password)
    case "--port" => Some(Port)
    case "--protocol" => Some(Protocol)
    case "--reachable" => Some(Reachable)
    case "--scanner" => Some(Scanner)
    case "--scmode-single" => Some(ScModeSingle)
    case "--sendxmlTo" | "--sendXmlTo" => Some(SendXmlTo)
    case "--sendhtmlto" | "--sendHtmlTo" => Some(SendHtmlTo)
    case "--sendallto" | "--sendAllTo" => Some(SendAllTo)
    case "--server" => Some(Server)
    case "--skip-null-session" => Some(SkipNullSession)
    case "--reload-report" | "--slim-report" => Some(ReloadReport)
    case "--smtplogin" => Some(SmtpLogin)
    case "--smtppass" => Some(SmtpPass)
    case "--smtptls" => Some(SmtpTls)
    case "--upload-all-reports" => Some(UploadAllReports)
    case "--user" => Some(User)
    case "--webdirectory" => Some(WebDirectory)
    case "--webuser" => Some(WebUser)
    case "--webpassword" => Some(WebPassword)
    case "--xmls" => Some(Xmls)
    case _ => None
  }

  /** Every token that selects `sw`; the first is the one help text documents. */
  function Spellings(sw: Switch): seq<string> {
    match sw
    case ApiEndpoint => ["--api-endpoint"]
    case ApiKey => ["--api-key"]
    case Carto => ["--carto"]
    case CenterOn => ["--center-on"]
    case DebugLicense => ["--debug-license"]
    case DemoReports => ["--demo-reports"]
    case Encrypt => ["--encrypt"]
    case ForeignDomain => ["--foreigndomain"]
    case ExploreTrust => ["--explore-trust"]
    case ExploreForestTrust => ["--explore-forest-trust"]
    case ExploreException => ["--explore-exception"]
    case FilterDate => ["--filter-date"]
    case RegenReport => ["--regen-report"]
    case GenerateKey => ["--generate-key"]
    case Graph => ["--graph"]
    case HealthCheck => ["--healthcheck"]
    case HcConso => ["--hc-conso"]
    case CgConso => ["--cg-conso"]
    case Help => ["--help"]
    case Interactive => ["--interactive"]
    case Level => ["--level"]
    case License => ["--license"]
    case Log => ["--log"]
    case LogConsole => ["--log-console"]
    case MaxNodes => ["--max-nodes"]
    case MaxDepth => ["--max-depth"]
    case NoEnumLimit => ["--no-enum-limit"]
    case Node => ["--node"]
    case Nodes => ["--nodes"]
    case NotifyMail => ["--notifyMail"]
    case NsLimit => ["--nslimit"]
    case Password => ["--password"]
    case Port => ["--port"]
    case Protocol => ["--protocol"]
    case Reachable => ["--reachable"]
    case Scanner => ["--scanner"]
    case ScModeSingle => ["--scmode-single"]
    case SendXmlTo => ["--sendXmlTo", "--sendxmlTo"]
    case SendHtmlTo => ["--sendHtmlTo", "--sendhtmlto"]
    case SendAllTo => ["--sendAllTo", "--sendallto"]
    case Server => ["--server"]
    case SkipNullSession => ["--skip-null-session"]
    case ReloadReport => ["--reload-report", "--slim-report"]
    case SmtpLogin => ["--smtplogin"]
    case SmtpPass => ["--smtppass"]
    case SmtpTls => ["--smtptls"]
    case UploadAllReports => ["--upload-all-reports"]
    case User => ["--user"]
    case WebDirectory => ["--webdirectory"]
    case WebUser => ["--webuser"]
    case WebPassword => ["--webpassword"]
    case Xmls => ["--xmls"]
  }

  /**
   * The switches that check for a following token and fail with
   * "argument for ... is mandatory" when there is none. `--license` also
   * consumes a token but without that check, so it is not among them.
   */
  predicate TakesValue(sw: Switch) {
    sw in {ApiEndpoint, ApiKey, CenterOn, ForeignDomain, ExploreException, FilterDate,
           RegenReport, Level, MaxNodes, MaxDepth, Node, Nodes, NotifyMail, NsLimit,
           Password, Port, Protocol, Scanner, SendXmlTo, SendHtmlTo, SendAllTo, Server,
           ReloadReport, SmtpLogin, SmtpPass, User, WebDirectory, WebUser, WebPassword, Xmls}
  }

  /** The option name the "is mandatory" message uses; both spellings of reload share "--slim-report". */
  function MandatoryName(sw: Switch): string {
    match sw
    case ReloadReport => "--slim-report"
    case _ => Spellings(sw)[0]
  }

  /** A token selects a switch only when it is one of that switch's spellings. */
  lemma SelectedBySpelling(token: string)
    requires Lookup(token).Some?
    ensures token in Spellings(Lookup(token).value)
  {
  }

  /** PingCastleReportDataExportLevel, the amount of data written to the xml report. */
  datatype ExportLevel = Full | Normal | Light

  /** ADConnectionType, the protocol used to query the directory. */
  datatype ConnectionType = ADWSThenLDAP | ADWSOnly | LDAPOnly | LDAPThenADWS

  function LevelName(level: ExportLevel): string {
    match level
    case Full => "Full"
    case Normal => "Normal"
    case Light => "Light"
  }

  /** Enum.GetNames for the export level, in declaration order. */
  function LevelNames(): seq<string> {
    ["Full", "Normal", "Light"]
  }

  /** Enum.Parse on the export level: only a declared name is accepted. */
  function ParseLevel(s: string): Option<ExportLevel> {
    match s
    case "Full" => Some(Full)
    case "Normal" => Some(Normal)
    case "Light" => Some(Light)
    case _ => None
  }

  function ConnectionTypeName(t: ConnectionType): string {
    match t
    case ADWSThenLDAP => "ADWSThenLDAP"
    case ADWSOnly => "ADWSOnly"
    case LDAPOnly => "LDAPOnly"
    case LDAPThenADWS => "LDAPThenADWS"
  }

  /** Enum.GetNames for the connection type, in declaration order. */
  function ConnectionTypeNames(): seq<string> {
    ["ADWSThenLDAP", "ADWSOnly", "LDAPOnly", "LDAPThenADWS"]
  }

  /** Enum.Parse on the connection type: only a declared name is accepted. */
  function ParseConnectionType(s: string): Option<ConnectionType> {
    match s
    case "ADWSThenLDAP" => Some(ADWSThenLDAP)
    case "ADWSOnly" => Some(ADWSOnly)
    case "LDAPOnly" => Some(LDAPOnly)
    case "LDAPThenADWS" => Some(LDAPThenADWS)
    case _ => None
  }

  /** The level parser and the level names are inverse, and the names listed on failure are exactly the accepted ones. */
  lemma LevelNamesRoundTrip(s: string, level: ExportLevel)
    ensures ParseLevel(s) == Some(level) <==> s == LevelName(level)
    ensures ParseLevel(s).Some? <==> s in LevelNames()
    ensures LevelName(level) in LevelNames()
  {
  }

  /** The protocol parser and the protocol names are inverse, and the names listed on failure are exactly the accepted ones. */
  lemma ConnectionTypeNamesRoundTrip(s: string, t: ConnectionType)
    ensures ParseConnectionType(s) == Some(t) <==> s == ConnectionTypeName(t)
    ensures ParseConnectionType(s).Some? <==> s in ConnectionTypeNames()
    ensures ConnectionTypeName(t) in ConnectionTypeNames()
  {
  }
}
