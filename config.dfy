/** config/config.go: the checks each section of the configuration file runs once it
    is decoded, the defaults they fill in, and the log settings they select. Decoding
    the YAML document itself, `url.Parse` and `regexp.Compile` are library code and
    appear as parameters. */
module Configuration {
  import opened Common
  import opened Text

  const DefaultPath: string := "/metrics"
  const DefaultPort: int := 8080
  const DefaultMaxRetries: int := 3

  const MissingInterval: Error := Error("missing or zero key 'exporter.interval_duration'")
  const MissingErrorInterval: Error := Error("missing or zero key 'exporter.error_interval_duration'")
  const MissingUrl: Error := Error("missing mandatory key url")
  const UnpairedCert: Error := Error("one of {client_cert,client_key} keys are missing")
  const UnpairedUser: Error := Error("one of {username,password} keys are missing")
  const NotOneAuth: Error := Error("one and only one of {username,password} or {client_cert,client_key} should be given")
  const MissingNsxt: Error := Error("missing mandatory key nsxt.url, nsxt.username and nsxt.password")
  const MissingExporter: Error := Error("missing mandatory key exporter.interval_duration and exporter.error_interval_duration")

  /** The error for a URL that `url.Parse` refuses. */
  function InvalidUrl(url: string): Error {
    Error("invalid url '" + url + "' in key url")
  }

  // ---- the log section ----

  /** The logrus levels the log section can select. */
  datatype Level = PanicLevel | FatalLevel | ErrorLevel | WarnLevel | InfoLevel | DebugLevel

  /** The output format: JSON, or text with colours possibly turned off. */
  datatype Formatter = JsonFormatter | TextFormatter(disableColors: bool)

  /** `logConfig` as decoded. */
  datatype LogConfig = LogConfig(level: string, inJson: bool, noColor: bool)

  /** What the log section sets in the logging library. */
  datatype LogSettings = LogSettings(formatter: Formatter, level: Level)

  /** The name each level is selected by; the info level is also what any other name gives. */
  function LevelName(l: Level): string {
    match l
    case PanicLevel => "PANIC"
    case FatalLevel => "FATAL"
    case ErrorLevel => "ERROR"
    case WarnLevel => "WARN"
    case InfoLevel => "INFO"
    case DebugLevel => "DEBUG"
  }

  /** The level a configured name selects: the upper-cased name is compared with the
      names of the five other levels, and anything else selects the info level. */
  function LevelOf(name: string): (l: Level)
    ensures l != InfoLevel ==> ToUpper(name) == LevelName(l)
    ensures l == InfoLevel <==> ToUpper(name) !in {"ERROR", "WARN", "DEBUG", "PANIC", "FATAL"}
  {
    match ToUpper(name)
    case "ERROR" => ErrorLevel
    case "WARN" => WarnLevel
    case "DEBUG" => DebugLevel
    case "PANIC" => PanicLevel
    case "FATAL" => FatalLevel
    case _ => InfoLevel
  }

  /** Matching ignores case: a name and its upper case select the same level. */
  lemma LevelOfIgnoresCase(name: string)
    ensures LevelOf(ToUpper(name)) == LevelOf(name)
  {
    ToUpperIdempotent(name);
  }

  /** A name in capitals is its own upper case. */
  lemma UpperOfCapitals(n: string)
    requires forall i :: 0 <= i < |n| ==> 'A' <= n[i] <= 'Z'
    ensures ToUpper(n) == n
  {
  }

  /** Every level is selected by its own name. */
  lemma LevelNameSelects(l: Level)
    ensures LevelOf(LevelName(l)) == l
  {
    var n := LevelName(l);
    UpperOfCapitals(n);
    match l
    case InfoLevel => assert n[0] == 'I';
    case _ =>
  }

  /** `logConfig.UnmarshalYAML`: JSON output when asked for, otherwise text output whose
      colours follow `no_color`; the level is the one the configured name selects. */
  function LogSettingsOf(c: LogConfig): (r: LogSettings)
    ensures r.formatter.JsonFormatter? <==> c.inJson
    ensures r.formatter.TextFormatter? ==> r.formatter.disableColors == c.noColor
    ensures r.level == LevelOf(c.level)
  {
    LogSettings(if c.inJson then JsonFormatter else TextFormatter(c.noColor), LevelOf(c.level))
  }

  // ---- regular expressions ----

  /** The pattern a configured regular expression is compiled from: the text in a
      non-capturing group anchored at both ends, so that it must match a whole name. */
  function Anchored(s: string): (r: string)
    ensures |r| == |s| + 6
    ensures r[..4] == "^(?:" && r[|r| - 2..] == ")$"
    ensures r[4..|r| - 2] == s
  {
    "^(?:" + s + ")$"
  }

  /** A compiled regular expression, known by its pattern. */
  datatype Regexp = Regexp(pattern: string)

  /** `Regexp.UnmarshalYAML`: the anchored pattern is compiled; `compileError` stands for
      the error `regexp.Compile` gives for a pattern, if any. */
  function RegexpOf(compileError: string -> Option<Error>, s: string): (r: Result<Regexp>)
    ensures r.Ok? <==> compileError(Anchored(s)).None?
    ensures r.Ok? ==> r.value.pattern == Anchored(s)
    ensures r.Err? ==> r.error == compileError(Anchored(s)).value
  {
    match compileError(Anchored(s))
    case Some(e) => Err(e)
    case None => Ok(Regexp(Anchored(s)))
  }

  // ---- the exporter section ----

  /** `exporterConfig`: durations are in nanoseconds, as `time.Duration` counts them. */
  class ExporterConfig {
    var async: bool
    var intervalDuration: int
    var errorIntervalDuration: int
    var port: int
    var path: string
    var namespace: string

    /** The section as decoded. */
    constructor (async: bool, intervalDuration: int, errorIntervalDuration: int, port: int, path: string, namespace: string)
      ensures this.async == async && this.intervalDuration == intervalDuration
      ensures this.errorIntervalDuration == errorIntervalDuration
      ensures this.port == port && this.path == path && this.namespace == namespace
    {
      this.async := async;
      this.intervalDuration := intervalDuration;
      this.errorIntervalDuration := errorIntervalDuration;
      this.port := port;
      this.path := path;
      this.namespace := namespace;
    }

    /** A section the exporter can run with: a path to serve, a positive port and two
        non-zero intervals (a negative interval is not refused). */
    ghost predicate Checked()
      reads this
    {
      path != "" && port > 0 && intervalDuration != 0 && errorIntervalDuration != 0
    }

    /** `exporterConfig.UnmarshalYAML`: an empty path becomes "/metrics" and a port that
        is not positive becomes 8080, whatever follows; then a zero interval, and after
        it a zero error interval, is refused. The section passes exactly when it ends
        up checked, and a checked section passes unchanged. */
    method Check() returns (err: Option<Error>)
      modifies this
      ensures path == (if old(path) == "" then DefaultPath else old(path))
      ensures port == (if old(port) <= 0 then DefaultPort else old(port))
      ensures async == old(async) && intervalDuration == old(intervalDuration)
      ensures errorIntervalDuration == old(errorIntervalDuration) && namespace == old(namespace)
      ensures intervalDuration == 0 ==> err == Some(MissingInterval)
      ensures intervalDuration != 0 && errorIntervalDuration == 0 ==> err == Some(MissingErrorInterval)
      ensures err.None? <==> Checked()
      ensures old(Checked()) ==> err.None? && path == old(path) && port == old(port)
    {
      if path == "" {
        path := DefaultPath;
      }
      if port <= 0 {
        port := DefaultPort;
      }
      if intervalDuration == 0 {
        return Some(MissingInterval);
      }
      if errorIntervalDuration == 0 {
        return Some(MissingErrorInterval);
      }
      return None;
    }
  }

  // ---- the NSX section ----

  /** Both or neither of two keys are given. */
  predicate Paired(a: string, b: string) {
    (|a| > 0) == (|b| > 0)
  }

  /** The checks of the NSX section, in order; `parses` stands for `url.Parse`
      succeeding on a URL. */
  function NsxError(url: string, parses: bool, username: string, password: string, cert: string, key: string): (r: Option<Error>)
    ensures r.None? <==> url != "" && parses && Paired(cert, key) && Paired(username, password)
                         && (|username| > 0) != (|cert| > 0)
    ensures url == "" ==> r == Some(MissingUrl)
    ensures url != "" && !parses ==> r == Some(InvalidUrl(url))
    ensures url != "" && parses && !Paired(cert, key) ==> r == Some(UnpairedCert)
    ensures url != "" && parses && Paired(cert, key) && !Paired(username, password) ==> r == Some(UnpairedUser)
    ensures url != "" && parses && Paired(cert, key) && Paired(username, password) && (|username| > 0) == (|cert| > 0)
            ==> r == Some(NotOneAuth)
  {
    if url == "" then Some(MissingUrl)
    else if !parses then Some(InvalidUrl(url))
    else if (|cert| > 0 && |key| == 0) || (|cert| == 0 && |key| > 0) then Some(UnpairedCert)
    else if (|username| > 0 && |password| == 0) || (|username| == 0 && |password| > 0) then Some(UnpairedUser)
    else if (|username| > 0 && |cert| > 0) || (|username| == 0 && |cert| == 0) then Some(NotOneAuth)
    else None
  }

  /** `NSXConfig`. */
  class NsxConfig {
    var url: string
    var username: string
    var password: string
    var clientCertPath: string
    var clientKeyPath: string
    var skipSslVerify: bool
    var caCertPath: string
    var maxRetries: int
    var t0Filters: seq<string>
    var t1Filters: seq<string>
    var lbFilters: seq<string>
    var vsFilters: seq<string>

    /** The section as decoded, without filters. */
    constructor (url: string, username: string, password: string, clientCertPath: string, clientKeyPath: string, maxRetries: int)
      ensures this.url == url && this.username == username && this.password == password
      ensures this.clientCertPath == clientCertPath && this.clientKeyPath == clientKeyPath
      ensures this.maxRetries == maxRetries && !skipSslVerify && caCertPath == ""
      ensures t0Filters == [] && t1Filters == [] && lbFilters == [] && vsFilters == []
    {
      this.url := url;
      this.username := username;
      this.password := password;
      this.clientCertPath := clientCertPath;
      this.clientKeyPath := clientKeyPath;
      this.skipSslVerify := false;
      this.caCertPath := "";
      this.maxRetries := maxRetries;
      this.t0Filters := [];
      this.t1Filters := [];
      this.lbFilters := [];
      this.vsFilters := [];
    }

    /** `NeedPasswordLogin`: the session logs in with a password unless both a client
        certificate and its key are configured. */
    predicate NeedPasswordLogin()
      reads this
    {
      |clientCertPath| == 0 || |clientKeyPath| == 0
    }

    /** `NSXConfig.UnmarshalYAML`: the URL must be given and parse, certificate and key
        come as a pair, user name and password come as a pair, and exactly one of the two
        ways to log in is given; a section that passes gets 3 retries when it asks for 0.
        After a pass, a password login is needed exactly when a user name is given, and
        otherwise no user name or password is left to use. */
    method Check(parses: string -> bool) returns (err: Option<Error>)
      modifies this
      ensures err == NsxError(url, parses(url), username, password, clientCertPath, clientKeyPath)
      ensures maxRetries == (if err.None? && old(maxRetries) == 0 then DefaultMaxRetries else old(maxRetries))
      ensures url == old(url) && username == old(username) && password == old(password)
      ensures clientCertPath == old(clientCertPath) && clientKeyPath == old(clientKeyPath)
      ensures skipSslVerify == old(skipSslVerify) && caCertPath == old(caCertPath)
      ensures t0Filters == old(t0Filters) && t1Filters == old(t1Filters)
      ensures lbFilters == old(lbFilters) && vsFilters == old(vsFilters)
      ensures err.None? ==> (NeedPasswordLogin() <==> username != "")
      ensures err.None? && !NeedPasswordLogin() ==> username == "" && password == ""
    {
      if url == "" {
        return Some(MissingUrl);
      }
      if !parses(url) {
        return Some(InvalidUrl(url));
      }
      if (|clientCertPath| > 0 && |clientKeyPath| == 0) || (|clientCertPath| == 0 && |clientKeyPath| > 0) {
        return Some(UnpairedCert);
      }
      if (|username| > 0 && |password| == 0) || (|username| == 0 && |password| > 0) {
        return Some(UnpairedUser);
      }
      if (|username| > 0 && |clientCertPath| > 0) || (|username| == 0 && |clientCertPath| == 0) {
        return Some(NotOneAuth);
      }
      if maxRetries == 0 {
        maxRetries := DefaultMaxRetries;
      }
      return None;
    }
  }

  // ---- the whole file ----

  /** `Config`: each section may be missing from the file. */
  datatype Config = Config(log: Option<LogConfig>, exporter: ExporterConfig?, nsxt: NsxConfig?)

  /** `Config.UnmarshalYAML`: the NSX section, then the exporter section, must be present;
      the log section may be missing. */
  function ConfigError(c: Config): (r: Option<Error>)
    ensures r.None? <==> c.nsxt != null && c.exporter != null
    ensures c.nsxt == null ==> r == Some(MissingNsxt)
    ensures c.nsxt != null && c.exporter == null ==> r == Some(MissingExporter)
  {
    if c.nsxt == null then Some(MissingNsxt)
    else if c.exporter == null then Some(MissingExporter)
    else None
  }
}
