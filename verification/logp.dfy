/**
 * The logging-policy resolution of logp: how the configuration object and the
 * two process flags (the "force stderr" flag and the debug-selector string)
 * are merged into one effective policy, and which sink calls follow from it.
 *
 * Process globals become explicit inputs and outputs: the flags are a
 * `Flags` value returned updated, the logger state touched by the bootstrap
 * phase is a `Logger` value, and the calls into the sink layer (whose own
 * behaviour is outside this model) are recorded in order as `SinkCall`s.
 */
module Logp {
  import opened Wrappers
  import opened GoStrings

  /** The severities a configuration can name, most severe first. */
  datatype Priority = Crit | Err | Warning | Info | Debug

  /** The lower-case configuration name of each severity. */
  function Name(p: Priority): string {
    match p
    case Crit => "critical"
    case Err => "error"
    case Warning => "warning"
    case Info => "info"
    case Debug => "debug"
  }

  /** The rotation settings of a file sink besides its path and name; opaque here. */
  datatype Rotation = Rotation(settings: map<string, string>)

  /** The file sink block of the configuration. */
  datatype FileRotator = FileRotator(path: string, name: string, rotation: Rotation)

  /** A file sink block with only path and name set (Go's `&FileRotator{Path: …, Name: …}`). */
  function NewFileRotator(path: string, name: string): FileRotator {
    FileRotator(path, name, Rotation(map[]))
  }

  /** The `Logging` configuration; `None` stands for a nil pointer. */
  datatype Logging = Logging(
    selectors: seq<string>,
    files: Option<FileRotator>,
    toSyslog: Option<bool>,
    toFiles: Option<bool>,
    json: bool,
    level: string)

  /** The two process-wide flag pointers, `ToStderr` and `DebugSelectorsStr`. */
  datatype Flags = Flags(toStderr: Option<bool>, debugSelectors: Option<string>)

  /** The selector string of the flags, a nil pointer read as "". */
  function FlagSelectors(flags: Flags): string {
    flags.debugSelectors.GetOr("")
  }

  /** The force-stderr flag, a nil pointer read as false. */
  function ForceStderr(flags: Flags): bool {
    flags.toStderr.GetOr(false)
  }

  datatype LogError =
    | UnknownLevel(level: string)  // "unknown log level: <level>"
    | FileSinkError(reason: string) // the error returned by the file sink

  /** The level table, keyed by lower-case name. */
  const Levels: map<string, Priority> :=
    map["critical" := Crit, "error" := Err, "warning" := Warning, "info" := Info, "debug" := Debug]

  lemma LevelsAreNames(key: string)
    ensures key in Levels <==> exists p :: Name(p) == key
    ensures key in Levels ==> Name(Levels[key]) == key
  {
  }

  /**
   * `getLogLevel`: no configuration or an empty level means INFO; otherwise
   * the level name, in any letter case, must be one of the five names.
   */
  function GetLogLevel(config: Option<Logging>): (r: Result<Priority, LogError>)
    ensures config.None? || config.value.level == "" ==> r == Success(Info)
    ensures r.Success? && config.Some? && config.value.level != "" ==>
      ToLower(config.value.level) == Name(r.value)
    ensures r.Failure? <==>
      config.Some? && config.value.level != "" && forall p :: Name(p) != ToLower(config.value.level)
    ensures r.Failure? ==> r.error == UnknownLevel(config.value.level)
  {
    if config.None? || config.value.level == "" then Success(Info)
    else
      var key := ToLower(config.value.level);
      LevelsAreNames(key);
      if key in Levels then Success(Levels[key]) else Failure(UnknownLevel(config.value.level))
  }

  /** The selector that enables every debug category. */
  const Wildcard: string := "*"

  /** The effective policy decided by `Init` before any sink is touched. */
  datatype Decision = Decision(
    level: Priority,
    selectors: seq<string>,
    toSyslog: bool,
    toFiles: bool,
    toStderr: bool)

  /**
   * The precedence chain of `Init`: the configured level is checked first;
   * Rule A turns DEBUG without selectors into the wildcard; Rule B lets a
   * non-empty selector flag replace the selectors and force DEBUG; syslog
   * defaults off and files on; Rule C lets the stderr flag switch both off.
   */
  function Merge(config: Logging, flags: Flags): (r: Result<Decision, LogError>)
    // an invalid level fails before any other rule, whatever the flags say
    ensures r.Failure? <==> GetLogLevel(Some(config)).Failure?
    ensures r.Failure? ==> r.error == UnknownLevel(config.level)
    // without a selector flag the configured level stands
    ensures r.Success? && FlagSelectors(flags) == "" ==> GetLogLevel(Some(config)) == Success(r.value.level)
    // Rule A
    ensures r.Success? && FlagSelectors(flags) == "" ==>
      if r.value.level == Debug && |config.selectors| == 0
      then r.value.selectors == [Wildcard]
      else r.value.selectors == config.selectors
    // Rule B
    ensures r.Success? && FlagSelectors(flags) != "" ==>
      r.value.level == Debug && r.value.selectors == Split(FlagSelectors(flags))
    // sink defaults and Rule C
    ensures r.Success? ==> r.value.toStderr == ForceStderr(flags)
    ensures r.Success? && r.value.toStderr ==> !r.value.toSyslog && !r.value.toFiles
    ensures r.Success? && !r.value.toStderr ==>
      r.value.toSyslog == (config.toSyslog == Some(true)) &&
      r.value.toFiles == (config.toFiles != Some(false))
  {
    match GetLogLevel(Some(config))
    case Failure(e) => Failure(e)
    case Success(configured) =>
      var selectors :=
        if configured == Debug && |config.selectors| == 0 then [Wildcard] else config.selectors;
      var flagSelectors := FlagSelectors(flags);
      var selectors := if |flagSelectors| > 0 then Split(flagSelectors) else selectors;
      var level := if |flagSelectors| > 0 then Debug else configured;
      var toSyslog := config.toSyslog.GetOr(false);
      var toFiles := config.toFiles.GetOr(true);
      var toStderr := ForceStderr(flags);
      var toSyslog := if toStderr then false else toSyslog;
      var toFiles := if toStderr then false else toFiles;
      Success(Decision(level, selectors, toSyslog, toFiles, toStderr))
  }

  /**
   * The file sink block `Init` hands to the file sink: a missing block gets
   * the default path and the process name, an existing one has only its
   * empty path and name filled in.
   */
  function FillFiles(files: Option<FileRotator>, defaultPath: string, name: string): (f: FileRotator)
    ensures files.None? ==> f == NewFileRotator(defaultPath, name)
    ensures files.Some? ==> f.rotation == files.value.rotation
    ensures files.Some? ==> f.path == (if files.value.path == "" then defaultPath else files.value.path)
    ensures files.Some? ==> f.name == (if files.value.name == "" then name else files.value.name)
  {
    match files
    case None => NewFileRotator(defaultPath, name)
    case Some(f) =>
      var f := if f.path == "" then f.(path := defaultPath) else f;
      if f.name == "" then f.(name := name) else f
  }

  /** A call from the policy layer into the sink layer, in the order issued. */
  datatype SinkCall =
    | ResetLogger(json: bool)           // `_log = logger{JSON: …}`
    | LogInit(level: Priority, toSyslog: bool, toStderr: bool, selectors: seq<string>)
    | SetToFile(files: FileRotator)     // `SetToFile(true, files)`
    | DisableStderr                     // `SetToStderr(false, "")` and its "log" debug trace

  /**
   * `SetStderr`: switch the console sink off unless the stderr flag is set.
   * The flag pointer must be set (a nil pointer is dereferenced).
   */
  function SetStderr(flags: Flags): (calls: seq<SinkCall>)
    requires flags.toStderr.Some?
    ensures DisableStderr in calls <==> !flags.toStderr.value
    ensures forall c :: c in calls ==> c == DisableStderr
    ensures |calls| <= 1
  {
    if !flags.toStderr.value then [DisableStderr] else []
  }

  /** What `Init` leaves behind: the configuration and flags as updated, the calls made, the error returned. */
  datatype InitOutcome = InitOutcome(config: Logging, flags: Flags, calls: seq<SinkCall>, err: Option<LogError>)

  /**
   * `Init`: reset the logger, merge configuration and flags, configure the
   * sinks, write the effective selectors and file block back into the
   * configuration, activate the file sink, and finally narrow the console.
   * `defaultPath` is the logs directory the path resolver yields, and
   * `setToFile` is the file sink's answer to an activation (`Some` = error).
   */
  function Init(name: string, defaultPath: string, config: Logging, flags: Flags,
                setToFile: FileRotator -> Option<string>): (out: InitOutcome)
    ensures |out.calls| >= 1 && out.calls[0] == ResetLogger(config.json)
    // an unknown level: nothing but the reset happens
    ensures Merge(config, flags).Failure? ==>
      out == InitOutcome(config, flags, [ResetLogger(config.json)], Some(UnknownLevel(config.level)))
    ensures var m := Merge(config, flags); m.Success? ==>
      var d := m.value;
      // nil flag pointers are given their defaults
      && out.flags == Flags(Some(ForceStderr(flags)), Some(FlagSelectors(flags)))
      // the sink layer is configured with the decision
      && |out.calls| >= 2 && out.calls[1] == LogInit(d.level, d.toSyslog, d.toStderr, d.selectors)
      // selector write-back happens only when there are selectors
      && out.config.selectors == (if |d.selectors| > 0 then d.selectors else config.selectors)
      // the file block is filled exactly when files are on
      && out.config.files == (if d.toFiles then Some(FillFiles(config.files, defaultPath, name)) else config.files)
      // no other configuration field changes
      && out.config.(selectors := config.selectors, files := config.files) == config
      // the file sink is activated exactly when files are on, with the filled block
      && (d.toFiles ==> |out.calls| >= 3 && out.calls[2] == SetToFile(out.config.files.value))
      && (!d.toFiles ==> forall c :: c in out.calls ==> !c.SetToFile?)
      // only the file sink can fail, and its error is passed through
      && (out.err.Some? <==> d.toFiles && setToFile(out.config.files.value).Some?)
      && (out.err.Some? ==> out.err.value == FileSinkError(setToFile(out.config.files.value).value))
      // the console is narrowed last, and only after a successful activation
      && (DisableStderr in out.calls <==> out.err.None? && !d.toStderr)
      && (DisableStderr in out.calls ==> out.calls[|out.calls| - 1] == DisableStderr)
      // each sink call is made at most once
      && |out.calls| == 2 + (if d.toFiles then 1 else 0) + (if DisableStderr in out.calls then 1 else 0)
  {
    var reset := [ResetLogger(config.json)];
    match Merge(config, flags)
    case Failure(e) => InitOutcome(config, flags, reset, Some(e))
    case Success(d) =>
      var flags' := Flags(Some(d.toStderr), Some(FlagSelectors(flags)));
      var config' := if |d.selectors| > 0 then config.(selectors := d.selectors) else config;
      var calls := reset + [LogInit(d.level, d.toSyslog, d.toStderr, d.selectors)];
      if d.toFiles then
        var files := FillFiles(config.files, defaultPath, name);
        var config' := config'.(files := Some(files));
        var calls := calls + [SetToFile(files)];
        match setToFile(files)
        case Some(reason) => InitOutcome(config', flags', calls, Some(FileSinkError(reason)))
        case None => InitOutcome(config', flags', calls + SetStderr(flags'), None)
      else
        InitOutcome(config', flags', calls + SetStderr(flags'), None)
  }

  /** The logger fields the bootstrap phase writes, plus the JSON flag it leaves alone. */
  datatype Logger = Logger(
    level: Priority,
    toStderr: bool,
    stderrPrefix: Option<string>,  // the name prefix of the stderr logger, once created
    selectors: set<string>,
    debugAll: bool,
    json: bool)

  /**
   * `HandleFlags`: the bootstrap phase. The selector flag is split on commas
   * and handed to the selector parser `parse`, which yields the enabled
   * categories and whether the wildcard was given. Any selector forces
   * DEBUG; output goes to stderr until `Init` runs. The flag pointer must be
   * set (a nil pointer is dereferenced).
   */
  function HandleFlags(log: Logger, name: string, flags: Flags,
                       parse: seq<string> -> (set<string>, bool)): (r: Logger)
    requires flags.debugSelectors.Some?
    ensures var (enabled, all) := parse(Split(flags.debugSelectors.value));
      && (all || enabled != {} ==> r.level == Debug)
      && (!all && enabled == {} ==> r.level == log.level)
      && r.selectors == enabled && r.debugAll == all
    ensures r.toStderr && r.stderrPrefix == Some(name)
    ensures r.json == log.json
  {
    var (enabled, all) := parse(Split(flags.debugSelectors.value));
    var level := if all || |enabled| > 0 then Debug else log.level;
    Logger(level, true, Some(name), enabled, all, log.json)
  }
}
