/** Properties relating several calls of the logp policy functions. */
module LogpProperties {
  import opened Wrappers
  import opened GoStrings
  import opened Logp

  /** Lower-casing a lower-case level name leaves it as it is. */
  lemma NameIsLowerCase(p: Priority)
    ensures ToLower(Name(p)) == Name(p)
  {
  }

  /** Every level name is made of ASCII lower-case letters. */
  lemma NameIsLowerLetters(p: Priority)
    ensures LowerLetters(Name(p))
  {
  }

  /** A level name written in any letter case resolves to that level. */
  lemma LevelInAnyCase(config: Logging, p: Priority)
    requires CaseVariant(config.level, Name(p))
    ensures GetLogLevel(Some(config)) == Success(p)
  {
    NameIsLowerLetters(p);
    ToLowerMatches(config.level, Name(p));
    assert ToLower(config.level) == Name(p);
  }

  /** Every level's own name resolves back to it. */
  lemma NameRoundTrip(config: Logging, p: Priority)
    requires config.level == Name(p)
    ensures GetLogLevel(Some(config)) == Success(p)
  {
    NameIsLowerLetters(p);
    assert CaseVariant(config.level, Name(p));
    LevelInAnyCase(config, p);
  }

  /** Filling a file block a second time changes nothing. */
  lemma FillFilesIdempotent(files: Option<FileRotator>, defaultPath: string, name: string)
    ensures FillFiles(Some(FillFiles(files, defaultPath, name)), defaultPath, name)
         == FillFiles(files, defaultPath, name)
  {
  }

  /** Rule B always writes the split flag back into the configuration, even the pieces that are empty. */
  lemma FlagSelectorsWrittenBack(name: string, defaultPath: string, config: Logging, flags: Flags,
                                 setToFile: FileRotator -> Option<string>)
    requires FlagSelectors(flags) != ""
    requires GetLogLevel(Some(config)).Success?
    ensures Init(name, defaultPath, config, flags, setToFile).config.selectors == Split(FlagSelectors(flags))
  {
  }

  /**
   * `Init` is a fixed point of itself: running it again on the configuration
   * and flags it leaves behind makes the same decision, issues the same calls,
   * returns the same error and changes nothing further.
   */
  lemma InitIsFixedPoint(name: string, defaultPath: string, config: Logging, flags: Flags,
                         setToFile: FileRotator -> Option<string>)
    ensures var out := Init(name, defaultPath, config, flags, setToFile);
      Init(name, defaultPath, out.config, out.flags, setToFile) == out
  {
  }

  /** The bootstrap phase is idempotent: a second run with the same flags changes nothing. */
  lemma HandleFlagsIdempotent(log: Logger, name: string, flags: Flags,
                              parse: seq<string> -> (set<string>, bool))
    requires flags.debugSelectors.Some?
    ensures var once := HandleFlags(log, name, flags, parse);
      HandleFlags(once, name, flags, parse) == once
  {
  }

  /** The console ends up narrowed by `Init` exactly when the stderr flag is not set. */
  lemma ConsoleNarrowedUnlessForced(name: string, defaultPath: string, config: Logging, flags: Flags,
                                    setToFile: FileRotator -> Option<string>)
    requires GetLogLevel(Some(config)).Success?
    requires Init(name, defaultPath, config, flags, setToFile).err.None?
    ensures DisableStderr in Init(name, defaultPath, config, flags, setToFile).calls <==> !ForceStderr(flags)
  {
  }

  /** Debug level without selectors, files on, no flags: wildcard selectors, default file block, console off. */
  lemma DebugWithoutSelectors()
    ensures var config := Logging([], None, None, Some(true), false, "debug");
      var out := Init("agent", "/var/log", config, Flags(None, None), f => None);
      && out.err.None?
      && out.calls == [ResetLogger(false), LogInit(Debug, false, false, ["*"]),
                       SetToFile(NewFileRotator("/var/log", "agent")), DisableStderr]
      && out.config.selectors == ["*"]
      && out.config.files == Some(NewFileRotator("/var/log", "agent"))
  {
    var config := Logging([], None, None, Some(true), false, "debug");
    NameRoundTrip(config, Debug);
  }

  /** A selector flag overrides an INFO configuration: DEBUG, the flag's selectors. */
  lemma FlagOverridesInfo()
    ensures var config := Logging(["db"], None, None, None, false, "info");
      var d := Merge(config, Flags(None, Some("auth,net")));
      d.Success? && d.value.level == Debug && d.value.selectors == ["auth", "net"]
  {
    var config := Logging(["db"], None, None, None, false, "info");
    NameRoundTrip(config, Info);
    SplitJoin(["auth", "net"]);
    assert Join(["auth", "net"]) == "auth,net";
  }

  /** The stderr flag wins over files and syslog explicitly switched on. */
  lemma StderrWinsOverExplicitSinks()
    ensures var config := Logging([], None, Some(true), Some(true), false, "");
      var out := Init("agent", "/var/log", config, Flags(Some(true), None), f => None);
      && out.err.None?
      && out.calls == [ResetLogger(false), LogInit(Info, false, true, [])]
      && out.config == config
  {
  }
}
