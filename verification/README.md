# logp logging-policy resolution, modelled in Dafny

This project models the decision logic of the Go package `logp` (file
`logp.go`): how a process turns its `Logging` configuration and two
process-wide flags — `ToStderr` (force console output) and
`DebugSelectorsStr` (a comma-separated list of debug categories) — into one
effective logging policy, and which calls it then makes into the sink layer.

- `gostrings.dfy` — module `GoStrings`: `strings.Split(s, ",")`, its inverse
  `strings.Join`, and the lower-casing used for level names.
- `logp.dfy` — module `Logp`: the `Logging`, `FileRotator` and flag types,
  the level resolver `GetLogLevel`, the precedence chain `Merge` (level
  check, Rule A wildcard, Rule B flag override, syslog/files defaults,
  Rule C stderr exclusivity), the file-block defaults `FillFiles`, the full
  phase `Init`, the bootstrap phase `HandleFlags` and the console narrowing
  `SetStderr`.
- `properties.dfy` — module `LogpProperties`: lemmas relating several calls
  (level names round-trip in any letter case, `Init` is a fixed point of
  itself, bootstrap idempotence) and worked scenarios.
- `wrappers.dfy` — `Option` (a Go nil pointer) and `Result`.

Process globals are explicit: `Init` takes the flags as a `Flags` value and
returns them with nil pointers defaulted; the logger state written by
`HandleFlags` is a `Logger` value; calls into the sink layer (`LogInit`,
`SetToFile`, `SetToStderr(false, "")`, and the logger reset at the top of
`Init`) are returned in order as a sequence of `SinkCall`s. The default log
directory (`Resolve(Logs, "")`) is the parameter `defaultPath`, and the
file sink's answer to an activation is the function parameter `setToFile`
(`Some(reason)` is an error).

Details of the code that shape the model:
- logp.go:70 replaces the selectors with the raw `strings.Split` result;
  empty pieces and duplicates are kept.
- logp.go:50 reads `config.JSON` before any nil check, so `Init` takes a
  non-nil configuration; only `getLogLevel` treats a nil configuration as
  INFO.
- The comment above `Init` (logp.go:43-46) says standard output is always
  enabled after the call, but `Init` itself calls `SetStderr` (logp.go:133),
  which disables the console unless the stderr flag is set; the model follows
  the code.

## Model

| member | source | states |
|---|---|---|
| GoStrings.Split | logp.go:70 | the flag splits into one more piece than it has commas, and no piece contains a comma (empty pieces are kept) |
| GoStrings.JoinSplit | logp.go:70 | joining the pieces with commas gives back the flag string: splitting loses nothing |
| GoStrings.SplitJoin | logp.go:70 | any non-empty list of comma-free pieces is recovered exactly by splitting its join |
| GoStrings.ToLowerMatches | logp.go:157 | for a word `k` of ASCII lower-case letters, lower-casing `s` gives `k` exactly when `s` spells `k` in some letter case: each character is the letter, its ASCII capital, or U+0130 for 'i' / U+212A for 'k', as Go folds them |
| Logp.LevelsAreNames | logp.go:149-155 | a key is in the level table exactly when it is the name of some level, and it maps to that level |
| Logp.GetLogLevel | logp.go:144-162 | nil configuration or empty level gives INFO; a non-empty level succeeds exactly when its lower-case form is one of the five names, with the level of that name; otherwise the error carries the original string |
| Logp.Merge | logp.go:53-97 | fails exactly when the level is invalid, whatever the flags; Rule A (DEBUG with no selectors gives `["*"]`, else the configured selectors); Rule B (a non-empty flag gives its split pieces and DEBUG); syslog only when explicitly on, files unless explicitly off; under the stderr flag both are off |
| Logp.FillFiles | logp.go:104-118 | a nil file block becomes default path plus process name; otherwise only an empty path or name is filled, a non-empty one and the rotation settings are kept |
| Logp.SetStderr | logp.go:137-142 | the console is disabled, once, exactly when the stderr flag is false; the single `DisableStderr` call stands for both `SetToStderr(false, "")` and the "log" debug trace that follows it, and nothing else is called |
| Logp.Init | logp.go:47-135 | an invalid level only resets the logger and leaves configuration and flags untouched; otherwise nil flags get their defaults, LogInit gets the decision, selectors are written back only when non-empty, the file block is filled and activated exactly when files are on, no other configuration field changes, only the file sink's error is returned, the console is narrowed last and only on success, and each sink call is made at most once |
| Logp.HandleFlags | logp.go:25-41 | the level becomes DEBUG when the parsed selectors are non-empty or the wildcard is set and is kept otherwise; the parsed selectors are stored; output goes to stderr with the process name as prefix; the JSON flag is kept |
| LogpProperties.NameIsLowerCase | logp.go:149-157 | lower-casing a level's table name leaves it unchanged |
| LogpProperties.LevelInAnyCase | logp.go:149-161 | a level name spelled in any mix of letter cases (ASCII capitals, and U+0130 / U+212A for 'i' / 'k') resolves to that level |
| LogpProperties.NameRoundTrip | logp.go:149-161 | each level's own name resolves back to that level |
| LogpProperties.FillFilesIdempotent | logp.go:104-118 | filling an already filled file block changes nothing |
| LogpProperties.FlagSelectorsWrittenBack | logp.go:65-102 | with a valid level and a non-empty selector flag, the configuration's selectors become exactly the flag's split pieces |
| LogpProperties.InitIsFixedPoint | logp.go:47-135 | running `Init` again on the configuration and flags it leaves behind gives the same calls, the same error and the same configuration and flags |
| LogpProperties.HandleFlagsIdempotent | logp.go:25-41 | a second bootstrap with the same flags changes nothing |
| LogpProperties.ConsoleNarrowedUnlessForced | logp.go:132-142 | after a successful `Init` the console is disabled exactly when the stderr flag is not set |
| LogpProperties.DebugWithoutSelectors | logp.go:58-63 | level "debug", no selectors, files on, no flags: selectors `["*"]`, default file block activated, console disabled |
| LogpProperties.FlagOverridesInfo | logp.go:65-72 | level "info" with configured selectors and flag "auth,net": level DEBUG, selectors `["auth", "net"]` |
| LogpProperties.StderrWinsOverExplicitSinks | logp.go:77-97 | for process name "agent", level "", no selectors, syslog and files both explicitly on and the stderr flag set: syslog and files end off, no file sink is activated and the configuration is unchanged |

## Left out

- `IsDebug("stdlog")` and the redirect of Go's standard logger to a discard writer (logp.go:126-130): `IsDebug` is not part of this model, and the redirect makes no policy decision.
- `LogInit`, `SetToFile`, `SetToStderr`, `Debug` and `Resolve` are not part of this model: their calls are recorded as `SinkCall`s or taken as parameters, not given meaning.
- `parseSelectors` is not part of this model: `HandleFlags` takes it as the function parameter `parse`.
- The stderr logger created by `log.New(os.Stderr, name, …)` is recorded only by its name prefix.
- Logp.HandleFlags: requires the `DebugSelectorsStr` pointer to be set, because the source dereferences it without a nil check.
- Logp.SetStderr: requires the `ToStderr` pointer to be set, because the source dereferences it without a nil check (inside `Init` it always is).
- Logp.Init: the file sink's answer is assumed to depend only on the file block (the parameter `setToFile` is a function), so a second activation with the same block gives the same answer; Go's `SetToFile` touches the file system and may answer differently. `LogpProperties.InitIsFixedPoint` relies on this.
- Logp.Init: takes a non-nil configuration, because the source dereferences it before any nil check.
- GoStrings.ToLower: lower-cases ASCII capitals and the two non-ASCII code points whose Go lower-case form is ASCII (U+0130, U+212A) and keeps every other code point; Go maps further non-ASCII letters, which cannot change whether a level name matches.
- Logp.Priority: only the five levels a configuration can name; the numeric `Priority` type and the zero value returned next to the error are defined elsewhere.
- The in-place mutation of a shared `config.Files` pointer is modelled as a returned value; aliasing is not modelled.
- The single-threaded start-up sequencing (bootstrap strictly before the full phase) is not modelled: `Init` takes no logger state, so nothing it decides depends on the bootstrap.
