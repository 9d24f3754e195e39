# Revel command line entry point — command resolution and dispatch

This project models the entry point of the Revel command line tool
(`revel/revel.go`): the layer that decides which command to run, with what
configuration, and how the outcome becomes an exit code.

- **Registry** (`registry.dfy`). The seven commands `new, run, build, package,
  clean, test, version` are the enumeration `CommandKind`, with values 1..7.
  The `model` package that defines these values is not part of this model.
  The values are taken from the registry's layout: a nil safety net at index 0
  (revel/revel.go:55), and the table indexed by the configuration's index
  (revel/revel.go:94, 143). `Commands` is that registry table.
  `Name` is `Command.Name()`: the usage line cut before its first space.
  `KindNamed` is the name-to-command switch of `ParseArgs`.
- **Logging** (`logging.dfy`). The logger levels, and the verbosity tier that
  `main` picks from the number of `-v` flags.
- **Effects** (`effects.dfy`). The observable steps of an invocation: logger
  initialisations, calls into collaborators, usage output, the fatal log and
  the error log. Operations return the steps they take, so their order can be
  proved.
- **Resolver** (`resolver.dfy`). `CommandConfig` is a class holding the fields
  this file reads and writes: `index` and the verbose count.
  - `ParseArgs` is a method that updates it in place. It is proved against the
    specification function `Resolve`, and `Validate` models the post-parse
    check.
  - The collaborators are inputs: the flag parser's outcome, the value of the
    `ini` flag, the INI loader's error, and each command's `UpdateConfig`
    (a function from command and leftover arguments to acceptance).
- **Dispatcher** (`dispatcher.dfy`). `Dispatch` is `main`: a linear sequence
  of steps on a fresh `CommandConfig`, with early exits. It is proved equal to
  the specification `Finish` applied to `Resolve`. Lemmas prove these facts:
  - the steps always follow the fixed order of `main` (`Stage` numbers them);
  - each failure stops every later step;
  - a command runs only when it is the registry entry that parsing selected,
    never the sentinel;
  - the exit code is 0 exactly when parsing, import path resolution and the
    command all succeed.
  `UpdateImportPath` and `RunWith` are inputs: a boolean, and a function from
  command to success.

Behaviour of the code worth noting:
- After the INI branch, the code still rejects an index of 0 (line 139). The
  INI branch does not end resolution on its own. The model assumes that the
  INI loader leaves the index alone (its code is not part of this model). With
  that assumption, on the fresh configuration `main` creates, the INI path
  always ends in an error and exit code 1 (`IniModeNeverSelects`,
  `IniModeAlwaysFails`). The model keeps this behaviour and adds no command
  selection for that path.
- The command is looked up (line 94) before the go paths and the package
  resolver are set up (lines 98-101). The lookup is a table read, not a step.
- Only three tiers follow parsing (Debug, Info, Warn). Error is used only to
  bootstrap the logger, before the arguments are known.
- The code never checks the index at lookup. `Commands[c.Index]` with index 0
  would be a nil command. The model proves that a successful parse always
  yields an index between 1 and 7 (`Resolve`, `RunsOnlySelectedCommand`), so
  this lookup is never reached with the sentinel.

## Model

| member | source | states |
|---|---|---|
| Registry.RegistryShape | revel/revel.go:53-63 | the table has 8 entries; entry 0 is the nil sentinel; entry i (1..7) holds the command whose enumerated value is i, in the order new, run, build, package, clean, test, version |
| Registry.KindsDistinct | revel/revel.go:55-62 | distinct commands have distinct enumerated values and distinct names, so registry entries are pairwise distinct |
| Registry.KindNamed | revel/revel.go:120-135 | the switch yields a command exactly when the name is that command's registered name, and yields nothing for every other name |
| Registry.FirstIndex | revel/revel.go:46 | the index of the first space is -1 exactly when there is no space; otherwise that position holds a space and no earlier position does |
| Registry.Name | revel/revel.go:43-51 | the name is a prefix of the usage line and contains no space; it is the whole line, or the next character of the line is a space |
| Registry.NameOfWordThenSpace | revel/revel.go:43-51 | a usage line made of a space-free word, then a space or nothing, has exactly that word as its name |
| Registry.NameSelectsCommand | revel/revel.go:120-135 | the name cut from a usage line made of a command's registered name followed by a space or by nothing is mapped by the switch to that command |
| Logging.LevelFor | revel/revel.go:81-88 | more than one verbose flag gives Debug, exactly one gives Info, none gives Warn; the tier is always more verbose than the bootstrap level |
| Logging.LevelForMonotone | revel/revel.go:81-88 | more verbose flags never pick a quieter level |
| Resolver.Validate | revel/revel.go:139-148 | success exactly when the index is set and any leftover arguments are accepted; index 0 gives "Unknown command" and no UpdateConfig call; leftover arguments give exactly one UpdateConfig call with them; a refusal gives "Invalid command line arguements" |
| Resolver.Resolve | revel/revel.go:110-149 | success means the index names a registry entry; a parser failure is returned at once with nothing changed; a registered name sets its index and any other name leaves the index alone; after parsing, any error other than "Unknown command" is the refusal of the leftover arguments; the INI path never sets the index; "Unknown command" exactly when parsing went through and the index is still 0 |
| Resolver.DirectModeOutcome | revel/revel.go:117-148 | in direct mode, success exactly when the resolved index is set and any leftover arguments are accepted; UpdateConfig is called once, with exactly the leftover arguments, when and only when the index is set and some arguments are left over |
| Resolver.RegisteredNameResolves | revel/revel.go:117-140 | every registered name, on a fresh configuration with nothing left over, selects its own index and registry entry and succeeds |
| Resolver.UnregisteredNameFails | revel/revel.go:117-140 | a name that is not registered, on a fresh configuration, fails with "Unknown command" and the leftover arguments |
| Resolver.IniModeNeverSelects | revel/revel.go:112-140 | on a fresh configuration the INI path always fails: with the loader's error, or with "Unknown command" and no arguments |
| Resolver.CommandConfig.constructor | revel/revel.go:69 | the configuration starts with index 0 (no command) and no verbose flags |
| Resolver.ParseArgs | revel/revel.go:110-149 | the new index, verbose count, error and steps taken are exactly those `Resolve` gives for the old state, and the index stays a registry position |
| Dispatcher.Finish | revel/revel.go:75-106 | exit code 0 or 1, and 0 exactly when parsing, import path resolution and the command all succeed; logging is bootstrapped before the parsing steps; the exact steps after parsing: the usage report after a parse error; the verbosity tier, the import path lookup and the fatal log when the path is missing; otherwise the tier, the import path, the go paths, the package resolver and the selected command, followed by the error log when it fails |
| Dispatcher.FailuresStopEarly | revel/revel.go:75-92 | a parse error ends the run at the usage report, before the import path is resolved; a missing import path ends it at the fatal log, before the go paths, the package resolver and any command |
| Dispatcher.FinishInOrder | revel/revel.go:65-106 | every invocation takes its steps in the fixed order (bootstrap, parse, UpdateConfig, tier, import path, go paths, package resolver, run), none of them twice; which steps occur is stated by `Finish` |
| Dispatcher.RunsOnlySelectedCommand | revel/revel.go:94-103 | a command runs only after parsing and import path resolution succeeded; it is the registry entry at the parsed index, which is never 0 |
| Dispatcher.RegisteredNameDispatches | revel/revel.go:65-107 | a registered name with nothing left over runs the full sequence of steps for that command, at the tier given by the flag count, and exits 0 when the command succeeds |
| Dispatcher.UnregisteredNameExits | revel/revel.go:75-79 | an unregistered name exits 1 after printing usage, without resolving the import path or running anything |
| Dispatcher.IniModeAlwaysFails | revel/revel.go:110-140 | whenever the ini flag names a file, the invocation exits 1 before the import path is resolved |
| Dispatcher.Dispatch | revel/revel.go:65-107 | `main` run step by step on a fresh configuration returns exactly the exit code and steps of `Finish` applied to `Resolve` |

## Left out

- The go-flags parser (`flags.NewParser`, `parser.ParseArgs`, `parser.Active`, `WriteHelp`) is a foreign library. Its result is an input: an error message, or the active subcommand's name, the leftover arguments and the verbose count. What a failed parse may already have written into the configuration is not modelled.
- The `ini` flag and `NewIniParser(...).ParseFile` are modelled only as the flag's value and the loader's error. Which options an INI file sets is not modelled, and the loader is taken to leave the index alone. The `ini` flag is never parsed by the standard flag package, so in practice it is always "none".
- `model.CommandConfig` is not part of this model. Its `UpdateImportPath`, `InitGoPaths` and `InitPackageResolver` appear only as steps, plus a boolean for `UpdateImportPath`. Its per-command option fields, and what `UpdateConfig` writes into them, are not modelled.
- The commands `cmdNew` … `cmdVersion` are defined in files that are not part of this model. Their usage lines and help texts are not modelled: `Name` is stated for any usage line. Their `UpdateConfig` and `RunWith` behaviour is an input.
- Log output and printing (`utils.InitLogger`'s working directory, `utils.Logger.*` messages, `println("Revel executing:", ...)`, `fmt.Fprint`) are I/O. Only the chosen level and the order of steps are modelled.
- `utils.Logger.Fatal` is modelled as ending the run with exit code 1. The logger that implements it is not part of this model.
- `gocolorize.SetPlain` on Windows is presentation only.
- `os.Getwd`: the working directory is read only by `utils.InitLogger` (revel/revel.go:72, 83, 85, 87), which is not modelled. The `init()` random seed is process plumbing with no reader in this file. `os.Exit` is modelled as a returned exit code.
- Strings are sequences of characters. `FirstIndex` counts characters, where `strings.Index` (revel/revel.go:46) returns a byte offset. The space is a single byte, so `Name` makes the same cut either way.
- The constants `RevelCmdImportPath`, `RevelSkeletonsImportPath` and `DefaultRunMode` are not read by this file's logic.
