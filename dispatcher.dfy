/**
 * The main flow of the revel command line tool: bootstrap logging, parse the
 * arguments, pick the verbosity tier, resolve the import path, look the
 * command up, set up go paths and the package resolver, run the command, and
 * turn the outcome into an exit code. Each failure ends the invocation.
 */
module Dispatcher {
  import opened Wrappers
  import opened Registry
  import opened Logging
  import opened Effects
  import opened Resolver

  /** How an invocation ends: its exit code and the steps it took. */
  datatype Exit = Exit(code: int, effects: seq<Event>)

  /** The position of each step in the fixed order of the main flow. */
  function Stage(e: Event): nat
  {
    match e
    case InitLogger(level) => if level == BootstrapLevel then 0 else 4
    case ParseCommandLine => 1
    case LoadIniFile(_) => 1
    case UpdateConfig(_, _) => 2
    case ReportUsage => 3
    case UpdateImportPath => 5
    case FatalNoAppPath => 6
    case InitGoPaths => 7
    case InitPackageResolver => 8
    case RunWith(_) => 9
    case ReportRunError => 10
  }

  /** The steps follow the fixed order of the main flow, none of them twice. */
  ghost predicate InOrder(effects: seq<Event>)
  {
    forall i, j :: 0 <= i < j < |effects| ==> Stage(effects[i]) < Stage(effects[j])
  }

  /** Two ordered runs of steps, the first no later than stage `m` and the second after it, are in order together. */
  lemma InOrderAppend(first: seq<Event>, second: seq<Event>, m: nat)
    requires InOrder(first) && InOrder(second)
    requires forall i :: 0 <= i < |first| ==> Stage(first[i]) <= m
    requires forall j :: 0 <= j < |second| ==> m < Stage(second[j])
    ensures InOrder(first + second)
  {
  }

  /** Bootstrapping the logger, then parsing and at most one UpdateConfig call, is in order. */
  lemma ParsingInOrder(parsing: seq<Event>)
    requires 1 <= |parsing| <= 2 && (parsing[0] == ParseCommandLine || parsing[0].LoadIniFile?)
    requires |parsing| == 2 ==> parsing[1].UpdateConfig?
    ensures InOrder([InitLogger(BootstrapLevel)] + parsing)
    ensures forall i :: 0 <= i < |parsing| + 1 ==> Stage(([InitLogger(BootstrapLevel)] + parsing)[i]) <= 2
  {
  }

  /**
   * The specification of the main flow once ParseArgs has produced `r` on a
   * fresh configuration, from the answers of the remaining collaborators:
   * whether the import path can be determined, and whether the selected
   * command's RunWith succeeds.
   */
  function Finish(r: Resolution, importPathFound: bool, runSucceeds: CommandKind -> bool): (x: Exit)
    requires Consistent(r)
    // exit 0 exactly when parsing, import path resolution and the command all succeed
    ensures x.code == 0 || x.code == 1
    ensures x.code == 0 <==> r.err.None? && importPathFound && runSucceeds(Commands[r.index].value)
    // logging is bootstrapped before parsing, whose steps come next
    ensures |x.effects| > |r.effects| + 1
    ensures x.effects[..|r.effects| + 1] == [InitLogger(BootstrapLevel)] + r.effects
    // once parsing succeeded, the logger is reconfigured with the verbosity tier
    ensures r.err.None? ==> x.effects[|r.effects| + 1] == InitLogger(LevelFor(r.verbose))
    // a parse error is followed only by the usage report
    ensures r.err.Some? ==> x.effects[|r.effects| + 1..] == [ReportUsage]
    // a missing import path is fatal right after it is looked for
    ensures r.err.None? && !importPathFound ==>
              x.effects[|r.effects| + 1..] == [InitLogger(LevelFor(r.verbose)), UpdateImportPath, FatalNoAppPath]
    // otherwise every setup step happens, then the selected command runs, and a failure is logged
    ensures r.err.None? && importPathFound ==>
              x.effects[|r.effects| + 1..] ==
                [InitLogger(LevelFor(r.verbose)), UpdateImportPath, InitGoPaths, InitPackageResolver,
                 RunWith(Commands[r.index].value)] + (if x.code == 0 then [] else [ReportRunError])
    // the run ends with the report of what went wrong, or with the command when it succeeded
    ensures x.effects[|x.effects| - 1] ==
              if r.err.Some? then ReportUsage
              else if !importPathFound then FatalNoAppPath
              else if x.code == 1 then ReportRunError
              else RunWith(Commands[r.index].value)
  {
    var parsing := [InitLogger(BootstrapLevel)] + r.effects;
    if r.err.Some? then
      Exit(1, parsing + [ReportUsage])
    else
      var tier := InitLogger(LevelFor(r.verbose));
      if !importPathFound then
        Exit(1, parsing + [tier, UpdateImportPath, FatalNoAppPath])
      else
        var command := Commands[r.index].value;
        var running := [tier, UpdateImportPath, InitGoPaths, InitPackageResolver, RunWith(command)];
        if runSucceeds(command) then Exit(0, parsing + running)
        else Exit(1, parsing + (running + [ReportRunError]))
  }

  /**
   * The steps after a successful parse, up to running `command` and then
   * possibly reporting its error, are in order and all come after parsing.
   */
  lemma AfterParsingInOrder(level: Level, command: CommandKind)
    requires level != BootstrapLevel
    ensures var running := [InitLogger(level), UpdateImportPath, InitGoPaths, InitPackageResolver, RunWith(command)];
            && InOrder(running) && (forall j :: 0 <= j < |running| ==> 2 < Stage(running[j]))
            && InOrder(running + [ReportRunError])
            && (forall j :: 0 <= j < |running| + 1 ==> 2 < Stage((running + [ReportRunError])[j]))
  {
  }

  /** Every invocation takes its steps in the fixed order of the main flow, none of them twice. */
  lemma FinishInOrder(r: Resolution, importPathFound: bool, runSucceeds: CommandKind -> bool)
    requires Consistent(r)
    ensures InOrder(Finish(r, importPathFound, runSucceeds).effects)
  {
    var parsing := [InitLogger(BootstrapLevel)] + r.effects;
    ParsingInOrder(r.effects);
    if r.err.Some? {
      InOrderAppend(parsing, [ReportUsage], 2);
    } else {
      var tier := InitLogger(LevelFor(r.verbose));
      if !importPathFound {
        InOrderAppend(parsing, [tier, UpdateImportPath, FatalNoAppPath], 2);
      } else {
        var command := Commands[r.index].value;
        var running := [tier, UpdateImportPath, InitGoPaths, InitPackageResolver, RunWith(command)];
        AfterParsingInOrder(LevelFor(r.verbose), command);
        if runSucceeds(command) {
          InOrderAppend(parsing, running, 2);
        } else {
          InOrderAppend(parsing, running + [ReportRunError], 2);
        }
      }
    }
  }

  /**
   * Each failure stops everything after it in the main flow's order: a parse
   * error ends the run at the usage report, before the import path is
   * resolved; a missing import path ends it at the fatal log, before the go
   * paths, the package resolver and any command.
   */
  lemma FailuresStopEarly(r: Resolution, importPathFound: bool, runSucceeds: CommandKind -> bool)
    requires Consistent(r)
    ensures var x := Finish(r, importPathFound, runSucceeds);
            r.err.Some? ==> forall i :: 0 <= i < |x.effects| ==> Stage(x.effects[i]) <= Stage(ReportUsage)
    ensures var x := Finish(r, importPathFound, runSucceeds);
            r.err.None? && !importPathFound ==>
              forall i :: 0 <= i < |x.effects| ==> Stage(x.effects[i]) <= Stage(FatalNoAppPath)
  {
    var x := Finish(r, importPathFound, runSucceeds);
    var parsing := [InitLogger(BootstrapLevel)] + r.effects;
    ParsingInOrder(r.effects);
    if r.err.Some? {
      assert x.effects == parsing + [ReportUsage];
    } else if !importPathFound {
      assert x.effects == parsing + [InitLogger(LevelFor(r.verbose)), UpdateImportPath, FatalNoAppPath];
    }
  }

  /**
   * A command runs only after parsing and import path resolution succeeded,
   * and it is the registry entry at the index ParseArgs selected, never the
   * sentinel.
   */
  lemma RunsOnlySelectedCommand(r: Resolution, importPathFound: bool, runSucceeds: CommandKind -> bool, i: nat)
    requires Consistent(r)
    requires var x := Finish(r, importPathFound, runSucceeds);
             i < |x.effects| && x.effects[i].RunWith?
    ensures r.err.None? && importPathFound && r.index != 0
    ensures Commands[r.index] == Some(Finish(r, importPathFound, runSucceeds).effects[i].kind)
  {
  }

  /**
   * A registered subcommand name with nothing left over runs that command:
   * the full sequence of steps, with the verbosity tier from the flag count,
   * and exit code 0 when the command succeeds.
   */
  lemma RegisteredNameDispatches(k: CommandKind, verboseFlags: nat, iniError: Option<string>, accepts: Acceptor,
                                 runSucceeds: CommandKind -> bool)
    requires runSucceeds(k)
    ensures Finish(Resolve(0, 0, IniDisabled, iniError, Parsed(KindName(k), [], verboseFlags), accepts), true, runSucceeds)
            == Exit(0, [InitLogger(BootstrapLevel), ParseCommandLine, InitLogger(LevelFor(verboseFlags)),
                        UpdateImportPath, InitGoPaths, InitPackageResolver, RunWith(k)])
  {
  }

  /**
   * An unregistered subcommand name exits with code 1 after printing usage,
   * without resolving the import path or running anything.
   */
  lemma UnregisteredNameExits(active: string, extra: seq<string>, verboseFlags: nat, iniError: Option<string>,
                              accepts: Acceptor, importPathFound: bool, runSucceeds: CommandKind -> bool)
    requires forall k :: KindName(k) != active
    ensures var x := Finish(Resolve(0, 0, IniDisabled, iniError, Parsed(active, extra, verboseFlags), accepts),
                            importPathFound, runSucceeds);
            x.code == 1 && x.effects == [InitLogger(BootstrapLevel), ParseCommandLine, ReportUsage]
  {
  }

  /**
   * Whenever the ini flag names a file, the invocation exits with code 1
   * before the import path is resolved: the INI path never selects a command.
   */
  lemma IniModeAlwaysFails(ini: string, iniError: Option<string>, parsed: ParseOutcome, accepts: Acceptor,
                           importPathFound: bool, runSucceeds: CommandKind -> bool)
    requires ini != IniDisabled
    ensures var x := Finish(Resolve(0, 0, ini, iniError, parsed, accepts), importPathFound, runSucceeds);
            x.code == 1 && x.effects == [InitLogger(BootstrapLevel), LoadIniFile(ini), ReportUsage]
  {
  }

  /**
   * The main flow as the tool runs it, one step after another on a fresh
   * configuration, each failure ending the run with exit code 1.
   */
  method Dispatch(ini: string, iniError: Option<string>, parsed: ParseOutcome, accepts: Acceptor,
                  importPathFound: bool, runSucceeds: CommandKind -> bool)
    returns (code: int, effects: seq<Event>)
    ensures Exit(code, effects) == Finish(Resolve(0, 0, ini, iniError, parsed, accepts), importPathFound, runSucceeds)
  {
    var c := new CommandConfig();
    effects := [InitLogger(BootstrapLevel)];

    var err, parseEffects := ParseArgs(c, ini, iniError, parsed, accepts);
    effects := effects + parseEffects;
    ghost var parsing := effects;
    if err.Some? {
      effects := effects + [ReportUsage];
      return 1, effects;
    }

    // the verbosity switch of main, which LevelFor specifies
    var tier: Level;
    if c.verbose > 1 {
      tier := Debug;
    } else if c.verbose > 0 {
      tier := Info;
    } else {
      tier := Warn;
    }
    effects := effects + [InitLogger(tier)];

    effects := effects + [UpdateImportPath];
    assert effects == parsing + [InitLogger(tier), UpdateImportPath];
    if !importPathFound {
      effects := effects + [FatalNoAppPath];
      assert effects == parsing + [InitLogger(tier), UpdateImportPath, FatalNoAppPath];
      return 1, effects;
    }

    var command := Commands[c.index].value;
    effects := effects + [InitGoPaths];
    effects := effects + [InitPackageResolver];
    effects := effects + [RunWith(command)];
    ghost var running := [InitLogger(tier), UpdateImportPath, InitGoPaths, InitPackageResolver, RunWith(command)];
    assert effects == parsing + running;
    if !runSucceeds(command) {
      effects := effects + [ReportRunError];
      assert effects == parsing + (running + [ReportRunError]);
      return 1, effects;
    }
    code := 0;
  }
}
