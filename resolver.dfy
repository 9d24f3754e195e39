/**
 * ParseArgs of the revel command line tool: turn the flag parser's verdict on
 * the raw arguments into a command index stored in the shared CommandConfig,
 * reject an index that was never set, and hand leftover arguments to the
 * selected command's UpdateConfig.
 *
 * The flag parser, the INI file loader and each command's UpdateConfig are
 * collaborators whose answers are inputs here.
 */
module Resolver {
  import opened Wrappers
  import opened Registry
  import opened Effects

  /** What the flag parser reports after parsing the raw arguments. */
  datatype ParseOutcome =
    | ParseFailed(message: string)
      // the active subcommand's name, the arguments it left over and the number of verbose flags seen
    | Parsed(active: string, extra: seq<string>, verboseFlags: nat)

  /** The errors ParseArgs returns. */
  datatype ArgError =
    | ParserError(message: string)       // returned unchanged from the flag parser
    | IniError(message: string)          // returned unchanged from the INI file loader
    | UnknownCommand(extra: seq<string>)  // "Unknown command"
    | InvalidArguments(extra: seq<string>) // "Invalid command line arguements"

  /** A command's UpdateConfig: does the command accept these leftover arguments? */
  type Acceptor = (CommandKind, seq<string>) -> bool

  /** The value of the ini flag that selects direct parsing of the arguments. */
  const IniDisabled: string := "none"

  /** The configuration fields ParseArgs leaves behind, with its error and the steps it took. */
  datatype Resolution = Resolution(index: nat, verbose: nat, err: Option<ArgError>, effects: seq<Event>)

  /**
   * The check after parsing: an index still 0 is an unknown command; otherwise
   * leftover arguments go, once, to the selected command's UpdateConfig, and a
   * refusal is an error. `before` are the steps already taken.
   */
  function Validate(index: nat, verbose: nat, extra: seq<string>, accepts: Acceptor, before: seq<Event>): (r: Resolution)
    requires index < |Commands|
    ensures r.index == index && r.verbose == verbose
    ensures r.err.None? <==> index != 0 && (extra == [] || accepts(Commands[index].value, extra))
    ensures index == 0 ==> r.err == Some(UnknownCommand(extra)) && r.effects == before
    ensures index != 0 && extra == [] ==> r.effects == before
    ensures index != 0 && extra != [] ==>
              r.effects == before + [UpdateConfig(Commands[index].value, extra)] &&
              (r.err.Some? ==> r.err == Some(InvalidArguments(extra)))
  {
    if index == 0 then
      Resolution(index, verbose, Some(UnknownCommand(extra)), before)
    else if |extra| > 0 then
      var kind := Commands[index].value;
      var err := if accepts(kind, extra) then None else Some(InvalidArguments(extra));
      Resolution(index, verbose, err, before + [UpdateConfig(kind, extra)])
    else
      Resolution(index, verbose, None, before)
  }

  /**
   * What every outcome of ParseArgs satisfies: the index is a registry
   * position, success means it names a command, the loader or the parser runs
   * first, and UpdateConfig is called at most once, and never for index 0.
   */
  predicate Consistent(r: Resolution)
  {
    && r.index < |Commands|
    && (r.err.None? ==> r.index != 0 && Commands[r.index].Some?)
    && 1 <= |r.effects| <= 2
    && (r.effects[0] == ParseCommandLine || r.effects[0].LoadIniFile?)
    && (|r.effects| == 2 ==> r.effects[1].UpdateConfig?)
    && (r.index == 0 ==> r.err.Some? && |r.effects| == 1)
  }

  /**
   * The specification of ParseArgs, from the index and verbose count held
   * before the call, the value of the ini flag, the INI loader's error, the
   * flag parser's outcome and the commands' UpdateConfig.
   */
  function Resolve(index: nat, verbose: nat, ini: string, iniError: Option<string>,
                   parsed: ParseOutcome, accepts: Acceptor): (r: Resolution)
    requires index < |Commands|
    ensures Consistent(r)
    // a parser failure is returned at once: nothing set, no UpdateConfig call
    ensures ini == IniDisabled && parsed.ParseFailed? ==>
              r == Resolution(index, verbose, Some(ParserError(parsed.message)), [ParseCommandLine])
    // a recognised subcommand name selects its command; any other name leaves the index alone
    ensures ini == IniDisabled && parsed.Parsed? ==>
              r.verbose == parsed.verboseFlags &&
              r.index == (if KindNamed(parsed.active).Some? then Ordinal(KindNamed(parsed.active).value) else index)
    // any other failure after parsing is a refusal of the leftover arguments
    ensures ini == IniDisabled && parsed.Parsed? && r.err.Some? && !r.err.value.UnknownCommand? ==>
              r.err == Some(InvalidArguments(parsed.extra))
    // the INI path never sets the index, and calls no UpdateConfig
    ensures ini != IniDisabled ==>
              r.index == index && r.verbose == verbose && |r.effects| == 1
    // "Unknown command" is reported exactly when parsing or loading went through and the index is still 0
    ensures (r.err.Some? && r.err.value.UnknownCommand?) <==>
              r.index == 0 && (if ini == IniDisabled then parsed.Parsed? else iniError.None?)
  {
    if ini != IniDisabled then
      var load := [LoadIniFile(ini)];
      if iniError.Some? then Resolution(index, verbose, Some(IniError(iniError.value)), load)
      else Validate(index, verbose, [], accepts, load)
    else
      match parsed
      case ParseFailed(message) =>
        Resolution(index, verbose, Some(ParserError(message)), [ParseCommandLine])
      case Parsed(active, extra, verboseFlags) =>
        var selected := match KindNamed(active)
                        case Some(kind) => Ordinal(kind)
                        case None => index;
        RegistryShape();
        Validate(selected, verboseFlags, extra, accepts, [ParseCommandLine])
  }

  /**
   * In direct mode, with the parser done, ParseArgs succeeds exactly when the
   * resolved index is set and the command accepts any leftover arguments;
   * UpdateConfig is called once, with exactly the leftover arguments, when and
   * only when the index is set and there are some.
   */
  lemma DirectModeOutcome(index: nat, verbose: nat, iniError: Option<string>,
                          active: string, extra: seq<string>, verboseFlags: nat, accepts: Acceptor)
    requires index < |Commands|
    ensures var r := Resolve(index, verbose, IniDisabled, iniError, Parsed(active, extra, verboseFlags), accepts);
            && (r.err.None? <==> r.index != 0 && (extra == [] || accepts(Commands[r.index].value, extra)))
            && (r.index != 0 && extra != [] ==>
                  r.effects == [ParseCommandLine, UpdateConfig(Commands[r.index].value, extra)])
            && (r.index == 0 || extra == [] ==> r.effects == [ParseCommandLine])
  {
  }

  /**
   * Every registered name, given to a fresh configuration with nothing left
   * over, selects its own command and succeeds without calling UpdateConfig.
   */
  lemma RegisteredNameResolves(k: CommandKind, verboseFlags: nat, iniError: Option<string>, accepts: Acceptor)
    ensures Resolve(0, 0, IniDisabled, iniError, Parsed(KindName(k), [], verboseFlags), accepts)
            == Resolution(Ordinal(k), verboseFlags, None, [ParseCommandLine])
    ensures Commands[Ordinal(k)] == Some(k)
  {
  }

  /**
   * A name that is not registered, given to a fresh configuration, is an
   * unknown command, whatever is left over.
   */
  lemma UnregisteredNameFails(active: string, extra: seq<string>, verboseFlags: nat,
                              iniError: Option<string>, accepts: Acceptor)
    requires forall k :: KindName(k) != active
    ensures Resolve(0, 0, IniDisabled, iniError, Parsed(active, extra, verboseFlags), accepts).err
            == Some(UnknownCommand(extra))
  {
  }

  /**
   * On a fresh configuration the INI path can never succeed: it does not set
   * the index, so it always ends in an error (the loader's, or unknown command).
   */
  lemma IniModeNeverSelects(ini: string, iniError: Option<string>, parsed: ParseOutcome, accepts: Acceptor)
    requires ini != IniDisabled
    ensures var r := Resolve(0, 0, ini, iniError, parsed, accepts);
            r.err == Some(if iniError.Some? then IniError(iniError.value) else UnknownCommand([]))
  {
  }

  /** The part of model.CommandConfig that this entry point reads and writes. */
  class CommandConfig {
    /** The selected command's enumerated value; 0 while no command is selected. */
    var index: nat
    /** How many times the verbose flag was given. */
    var verbose: nat

    /** The index is the sentinel or a registered command. */
    ghost predicate Valid()
      reads this
    {
      index < |Commands|
    }

    /** A zero configuration, as created at the start of an invocation. */
    constructor ()
      ensures Valid() && index == 0 && verbose == 0
    {
      index, verbose := 0, 0;
    }
  }

  /**
   * Parse the arguments into `c`: with the ini flag at "none", run the flag
   * parser and map the active subcommand's name to its index; otherwise load
   * the INI file. Then reject an unset index and hand leftover arguments to
   * the selected command.
   */
  method ParseArgs(c: CommandConfig, ini: string, iniError: Option<string>, parsed: ParseOutcome, accepts: Acceptor)
    returns (err: Option<ArgError>, effects: seq<Event>)
    requires c.Valid()
    modifies c
    ensures c.Valid()
    ensures Resolution(c.index, c.verbose, err, effects)
            == Resolve(old(c.index), old(c.verbose), ini, iniError, parsed, accepts)
  {
    RegistryShape();
    var extra: seq<string> := [];
    err := None;
    if ini != IniDisabled {
      effects := [LoadIniFile(ini)];
      if iniError.Some? {
        err := Some(IniError(iniError.value));
        return;
      }
    } else {
      effects := [ParseCommandLine];
      match parsed
      case ParseFailed(message) =>
        err := Some(ParserError(message));
        return;
      case Parsed(active, leftover, verboseFlags) =>
        extra, c.verbose := leftover, verboseFlags;
        match KindNamed(active)
        case Some(kind) => c.index := Ordinal(kind);
        case None =>
    }

    if c.index == 0 {
      err := Some(UnknownCommand(extra));
    } else if |extra| > 0 {
      var kind := Commands[c.index].value;
      effects := effects + [UpdateConfig(kind, extra)];
      if !accepts(kind, extra) {
        err := Some(InvalidArguments(extra));
      }
    }
  }
}
