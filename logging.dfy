/**
 * Logger levels and the verbosity tier chosen from the number of times the
 * verbose flag was given. Writing log output is not modelled; only the level
 * each (re-)initialisation of the logger selects.
 */
module Logging {
  /** The logger levels the entry point selects from, most verbose first. */
  datatype Level = Debug | Info | Warn | Error

  /** How much a level lets through: a higher rank shows more messages. */
  function Rank(l: Level): nat
  {
    match l
    case Debug => 3
    case Info => 2
    case Warn => 1
    case Error => 0
  }

  /** The level used to bootstrap logging before the arguments are known. */
  const BootstrapLevel: Level := Error

  /**
   * The tier picked after parsing from the count of verbose flags: two or more
   * give Debug, exactly one gives Info, none gives Warn. The bootstrap level is
   * never picked, so user output is never quieter than warnings.
   */
  function LevelFor(verboseCount: nat): (l: Level)
    ensures l == Debug <==> verboseCount > 1
    ensures l == Info <==> verboseCount == 1
    ensures l == Warn <==> verboseCount == 0
    ensures Rank(BootstrapLevel) < Rank(l)
  {
    if verboseCount > 1 then Debug
    else if verboseCount > 0 then Info
    else Warn
  }

  /** More verbose flags never make the logger quieter. */
  lemma LevelForMonotone(a: nat, b: nat)
    requires a <= b
    ensures Rank(LevelFor(a)) <= Rank(LevelFor(b))
  {
  }
}
