/**
 * The command registry of the revel command line tool: the enumerated command
 * kinds, the `Commands` table with its sentinel at index 0, and the short name
 * a command derives from its usage line.
 */
module Registry {
  import opened Wrappers

  /** The seven registered commands, in registration order. */
  datatype CommandKind = New | Run | Build | Package | Clean | Test | Version

  /** The enumerated value of a kind: NEW = 1, RUN = 2, ..., VERSION = 7. Zero means "no command". */
  function Ordinal(k: CommandKind): nat
  {
    match k
    case New => 1
    case Run => 2
    case Build => 3
    case Package => 4
    case Clean => 5
    case Test => 6
    case Version => 7
  }

  /** The subcommand token under which each command is registered with the flag parser. */
  function KindName(k: CommandKind): string
  {
    match k
    case New => "new"
    case Run => "run"
    case Build => "build"
    case Package => "package"
    case Clean => "clean"
    case Test => "test"
    case Version => "version"
  }

  /**
   * The registry. Entry 0 is the nil safety net, so that an index that was
   * never set cannot select a command; entries 1..7 hold the commands.
   */
  const Commands: seq<Option<CommandKind>> :=
    [None, Some(New), Some(Run), Some(Build), Some(Package), Some(Clean), Some(Test), Some(Version)]

  /**
   * The table has one entry per kind plus the sentinel, the sentinel is the only
   * empty entry, and every kind sits at its own enumerated index.
   */
  lemma RegistryShape()
    ensures |Commands| == 8 && Commands[0] == None
    ensures forall i :: 1 <= i < |Commands| ==> Commands[i].Some? && Ordinal(Commands[i].value) == i
    ensures forall k :: Commands[Ordinal(k)] == Some(k)
  {
  }

  /** Distinct kinds have distinct enumerated values and distinct names. */
  lemma KindsDistinct(j: CommandKind, k: CommandKind)
    requires j != k
    ensures Ordinal(j) != Ordinal(k)
    ensures KindName(j) != KindName(k)
  {
  }

  /** The switch of ParseArgs: the command whose registered name is `active`, if any. */
  function KindNamed(active: string): (r: Option<CommandKind>)
    ensures r.Some? ==> KindName(r.value) == active
    ensures r.None? ==> forall k :: KindName(k) != active
  {
    match active
    case "new" => Some(New)
    case "run" => Some(Run)
    case "build" => Some(Build)
    case "package" => Some(Package)
    case "clean" => Some(Clean)
    case "test" => Some(Test)
    case "version" => Some(Version)
    case _ => None
  }

  /** Position of the first occurrence of `c` in `s`, or -1 when `c` does not occur. */
  function FirstIndex(s: string, c: char): (i: int)
    ensures -1 <= i < |s|
    ensures i == -1 <==> c !in s
    ensures 0 <= i ==> s[i] == c && c !in s[..i]
  {
    if s == [] then -1
    else if s[0] == c then 0
    else
      var j := FirstIndex(s[1..], c);
      if j < 0 then -1
      else
        assert s[..j + 1] == [s[0]] + s[1..][..j];
        j + 1
  }

  /**
   * A command's short name: its usage line cut before the first space, or the
   * whole line when it has none.
   */
  function Name(usageLine: string): (name: string)
    ensures name <= usageLine
    ensures ' ' !in name
    ensures name == usageLine || usageLine[|name|] == ' '
  {
    var i := FirstIndex(usageLine, ' ');
    if i >= 0 then usageLine[..i] else usageLine
  }

  /** Cutting a line made of a space-free word and then a space (or nothing) yields the word. */
  lemma NameOfWordThenSpace(word: string, rest: string)
    requires ' ' !in word
    requires rest == [] || rest[0] == ' '
    ensures Name(word + rest) == word
  {
    var line := word + rest;
    if rest == [] {
      assert line == word;
    } else {
      var i := FirstIndex(line, ' ');
      assert line[|word|] == ' ';
      assert forall j :: 0 <= j < i ==> line[j] == line[..i][j];
      assert forall j :: 0 <= j < |word| ==> line[j] == word[j];
      assert i == |word|;
      assert line[..i] == word;
    }
  }

  /**
   * The name cut from a usage line that starts with a command's registered name,
   * followed by a space or by nothing, is exactly that name, so the switch of
   * ParseArgs selects that command.
   */
  lemma NameSelectsCommand(k: CommandKind, rest: string)
    requires rest == [] || rest[0] == ' '
    ensures KindNamed(Name(KindName(k) + rest)) == Some(k)
  {
    assert ' ' !in KindName(k) && KindNamed(KindName(k)) == Some(k) by {
      match k
      case New =>
      case Run =>
      case Build =>
      case Package =>
      case Clean =>
      case Test =>
      case Version =>
    }
    NameOfWordThenSpace(KindName(k), rest);
  }
}
