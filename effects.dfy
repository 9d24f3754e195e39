/**
 * The observable steps of one invocation, in the order they happen: logger
 * (re-)initialisation, calls into collaborators that are not modelled, and the
 * messages that end a failed run. Operations return the steps they take, so
 * that their order can be stated and proved.
 */
module Effects {
  import opened Registry
  import opened Logging

  datatype Event =
    | InitLogger(level: Level)                            // utils.InitLogger with a level
    | ParseCommandLine                                    // the flag parser runs over the raw arguments
    | LoadIniFile(path: string)                           // the flag parser loads options from an INI file
    | UpdateConfig(kind: CommandKind, args: seq<string>)  // a command validates its leftover arguments
    | ReportUsage                                         // parse error and help text are printed
    | UpdateImportPath                                    // the application import path is resolved
    | FatalNoAppPath                                      // "Unable to determine application path"
    | InitGoPaths                                         // the go paths are set up
    | InitPackageResolver                                 // the package resolver is set up
    | RunWith(kind: CommandKind)                          // the selected command runs
    | ReportRunError                                      // "Unable to execute" is logged
}
