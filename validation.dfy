/**
  The configuration checks the plug-in runs when it is initialised: in folder
  mode the folder must be given and exist and a file pattern must be given;
  in single-file mode the file must be given and its directory must exist.
  Only the first failing path check is reported. Separately, at least one
  event kind must be selected.

  Options arrive already parsed; path existence is an input predicate.
 */
module Validation {
  import opened Wrappers
  import opened Paths

  /** The parsed tool options; an absent event-kind flag reads as false. */
  datatype Options = Options(
    eventType: Option<string>,
    monitorDir: Option<string>,
    filespec: Option<string>,
    monitorFile: Option<string>,
    additions: bool,
    deletions: bool,
    changes: bool,
    timeout: int)

  datatype ConfigError =
    | NoFolder
    | FolderMissing(folder: string)
    | NoFilespec
    | NoFile
    | FileFolderMissing(folder: string)
    | NoEventKind

  /** Any event type other than "event_folder" selects single-file mode. */
  predicate IsFolderMode(eventType: Option<string>) {
    eventType == Some("event_folder")
  }

  /** The paths are usable: what the plug-in needs to start a watch. */
  predicate PathsOk(o: Options, pathExists: string -> bool) {
    if IsFolderMode(o.eventType) then
      o.monitorDir.Some? && pathExists(o.monitorDir.value) && o.filespec.Some?
    else
      o.monitorFile.Some? && pathExists(Dirname(o.monitorFile.value))
  }

  predicate AnyEventKind(o: Options) {
    o.additions || o.deletions || o.changes
  }

  /** Why an error is reported: its own check fails and every check before
      it in the chain passed. */
  predicate Explains(e: ConfigError, o: Options, pathExists: string -> bool) {
    match e
    case NoFolder => IsFolderMode(o.eventType) && o.monitorDir.None?
    case FolderMissing(p) => IsFolderMode(o.eventType) && o.monitorDir == Some(p) && !pathExists(p)
    case NoFilespec =>
      IsFolderMode(o.eventType) && o.monitorDir.Some? && pathExists(o.monitorDir.value) && o.filespec.None?
    case NoFile => !IsFolderMode(o.eventType) && o.monitorFile.None?
    case FileFolderMissing(p) =>
      !IsFolderMode(o.eventType) && o.monitorFile.Some? && p == Dirname(o.monitorFile.value) && !pathExists(p)
    case NoEventKind => !AnyEventKind(o)
  }

  /** The first failing path check, if any. */
  function PathError(o: Options, pathExists: string -> bool): (r: Option<ConfigError>)
    ensures r.None? <==> PathsOk(o, pathExists)
    ensures r.Some? ==> r.value != NoEventKind && Explains(r.value, o, pathExists)
  {
    if IsFolderMode(o.eventType) then
      if o.monitorDir.None? then Some(NoFolder)
      else if !pathExists(o.monitorDir.value) then Some(FolderMissing(o.monitorDir.value))
      else if o.filespec.None? then Some(NoFilespec)
      else None
    else
      if o.monitorFile.None? then Some(NoFile)
      else if !pathExists(Dirname(o.monitorFile.value)) then Some(FileFolderMissing(Dirname(o.monitorFile.value)))
      else None
  }

  /** The errors reported, in order: one path error when the paths are not
      usable, then one "no event kind" error when no kind is selected. */
  function Validate(o: Options, pathExists: string -> bool): (errs: seq<ConfigError>)
    ensures errs == [] <==> PathsOk(o, pathExists) && AnyEventKind(o)
    ensures forall i :: 0 <= i < |errs| ==> Explains(errs[i], o, pathExists)
    ensures |errs| == (if PathsOk(o, pathExists) then 0 else 1) + (if AnyEventKind(o) then 0 else 1)
    ensures !PathsOk(o, pathExists) ==> errs[0] != NoEventKind
    ensures forall i :: 0 <= i < |errs| && errs[i] != NoEventKind ==> i == 0
    ensures NoEventKind in errs <==> !AnyEventKind(o)
  {
    PathErrors(o, pathExists) + KindErrors(o)
  }

  function PathErrors(o: Options, pathExists: string -> bool): seq<ConfigError> {
    match PathError(o, pathExists)
    case Some(e) => [e]
    case None => []
  }

  function KindErrors(o: Options): seq<ConfigError> {
    if !o.additions && !o.deletions && !o.changes then [NoEventKind] else []
  }

  /** At most one path error is reported, and it is the one whose check
      comes first: two different errors cannot both explain one
      configuration. */
  lemma PathErrorsExclusive(e1: ConfigError, e2: ConfigError, o: Options, pathExists: string -> bool)
    requires e1 != NoEventKind && e2 != NoEventKind
    requires Explains(e1, o, pathExists) && Explains(e2, o, pathExists)
    ensures e1 == e2
  {
  }

  /** A missing folder is reported as such whatever the rest of the options
      say: the first check of the chain wins. */
  lemma MissingFolderWins(o: Options, pathExists: string -> bool)
    requires IsFolderMode(o.eventType) && o.monitorDir.None?
    ensures Validate(o, pathExists)[0] == NoFolder
  {
  }
}
