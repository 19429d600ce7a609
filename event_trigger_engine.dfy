/**
  The plug-in and its incoming interface: the trigger gate that runs the
  watch once, for the first record accepted, caches whether it timed out and
  routes that record and every later one to the normal output or to the
  error output accordingly.

  Records are opaque values of type R; the two output anchors are the
  sequences of records pushed to them. Engine messages are kept as the
  sequence of configuration errors reported and the sequence of watch
  outcomes announced.
 */
module EventTriggerEngine {
  import opened Wrappers
  import opened Paths
  import opened Snapshots
  import opened WatchLoop
  import opened Validation

  /** The options a watch needs are present: the folder and the file
      specification in folder mode, the file in single-file mode. */
  predicate Ready(o: Options) {
    if IsFolderMode(o.eventType) then o.monitorDir.Some? && o.filespec.Some? else o.monitorFile.Some?
  }

  /** The event kinds the watch reacts to. */
  function MaskOf(o: Options): Interest {
    Interest(o.additions, o.deletions, o.changes)
  }

  /** The directory and pattern to watch. */
  function TargetOf(o: Options): WatchTarget
    requires Ready(o)
  {
    if IsFolderMode(o.eventType) then WatchTarget(o.monitorDir.value, o.filespec.value)
    else WatchTarget(Dirname(o.monitorFile.value), Basename(o.monitorFile.value))
  }

  /** Folder mode watches the configured folder with the file specification.
      Single-file mode splits the file at its last separator: the pattern is
      the part after it, holding no separator, and the directory is the part
      before it with its run of trailing separators dropped, empty exactly
      when the file name holds no separator. */
  lemma TargetSplit(o: Options)
    requires Ready(o)
    ensures IsFolderMode(o.eventType) ==> TargetOf(o) == WatchTarget(o.monitorDir.value, o.filespec.value)
    ensures !IsFolderMode(o.eventType) ==>
      var f, t := o.monitorFile.value, TargetOf(o);
      && |t.dir| + |t.pattern| <= |f|
      && NoSep(t.pattern)
      && f[|f| - |t.pattern|..] == t.pattern
      && (|t.pattern| == |f| || IsSep(f[|f| - |t.pattern| - 1]))
      && f[..|t.dir|] == t.dir
      && AllSep(f[|t.dir|..|f| - |t.pattern|])
      && (t.dir == [] <==> NoSep(f))
  {
    if !IsFolderMode(o.eventType) {
      var f := o.monitorFile.value;
      assert TargetOf(o) == WatchTarget(Dirname(f), Basename(f));
      BasenameParts(f);
      DirnameParts(f);
    }
  }

  class Plugin<R> {
    var eventType: Option<string>
    var eventFolder: Option<string>
    var eventFilespec: Option<string>
    var eventFile: Option<string>
    var eventTimeout: int
    var eventAdditions: bool
    var eventDeletions: bool
    var eventChanges: bool

    /** True until the first record has been accepted. */
    var firstRecord: bool
    /** Cleared by every reported configuration error. */
    var isInitialized: bool

    /** The records pushed to the "Output" and "Error" anchors. */
    var output: seq<R>
    var errorOutput: seq<R>

    /** The configuration errors reported to the engine. */
    var errorMessages: seq<ConfigError>
    /** The watch outcomes announced to the engine. */
    var outcomeNotices: seq<Outcome>

    /** An initialised plug-in can start a watch. */
    predicate Valid()
      reads this
    {
      isInitialized ==> Ready(Config())
    }

    constructor ()
      ensures eventType.None? && eventFolder.None? && eventFilespec.None? && eventFile.None?
      ensures !eventAdditions && !eventDeletions && !eventChanges
      ensures firstRecord && isInitialized
      ensures output == [] && errorOutput == [] && errorMessages == [] && outcomeNotices == []
    {
      eventType, eventFolder, eventFilespec, eventFile := None, None, None, None;
      eventTimeout := 0;
      eventAdditions, eventDeletions, eventChanges := false, false, false;
      firstRecord, isInitialized := true, true;
      output, errorOutput := [], [];
      errorMessages, outcomeNotices := [], [];
    }

    /** Reports a configuration error and marks the plug-in uninitialised. */
    method DisplayErrorMsg(e: ConfigError)
      modifies this`errorMessages, this`isInitialized
      ensures errorMessages == old(errorMessages) + [e]
      ensures !isInitialized
    {
      errorMessages := errorMessages + [e];
      isInitialized := false;
    }

    /** The options the plug-in currently holds. */
    function Config(): Options
      reads this
    {
      Options(eventType, eventFolder, eventFilespec, eventFile,
              eventAdditions, eventDeletions, eventChanges, eventTimeout)
    }

    /** Takes the parsed options and runs the validity checks. */
    method Init(o: Options, pathExists: string -> bool)
      modifies this`eventType, this`eventFolder, this`eventFilespec, this`eventFile, this`eventTimeout
      modifies this`eventAdditions, this`eventDeletions, this`eventChanges
      modifies this`errorMessages, this`isInitialized
      ensures Config() == o
      ensures errorMessages == old(errorMessages) + Validate(o, pathExists)
      ensures isInitialized == (old(isInitialized) && Validate(o, pathExists) == [])
      ensures Valid()
    {
      eventType, eventFolder, eventFilespec, eventFile := o.eventType, o.monitorDir, o.filespec, o.monitorFile;
      eventAdditions, eventDeletions, eventChanges := o.additions, o.deletions, o.changes;
      eventTimeout := o.timeout;
      CheckPaths(pathExists);
      if !eventAdditions && !eventDeletions && !eventChanges {
        DisplayErrorMsg(NoEventKind);
      }
    }

    /** The folder-mode and single-file-mode path checks: the first one that
        fails is reported. */
    method CheckPaths(pathExists: string -> bool)
      modifies this`errorMessages, this`isInitialized
      ensures errorMessages == old(errorMessages) + PathErrors(Config(), pathExists)
      ensures isInitialized == (old(isInitialized) && PathErrors(Config(), pathExists) == [])
    {
      if IsFolderMode(eventType) {
        if eventFolder.None? {
          DisplayErrorMsg(NoFolder);
        } else if !pathExists(eventFolder.value) {
          DisplayErrorMsg(FolderMissing(eventFolder.value));
        } else if eventFilespec.None? {
          DisplayErrorMsg(NoFilespec);
        }
      } else {
        if eventFile.None? {
          DisplayErrorMsg(NoFile);
        } else if !pathExists(Dirname(eventFile.value)) {
          DisplayErrorMsg(FileFolderMissing(Dirname(eventFile.value)));
        }
      }
    }
  }

  class Incoming<R> {
    const parent: Plugin<R>
    /** Starts true; cleared only when the watch fires. */
    var timedOut: bool

    /** The cached outcome is a timeout until the watch has run. */
    predicate Valid()
      reads this, parent
    {
      parent.Valid() && (parent.firstRecord ==> timedOut)
    }

    constructor (p: Plugin<R>)
      ensures parent == p && timedOut
    {
      parent := p;
      timedOut := true;
    }

    /** The watch run for the first accepted record: it resolves the watch
        target, runs the loop, caches whether it timed out and announces the
        outcome. */
    method WatchOnce(fs: Listing)
      requires Ready(parent.Config()) && timedOut
      modifies this`timedOut, parent`eventFilespec, parent`outcomeNotices
      ensures Ready(parent.Config())
      ensures var r := var o := old(parent.Config()); WatchOutcome(fs, TargetOf(o), MaskOf(o), o.timeout);
        && timedOut == r.outcome.TimedOut?
        && parent.outcomeNotices == old(parent.outcomeNotices) + [r.outcome]
      ensures parent.eventFilespec == (if IsFolderMode(parent.eventType) then old(parent.eventFilespec)
                                       else Some(Basename(parent.eventFile.value)))
    {
      var pathToWatch: string;
      if IsFolderMode(parent.eventType) {
        pathToWatch := parent.eventFolder.value;
      } else {
        pathToWatch := Dirname(parent.eventFile.value);
        parent.eventFilespec := Some(Basename(parent.eventFile.value));
      }
      var outcome, cycles, progress := Watch(fs, WatchTarget(pathToWatch, parent.eventFilespec.value),
                                             MaskOf(parent.Config()), parent.eventTimeout);
      if outcome.Triggered? {
        timedOut := false;
      }
      parent.outcomeNotices := parent.outcomeNotices + [outcome];
    }

    /** Handles one incoming record. `updateOnly` is the engine's
        "UpdateOnly" run flag and `fs` the filesystem. */
    method PushRecord(rec: R, updateOnly: bool, fs: Listing) returns (accepted: bool)
      requires Valid()
      modifies this`timedOut, parent`firstRecord, parent`eventFilespec
      modifies parent`output, parent`errorOutput, parent`outcomeNotices
      ensures Valid()
      ensures accepted == (!updateOnly && parent.isInitialized)
      // A rejected record changes nothing.
      ensures !accepted ==>
        && timedOut == old(timedOut) && parent.firstRecord == old(parent.firstRecord)
        && parent.eventFilespec == old(parent.eventFilespec)
        && parent.output == old(parent.output) && parent.errorOutput == old(parent.errorOutput)
        && parent.outcomeNotices == old(parent.outcomeNotices)
      ensures accepted ==> !parent.firstRecord
      // The first accepted record runs the watch once and caches its outcome.
      ensures accepted && old(parent.firstRecord) ==>
        var r := var o := old(parent.Config()); WatchOutcome(fs, TargetOf(o), MaskOf(o), o.timeout);
        && timedOut == r.outcome.TimedOut?
        && parent.outcomeNotices == old(parent.outcomeNotices) + [r.outcome]
        && parent.eventFilespec == (if IsFolderMode(parent.eventType) then old(parent.eventFilespec)
                                    else Some(Basename(parent.eventFile.value)))
      // Every later record reuses the cached outcome without polling.
      ensures accepted && !old(parent.firstRecord) ==>
        && timedOut == old(timedOut)
        && parent.eventFilespec == old(parent.eventFilespec)
        && parent.outcomeNotices == old(parent.outcomeNotices)
      // An accepted record goes to exactly one output, chosen by the cache.
      ensures accepted && timedOut ==>
        parent.errorOutput == old(parent.errorOutput) + [rec] && parent.output == old(parent.output)
      ensures accepted && !timedOut ==>
        parent.output == old(parent.output) + [rec] && parent.errorOutput == old(parent.errorOutput)
      ensures !old(timedOut) ==> !timedOut
    {
      if updateOnly || !parent.isInitialized {
        return false;
      }

      if parent.firstRecord {
        WatchOnce(fs);
      }
      parent.firstRecord := false;
      Route(rec);
      accepted := true;
    }

    /** Sends a record to the anchor the cached outcome chose: "Error" after
        a timeout, "Output" after a trigger. */
    method Route(rec: R)
      modifies parent`output, parent`errorOutput
      ensures timedOut ==> parent.errorOutput == old(parent.errorOutput) + [rec] && parent.output == old(parent.output)
      ensures !timedOut ==> parent.output == old(parent.output) + [rec] && parent.errorOutput == old(parent.errorOutput)
    {
      if timedOut {
        parent.errorOutput := parent.errorOutput + [rec];
      } else {
        parent.output := parent.output + [rec];
      }
    }
  }

  /** Pushes the records after the first one, in order: each is accepted or
      rejected exactly as the first was, and the accepted ones all go to the
      output the cached outcome chose, without another watch. */
  method PushRest<R>(input: Incoming<R>, records: seq<R>, updateOnly: bool, fs: Listing)
    requires input.Valid()
    requires !updateOnly && input.parent.isInitialized ==> !input.parent.firstRecord
    modifies input`timedOut, input.parent`firstRecord, input.parent`eventFilespec
    modifies input.parent`output, input.parent`errorOutput, input.parent`outcomeNotices
    ensures input.Valid()
    ensures input.timedOut == old(input.timedOut)
    ensures input.parent.firstRecord == old(input.parent.firstRecord)
    ensures input.parent.eventFilespec == old(input.parent.eventFilespec)
    ensures input.parent.outcomeNotices == old(input.parent.outcomeNotices)
    ensures updateOnly || !input.parent.isInitialized ==>
      input.parent.output == old(input.parent.output) && input.parent.errorOutput == old(input.parent.errorOutput)
    ensures !updateOnly && input.parent.isInitialized && input.timedOut ==>
      input.parent.errorOutput == old(input.parent.errorOutput) + records
      && input.parent.output == old(input.parent.output)
    ensures !updateOnly && input.parent.isInitialized && !input.timedOut ==>
      input.parent.output == old(input.parent.output) + records
      && input.parent.errorOutput == old(input.parent.errorOutput)
  {
    var plugin := input.parent;
    var i := 0;
    while i < |records|
      invariant 0 <= i <= |records|
      invariant input.Valid()
      invariant input.timedOut == old(input.timedOut)
      invariant plugin.firstRecord == old(plugin.firstRecord)
      invariant plugin.eventFilespec == old(plugin.eventFilespec)
      invariant plugin.outcomeNotices == old(plugin.outcomeNotices)
      invariant updateOnly || !plugin.isInitialized ==>
        plugin.output == old(plugin.output) && plugin.errorOutput == old(plugin.errorOutput)
      invariant !updateOnly && plugin.isInitialized && input.timedOut ==>
        plugin.errorOutput == old(plugin.errorOutput) + records[..i] && plugin.output == old(plugin.output)
      invariant !updateOnly && plugin.isInitialized && !input.timedOut ==>
        plugin.output == old(plugin.output) + records[..i] && plugin.errorOutput == old(plugin.errorOutput)
    {
      var _ := input.PushRecord(records[i], updateOnly, fs);
      assert records[..i + 1] == records[..i] + [records[i]];
      i := i + 1;
    }
    assert records[..|records|] == records;
  }

  /** The start of one pipeline execution: a fresh plug-in is initialised
      with the options, its input is connected and the first record pushed. */
  method StartRun<R>(o: Options, pathExists: string -> bool, updateOnly: bool, fs: Listing, first: R)
    returns (input: Incoming<R>)
    ensures fresh(input) && fresh(input.parent) && input.Valid()
    ensures input.parent.isInitialized == (Validate(o, pathExists) == [])
    ensures updateOnly || Validate(o, pathExists) != [] ==>
      input.parent.output == [] && input.parent.errorOutput == [] && input.parent.outcomeNotices == []
    ensures !updateOnly && Validate(o, pathExists) == [] ==>
      var r := WatchOutcome(fs, TargetOf(o), MaskOf(o), o.timeout);
      && !input.parent.firstRecord
      && input.parent.outcomeNotices == [r.outcome]
      && input.timedOut == r.outcome.TimedOut?
      && (if r.outcome.TimedOut? then input.parent.output == [] && input.parent.errorOutput == [first]
          else input.parent.output == [first] && input.parent.errorOutput == [])
  {
    var plugin := new Plugin<R>();
    plugin.Init(o, pathExists);
    input := new Incoming<R>(plugin);
    var _ := input.PushRecord(first, updateOnly, fs);
  }

  /** One pipeline execution: initialise the plug-in, connect its input and
      push the records in order. Either nothing is routed, or every record,
      in order, goes to the one output the single watch chose. */
  method RunPipeline<R>(o: Options, pathExists: string -> bool, updateOnly: bool, fs: Listing, records: seq<R>)
    returns (output: seq<R>, errorOutput: seq<R>, notices: seq<Outcome>)
    ensures updateOnly || Validate(o, pathExists) != [] ==> output == [] && errorOutput == [] && notices == []
    ensures !updateOnly && Validate(o, pathExists) == [] && records != [] ==>
      var r := WatchOutcome(fs, TargetOf(o), MaskOf(o), o.timeout);
      && notices == [r.outcome]
      && (if r.outcome.TimedOut? then output == [] && errorOutput == records
          else output == records && errorOutput == [])
    ensures records == [] ==> output == [] && errorOutput == [] && notices == []
  {
    if records == [] {
      return [], [], [];
    }
    var input := StartRun(o, pathExists, updateOnly, fs, records[0]);
    PushRest(input, records[1..], updateOnly, fs);
    assert records == [records[0]] + records[1..];
    output, errorOutput, notices := input.parent.output, input.parent.errorOutput, input.parent.outcomeNotices;
  }

  /** Single-file mode on "/data/report.csv" watches exactly what folder mode
      on "/data" with pattern "report.csv" watches. */
  lemma SingleFileLikeFolder(o1: Options, o2: Options)
    requires o1.eventType == Some("event_file") && o1.monitorFile == Some("/data/report.csv")
    requires o2.eventType == Some("event_folder") && o2.monitorDir == Some("/data")
    requires o2.filespec == Some("report.csv")
    ensures TargetOf(o1) == TargetOf(o2)
  {
    ReportCsvSplit();
  }
}
