# Event Trigger, modelled in Dafny

The Event Trigger plug-in holds back the records of a pipeline until a
change happens in a watched directory, or until a timeout runs out. When the
first record arrives, the plug-in takes a snapshot of the matching files and
their modification times. It then polls every 5 seconds and diffs each new
snapshot against the one before it, giving added, removed and changed names.
It stops on the first cycle where a kind the user selected (additions,
deletions, changes) is non-empty. Additions are checked first, then
deletions, then changes. It also stops once the accumulated progress reaches
the timeout. The outcome is cached for the rest of the run. The first record
and every later one go to the "Output" anchor when the watch fired, and to
the "Error" anchor when it timed out. In single-file mode the watched
directory is the file's directory name and the pattern is its base name. At
initialisation the plug-in checks its paths and its event kinds. Any
reported problem marks it uninitialised, and an uninitialised plug-in routes
nothing.

Modules:

- `Wrappers`: `Option`.
- `Paths`: the split of a path at its last separator (`Dirname`, `Basename`).
- `Snapshots`: snapshots as `map<string, int>` and the three diff classes.
- `WatchLoop`: the decision of one cycle (`CycleEvent`). The watch as a
  recursive specification (`WatchFrom`, `WatchOutcome`). The imperative loop
  `Watch`, proved equal to that specification.
- `Validation`: the initialisation checks as a pure function (`Validate`).
- `EventTriggerEngine`: class `Plugin` (options, `firstRecord`,
  `isInitialized`, the two output anchors as sequences, the messages sent to
  the engine) and class `Incoming` (its `parent` and the cached `timedOut`),
  with `Init`, `PushRecord` and the driver `RunPipeline`. The watch target
  and the event mask are functions of the options (`TargetOf`, `MaskOf`), so
  the plug-in and the driver resolve them the same way.

The filesystem is an input function `Listing`: `fs(target, i)` is the i-th
snapshot of the target's directory. Poll 0 is the initial snapshot, and each
snapshot is already filtered by the pattern. Whether a path exists is the
input predicate `pathExists`. The engine's "UpdateOnly" flag is the
parameter `updateOnly`.

The code runs no poll when the timeout is 0 or negative: the loop condition
`progress < timeout` fails at once and the record goes to the error output.
A stricter design would always poll at least once; the model follows the
code, so `PollCount` is 0 for such timeouts. `ShortTimeoutOnePoll` shows that
a watch with any positive timeout up to one interval polls exactly once.

## Model

| member | source | states |
|---|---|---|
| `Paths.SplitPoint` | EventTrigger/EventTriggerEngine.py:154-155 | the split point lies just past a separator (or is 0), and no separator follows it |
| `Paths.TrimSeps` | EventTrigger/EventTriggerEngine.py:154 | the result is a prefix, does not end in a separator, and only separators were removed |
| `Paths.BasenameParts` | EventTrigger/EventTriggerEngine.py:155 | `Basename`, the second part of `os.path.split`: a suffix of the path holding no separator, either the whole path or preceded by a separator |
| `Paths.DirnameParts` | EventTrigger/EventTriggerEngine.py:154 | `Dirname`, as `os.path.dirname`: a prefix of the path followed only by separators up to the base name; empty exactly when the path has no separator; ends in a separator only when it is a run of separators reaching the base name |
| `Paths.ReportCsvSplit` | EventTrigger/EventTriggerEngine.py:153-155 | "/data/report.csv" is watched as directory "/data" with pattern "report.csv" |
| `Snapshots.Added` | EventTrigger/EventTriggerEngine.py:166 | the added names are exactly after's names minus before's |
| `Snapshots.Removed` | EventTrigger/EventTriggerEngine.py:167 | the removed names are exactly before's names minus after's |
| `Snapshots.Changed` | EventTrigger/EventTriggerEngine.py:168 | the changed names are shared by both snapshots, and a shared name is in the set iff its time differs |
| `Snapshots.DiffDisjoint` | EventTrigger/EventTriggerEngine.py:166-168 | added, removed and changed are pairwise disjoint |
| `Snapshots.DiffIgnoresUntouched` | EventTrigger/EventTriggerEngine.py:166-168 | a name in both snapshots with an equal time is in none of the three |
| `Snapshots.DiffCovers` | EventTrigger/EventTriggerEngine.py:166-167 | after's names are the added plus the shared ones; before's names are the removed plus the shared ones |
| `Snapshots.DiffEmptyIff` | EventTrigger/EventTriggerEngine.py:166-168 | all three classes are empty iff the two snapshots are equal |
| `Snapshots.DiffReversed` | EventTrigger/EventTriggerEngine.py:166-168 | swapping the snapshots swaps added and removed and keeps changed |
| `Snapshots.DiffRebuilds` | EventTrigger/EventTriggerEngine.py:166-168 | after equals before without the removed names, with the added and changed names taking their new times |
| `WatchLoop.CycleEvent` | EventTrigger/EventTriggerEngine.py:170-181 | a cycle fires only on an enabled kind with a non-empty class, whose names it reports; every enabled kind checked earlier is empty; it fires nothing iff every enabled kind is empty |
| `WatchLoop.PollCount` | EventTrigger/EventTriggerEngine.py:145-146 | 0 for a timeout <= 0; otherwise the least n >= 1 with 5 * n >= timeout |
| `WatchLoop.WatchFrom` | EventTrigger/EventTriggerEngine.py:162-184 | the watch after k quiet cycles stops at a cycle count >= k; it times out only once progress 5 * cycles has reached the timeout, and at the first such count; it triggers only on a poll made while progress was still below the timeout |
| `WatchLoop.WatchOutcome` | EventTrigger/EventTriggerEngine.py:145-184 | the whole watch from progress 0: a timeout comes after exactly PollCount(timeout) polls, a trigger on poll 1 to PollCount(timeout) |
| `WatchLoop.WatchFromQuiet` | EventTrigger/EventTriggerEngine.py:162-184 | from cycle k on, no cycle before the last one fires (none at all on a timeout) |
| `WatchLoop.WatchFromFires` | EventTrigger/EventTriggerEngine.py:170-181 | a triggered watch fired on its last cycle, which compares the two latest polls, with that cycle's kind and names |
| `WatchLoop.TimeoutPolls` | EventTrigger/EventTriggerEngine.py:162-184 | none of the polls of a timed-out watch fired |
| `WatchLoop.TriggerPoll` | EventTrigger/EventTriggerEngine.py:162-184 | a triggered watch fired on its last poll n, comparing poll n with poll n - 1, on an enabled kind with names; all earlier cycles were quiet |
| `WatchLoop.TimeoutIffQuiet` | EventTrigger/EventTriggerEngine.py:162-184 | the watch times out iff none of its first PollCount(timeout) cycles fires |
| `WatchLoop.ShortTimeoutOnePoll` | EventTrigger/EventTriggerEngine.py:145-184 | a watch with a timeout between 1 and the 5-second interval polls exactly once, and its outcome is the first cycle's event or a timeout |
| `WatchLoop.Watch` | EventTrigger/EventTriggerEngine.py:145-184 | the loop computes the outcome and poll count of WatchOutcome; progress is 5 per quiet cycle, reaches the timeout on a timeout and stays below it on a trigger |
| `WatchLoop.AdditionExample` | EventTrigger/EventTriggerEngine.py:160-181 | with a.txt present and b.txt appearing by poll 2, an additions-only watch with timeout 10 triggers Added {b.txt} on poll 2 |
| `WatchLoop.RemovalIgnoredWithoutInterest` | EventTrigger/EventTriggerEngine.py:170-184 | with only additions selected, a removal never fires and the watch times out after 2 polls |
| `Validation.PathError` | EventTrigger/EventTriggerEngine.py:60-71 | no path error iff the paths are usable; a reported error's own check failed and every check before it passed |
| `Validation.Validate` | EventTrigger/EventTriggerEngine.py:60-74 | no error iff the paths are usable and some kind is selected; every error explains the options; exactly one path error when the paths are unusable, and it comes first; exactly one "no event kind" error, iff no kind is selected |
| `Validation.PathErrorsExclusive` | EventTrigger/EventTriggerEngine.py:60-71 | two path errors that both explain one configuration are the same error |
| `Validation.MissingFolderWins` | EventTrigger/EventTriggerEngine.py:60-62 | in folder mode a missing folder is the first error, whatever else is wrong |
| `EventTriggerEngine.TargetSplit` | EventTrigger/EventTriggerEngine.py:150-155 | `TargetOf`: folder mode watches the folder with the file specification; single-file mode watches the file split at its last separator: a pattern that is the separator-free suffix after it, and a directory that is the prefix before it with its trailing separators dropped, empty iff the file name has no separator |
| `EventTriggerEngine.Plugin.constructor` | EventTrigger/EventTriggerEngine.py:13-26 | options start absent and false, first_record and is_initialized start true, nothing has been output |
| `EventTriggerEngine.Plugin.DisplayErrorMsg` | EventTrigger/EventTriggerEngine.py:92-94 | the error is reported and is_initialized becomes false |
| `EventTriggerEngine.Plugin.Init` | EventTrigger/EventTriggerEngine.py:59-74 | the plug-in holds the options, reports exactly Validate's errors, and stays initialised iff there are none |
| `EventTriggerEngine.Plugin.CheckPaths` | EventTrigger/EventTriggerEngine.py:60-71 | the if/elif chain reports exactly PathError's error, if any, and clears is_initialized when it does |
| `EventTriggerEngine.Incoming.constructor` | EventTrigger/EventTriggerEngine.py:100-108 | the cached timedout starts true |
| `EventTriggerEngine.Incoming.PushRecord` | EventTrigger/EventTriggerEngine.py:136-197 | returns true iff not UpdateOnly and initialised; a rejected record changes nothing; the first accepted record runs the watch once, caches timedout = WatchOutcome is TimedOut, and in single-file mode sets the pattern to the base name; later records reuse the cache; each accepted record goes to exactly one anchor, Error iff timedout; timedout never returns to true |
| `EventTriggerEngine.Incoming.Route` | EventTrigger/EventTriggerEngine.py:192-195 | a record is appended to Error when timedout is set and to Output otherwise, and the other anchor is unchanged |
| `EventTriggerEngine.Incoming.WatchOnce` | EventTrigger/EventTriggerEngine.py:145-187 | the first record's watch resolves the target (setting the pattern to the base name in single-file mode), caches timedout = WatchOutcome is TimedOut and announces the outcome |
| `EventTriggerEngine.StartRun` | EventTrigger/EventTriggerEngine.py:141-197 | after pi_init and the first record: nothing routed if UpdateOnly or validation failed; otherwise the watch has run, its outcome is announced once, and the first record sits in Error iff it timed out |
| `EventTriggerEngine.PushRest` | EventTrigger/EventTriggerEngine.py:189-197 | later records are accepted or rejected as the first was, never re-run the watch or change the pattern, and are appended in order to the anchor the cached timedout chose |
| `EventTriggerEngine.RunPipeline` | EventTrigger/EventTriggerEngine.py:141-197 | over one run, nothing is routed when UpdateOnly is set or validation failed; otherwise all records, in order, go to Error if the one watch timed out and to Output if it fired, and exactly one outcome is announced |
| `EventTriggerEngine.SingleFileLikeFolder` | EventTrigger/EventTriggerEngine.py:150-155 | single-file mode on /data/report.csv watches the same target as folder mode on /data with pattern report.csv |

## Left out

- Directory listing, modification times and `fnmatch` filtering are I/O and library code (lines 160, 164). They are the input `Listing`, whose snapshots come pre-filtered. No error on listing is modelled, because the code has no handling around these calls.
- `time.sleep` (line 163) is wall-clock blocking. Only the integer `progress` accounting is modelled.
- XML option parsing in `pi_init` (lines 36-56) is left out. Options arrive parsed: an absent event-kind flag is `false`, which is how the code's `None` behaves in the check at line 73. A missing timeout (`None`, which would make the loop comparison raise) is not modelled: `eventTimeout` is always an integer.
- `os.path.exists` is the input predicate `pathExists`.
- `Paths.Dirname`: only the split at the last '/' or '\\' is modelled. Drive prefixes ("C:") and other platform rules of `os.path` are left out.
- The names a trigger reports are a set. The order of the joined list in the message follows the directory listing and is left out.
- Message text and the notices about what is being watched (lines 148-158) are presentation. Only the reported configuration errors and the announced outcome are kept, as values.
- The Alteryx SDK plumbing is left out: record copier and creator, `ii_init`, anchor initialisation and closing, `ii_update_progress`, `pi_close`, `ii_close`, `pi_add_incoming_connection`, `pi_add_outgoing_connection`, `pi_push_all_records`. Records are opaque values pushed unchanged.
- `EventTriggerEngine.Incoming.PushRecord` requires `Valid()`: an initialised plug-in holds the options its watch needs. `Init` establishes this, and the engine always calls `pi_init` before pushing records. Pushing without `pi_init` fails in the code on the missing record creator, and that is not modelled.
