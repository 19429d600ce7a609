/**
  The watch loop: take an initial snapshot, then poll every `Polling` time
  units, diff each new snapshot against the previous one, and stop on the
  first cycle where an event kind the caller is interested in is non-empty,
  or once the accumulated progress reaches the timeout.

  The filesystem is a `Listing`: poll i of a target yields its i-th snapshot
  (poll 0 is the initial one), already filtered by the target's pattern.
 */
module WatchLoop {
  import opened Wrappers
  import opened Snapshots

  /** The fixed polling interval, in seconds. */
  const Polling: int := 5

  datatype Kind = Addition | Deletion | Change

  /** Which event kinds the caller reacts to. */
  datatype Interest = Interest(additions: bool, deletions: bool, changes: bool)

  /** The event a single cycle fires. */
  datatype Event = Event(kind: Kind, names: set<string>)

  /** The single resolved result of one watch. */
  datatype Outcome = Triggered(kind: Kind, names: set<string>) | TimedOut

  /** The outcome together with the number of polls after the initial
      snapshot. */
  datatype WatchResult = WatchResult(outcome: Outcome, cycles: nat)

  /** The watched directory and the file-name pattern. */
  datatype WatchTarget = WatchTarget(dir: string, pattern: string)

  type Listing = (WatchTarget, nat) -> Snapshot

  predicate Enabled(mask: Interest, k: Kind) {
    match k
    case Addition => mask.additions
    case Deletion => mask.deletions
    case Change => mask.changes
  }

  /** The diff class an event kind reacts to. */
  function DiffOf(k: Kind, before: Snapshot, after: Snapshot): set<string> {
    match k
    case Addition => Added(before, after)
    case Deletion => Removed(before, after)
    case Change => Changed(before, after)
  }

  /** Position of a kind in the order the cycle checks them. */
  function Rank(k: Kind): nat {
    match k
    case Addition => 0
    case Deletion => 1
    case Change => 2
  }

  /** The decision of one polling cycle: the first enabled kind, in the order
      additions, deletions, changes, whose diff class is non-empty. */
  function CycleEvent(mask: Interest, before: Snapshot, after: Snapshot): (r: Option<Event>)
    ensures r.Some? ==> Enabled(mask, r.value.kind)
    ensures r.Some? ==> r.value.names == DiffOf(r.value.kind, before, after) != {}
    ensures r.Some? ==> forall k :: Rank(k) < Rank(r.value.kind) && Enabled(mask, k) ==> DiffOf(k, before, after) == {}
    ensures r.None? <==> forall k :: Enabled(mask, k) ==> DiffOf(k, before, after) == {}
  {
    if mask.additions && Added(before, after) != {} then Some(Event(Addition, Added(before, after)))
    else if mask.deletions && Removed(before, after) != {} then Some(Event(Deletion, Removed(before, after)))
    else if mask.changes && Changed(before, after) != {} then Some(Event(Change, Changed(before, after)))
    else None
  }

  /** The watch after k non-triggering cycles: progress is Polling * k and the
      previous snapshot is poll k. It ends with a timeout once progress has
      reached the timeout, and only then, and otherwise with a trigger on a
      later poll made while progress was still below the timeout. */
  function WatchFrom(fs: Listing, t: WatchTarget, mask: Interest, timeout: int, k: nat): (r: WatchResult)
    ensures k <= r.cycles
    ensures r.outcome.TimedOut? ==> timeout <= Polling * r.cycles
    ensures r.outcome.TimedOut? && k < r.cycles ==> Polling * (r.cycles - 1) < timeout
    ensures r.outcome.Triggered? ==> k < r.cycles && Polling * (r.cycles - 1) < timeout
    decreases if Polling * k < timeout then timeout - Polling * k else 0
  {
    if Polling * k >= timeout then WatchResult(TimedOut, k)
    else match CycleEvent(mask, fs(t, k), fs(t, k + 1))
      case Some(e) => WatchResult(Triggered(e.kind, e.names), k + 1)
      case None => WatchFrom(fs, t, mask, timeout, k + 1)
  }

  /** The number of polls a watch that never fires performs: the timeout
      divided by the interval, rounded up, and none for a timeout <= 0. */
  function PollCount(timeout: int): (n: nat)
    ensures timeout <= 0 ==> n == 0
    ensures timeout > 0 ==> n >= 1 && Polling * (n - 1) < timeout <= Polling * n
  {
    if timeout <= 0 then 0 else (timeout + Polling - 1) / Polling
  }

  /** The whole watch, from the initial snapshot: a timeout comes after
      exactly PollCount(timeout) polls, a trigger on one of the first
      PollCount(timeout) polls. */
  function WatchOutcome(fs: Listing, t: WatchTarget, mask: Interest, timeout: int): (r: WatchResult)
    ensures r.outcome.TimedOut? ==> r.cycles == PollCount(timeout)
    ensures r.outcome.Triggered? ==> 1 <= r.cycles <= PollCount(timeout)
  {
    WatchFrom(fs, t, mask, timeout, 0)
  }

  /** No cycle comparing poll j with poll j + 1, for lo <= j < hi, fires. */
  predicate Quiet(fs: Listing, t: WatchTarget, mask: Interest, lo: nat, hi: nat) {
    forall j :: lo <= j < hi ==> CycleEvent(mask, fs(t, j), fs(t, j + 1)).None?
  }

  /** From cycle k on, every cycle before the last one is quiet. */
  lemma {:induction false} WatchFromQuiet(fs: Listing, t: WatchTarget, mask: Interest, timeout: int, k: nat)
    ensures var r := WatchFrom(fs, t, mask, timeout, k);
      Quiet(fs, t, mask, k, if r.outcome.TimedOut? then r.cycles else r.cycles - 1)
    decreases if Polling * k < timeout then timeout - Polling * k else 0
  {
    if Polling * k < timeout && CycleEvent(mask, fs(t, k), fs(t, k + 1)).None? {
      var r := WatchFrom(fs, t, mask, timeout, k + 1);
      assert WatchFrom(fs, t, mask, timeout, k) == r;
      WatchFromQuiet(fs, t, mask, timeout, k + 1);
      QuietExtend(fs, t, mask, k, if r.outcome.TimedOut? then r.cycles else r.cycles - 1);
    }
  }

  /** A trigger fires on the last cycle of the watch, which compares the two
      latest polls. */
  lemma {:induction false} WatchFromFires(fs: Listing, t: WatchTarget, mask: Interest, timeout: int, k: nat)
    ensures var r := WatchFrom(fs, t, mask, timeout, k);
      r.outcome.Triggered? ==>
        CycleEvent(mask, fs(t, r.cycles - 1), fs(t, r.cycles)) == Some(Event(r.outcome.kind, r.outcome.names))
    decreases if Polling * k < timeout then timeout - Polling * k else 0
  {
    if Polling * k < timeout {
      match CycleEvent(mask, fs(t, k), fs(t, k + 1))
      case Some(e) =>
        assert WatchFrom(fs, t, mask, timeout, k) == WatchResult(Triggered(e.kind, e.names), k + 1);
        assert e == Event(e.kind, e.names);
      case None =>
        assert WatchFrom(fs, t, mask, timeout, k) == WatchFrom(fs, t, mask, timeout, k + 1);
        WatchFromFires(fs, t, mask, timeout, k + 1);
    }
  }

  /** A quiet cycle k in front of a quiet stretch from k + 1 on. */
  lemma QuietExtend(fs: Listing, t: WatchTarget, mask: Interest, k: nat, hi: nat)
    requires CycleEvent(mask, fs(t, k), fs(t, k + 1)).None?
    requires Quiet(fs, t, mask, k + 1, hi)
    ensures Quiet(fs, t, mask, k, hi)
  {
  }

  /** None of the polls of a watch that times out fired. */
  lemma TimeoutPolls(fs: Listing, t: WatchTarget, mask: Interest, timeout: int)
    requires WatchOutcome(fs, t, mask, timeout).outcome.TimedOut?
    ensures Quiet(fs, t, mask, 0, WatchOutcome(fs, t, mask, timeout).cycles)
  {
    WatchFromQuiet(fs, t, mask, timeout, 0);
  }

  /** A watch that triggers fired on its last poll n, on an enabled kind with
      non-empty names, comparing poll n with the one just before it; no
      earlier cycle fired. */
  lemma TriggerPoll(fs: Listing, t: WatchTarget, mask: Interest, timeout: int)
    requires WatchOutcome(fs, t, mask, timeout).outcome.Triggered?
    ensures var r := WatchOutcome(fs, t, mask, timeout);
      && Quiet(fs, t, mask, 0, r.cycles - 1)
      && CycleEvent(mask, fs(t, r.cycles - 1), fs(t, r.cycles)) == Some(Event(r.outcome.kind, r.outcome.names))
      && Enabled(mask, r.outcome.kind)
      && r.outcome.names != {}
  {
    WatchFromQuiet(fs, t, mask, timeout, 0);
    WatchFromFires(fs, t, mask, timeout, 0);
  }

  /** The watch times out exactly when none of the first PollCount(timeout)
      cycles fires. */
  lemma TimeoutIffQuiet(fs: Listing, t: WatchTarget, mask: Interest, timeout: int)
    ensures WatchOutcome(fs, t, mask, timeout).outcome.TimedOut? <==> Quiet(fs, t, mask, 0, PollCount(timeout))
  {
    var r := WatchOutcome(fs, t, mask, timeout);
    if r.outcome.TimedOut? {
      TimeoutPolls(fs, t, mask, timeout);
    } else {
      TriggerPoll(fs, t, mask, timeout);
      assert !CycleEvent(mask, fs(t, r.cycles - 1), fs(t, r.cycles)).None?;
    }
  }

  /** A timeout no longer than one interval gets exactly one poll, and the
      watch's outcome is decided by the first cycle alone. */
  lemma ShortTimeoutOnePoll(fs: Listing, t: WatchTarget, mask: Interest, timeout: int)
    requires 0 < timeout <= Polling
    ensures WatchOutcome(fs, t, mask, timeout).cycles == 1
    ensures WatchOutcome(fs, t, mask, timeout).outcome
            == match CycleEvent(mask, fs(t, 0), fs(t, 1))
               case Some(e) => Triggered(e.kind, e.names)
               case None => TimedOut
  {
  }

  /** The watch loop as the plug-in runs it: `before` is replaced by `after`
      and progress grows by Polling only after a cycle that does not fire. */
  method Watch(fs: Listing, t: WatchTarget, mask: Interest, timeout: int)
    returns (outcome: Outcome, cycles: nat, progress: int)
    ensures WatchResult(outcome, cycles) == WatchOutcome(fs, t, mask, timeout)
    ensures outcome.TimedOut? ==> progress == Polling * cycles && timeout <= progress
    ensures outcome.Triggered? ==> progress == Polling * (cycles - 1) && progress < timeout
  {
    var before := fs(t, 0);
    outcome, cycles, progress := TimedOut, 0, 0;
    while progress < timeout
      invariant progress == Polling * cycles
      invariant before == fs(t, cycles)
      invariant WatchFrom(fs, t, mask, timeout, cycles) == WatchOutcome(fs, t, mask, timeout)
      decreases timeout - progress
    {
      var after := fs(t, cycles + 1);
      var added := Added(before, after);
      var removed := Removed(before, after);
      var changed := Changed(before, after);
      if mask.additions && added != {} {
        outcome, cycles := Triggered(Addition, added), cycles + 1;
        return;
      }
      if mask.deletions && removed != {} {
        outcome, cycles := Triggered(Deletion, removed), cycles + 1;
        return;
      }
      if mask.changes && changed != {} {
        outcome, cycles := Triggered(Change, changed), cycles + 1;
        return;
      }
      before := after;
      progress := progress + Polling;
      cycles := cycles + 1;
    }
  }

  /** A directory holding a.txt, watched for additions with timeout 10:
      b.txt appearing by the second poll triggers on that poll. */
  lemma AdditionExample(fs: Listing, t: WatchTarget)
    requires fs(t, 0) == map["a.txt" := 1] && fs(t, 1) == map["a.txt" := 1]
    requires fs(t, 2) == map["a.txt" := 1, "b.txt" := 7]
    ensures WatchOutcome(fs, t, Interest(true, false, false), 10)
            == WatchResult(Triggered(Addition, {"b.txt"}), 2)
  {
    var mask := Interest(true, false, false);
    assert Added(fs(t, 0), fs(t, 1)) == {};
    assert Added(fs(t, 1), fs(t, 2)) == {"b.txt"};
    assert WatchFrom(fs, t, mask, 10, 0) == WatchFrom(fs, t, mask, 10, 1);
  }

  /** With only additions of interest, a removal never fires. */
  lemma RemovalIgnoredWithoutInterest(fs: Listing, t: WatchTarget)
    requires fs(t, 0) == map["a.txt" := 1] && fs(t, 1) == map[] && fs(t, 2) == map[]
    ensures WatchOutcome(fs, t, Interest(true, false, false), 10) == WatchResult(TimedOut, 2)
  {
    var mask := Interest(true, false, false);
    assert Added(fs(t, 0), fs(t, 1)) == {};
    assert Added(fs(t, 1), fs(t, 2)) == {};
    assert WatchFrom(fs, t, mask, 10, 0) == WatchFrom(fs, t, mask, 10, 1);
    assert WatchFrom(fs, t, mask, 10, 1) == WatchFrom(fs, t, mask, 10, 2);
  }
}
