/**
  A snapshot maps each matching file name of the watched directory to its
  modification time. The diff of two consecutive snapshots classifies names
  as added, removed or changed; modification times are only compared for
  equality.
 */
module Snapshots {

  type Snapshot = map<string, int>

  /** Names in `after` that `before` does not have. */
  function Added(before: Snapshot, after: Snapshot): (r: set<string>)
    ensures r == after.Keys - before.Keys
  {
    set f | f in after && f !in before
  }

  /** Names in `before` that `after` no longer has. */
  function Removed(before: Snapshot, after: Snapshot): (r: set<string>)
    ensures r == before.Keys - after.Keys
  {
    set f | f in before && f !in after
  }

  /** Names in both snapshots whose modification time differs. */
  function Changed(before: Snapshot, after: Snapshot): (r: set<string>)
    ensures r <= before.Keys * after.Keys
    ensures forall f :: f in before && f in after ==> (f in r <==> before[f] != after[f])
  {
    set f | f in before && f in after && before[f] != after[f]
  }

  /** The three classes are pairwise disjoint. */
  lemma DiffDisjoint(before: Snapshot, after: Snapshot)
    ensures Added(before, after) !! Removed(before, after)
    ensures Added(before, after) !! Changed(before, after)
    ensures Removed(before, after) !! Changed(before, after)
  {
  }

  /** A name present in both snapshots with the same time is in no class. */
  lemma DiffIgnoresUntouched(before: Snapshot, after: Snapshot, f: string)
    requires f in before && f in after && before[f] == after[f]
    ensures f !in Added(before, after)
    ensures f !in Removed(before, after)
    ensures f !in Changed(before, after)
  {
  }

  /** Every name of `after` is either added or shared, and every name of
      `before` is either removed or shared. */
  lemma DiffCovers(before: Snapshot, after: Snapshot)
    ensures after.Keys == Added(before, after) + (before.Keys * after.Keys)
    ensures before.Keys == Removed(before, after) + (before.Keys * after.Keys)
  {
  }

  /** The diff is empty exactly when nothing happened between the two
      snapshots. */
  lemma DiffEmptyIff(before: Snapshot, after: Snapshot)
    ensures Added(before, after) == {} && Removed(before, after) == {} && Changed(before, after) == {}
            <==> before == after
  {
    if Added(before, after) == {} && Removed(before, after) == {} && Changed(before, after) == {} {
      assert before.Keys == after.Keys by {
        DiffCovers(before, after);
      }
      forall f | f in before
        ensures before[f] == after[f]
      {
        assert f !in Changed(before, after);
      }
    }
  }

  /** Comparing the snapshots the other way round swaps additions and
      removals and keeps the changes. */
  lemma DiffReversed(before: Snapshot, after: Snapshot)
    ensures Added(before, after) == Removed(after, before)
    ensures Removed(before, after) == Added(after, before)
    ensures Changed(before, after) == Changed(after, before)
  {
  }

  /** `after` is recovered from `before` and the diff: drop the removed
      names, and the added and changed names take their new times. */
  lemma DiffRebuilds(before: Snapshot, after: Snapshot)
    ensures after == (before - Removed(before, after))
                     + map f | f in Added(before, after) + Changed(before, after) :: after[f]
  {
    var rebuilt := (before - Removed(before, after))
                   + map f | f in Added(before, after) + Changed(before, after) :: after[f];
    assert rebuilt.Keys == after.Keys;
    forall f | f in after
      ensures rebuilt[f] == after[f]
    {
      if f in before && f !in Changed(before, after) {
        assert before[f] == after[f];
      }
    }
  }
}
