/**
 * The refresh-loop detector of `public/debug-tool.js`: every page load records its time
 * under the `refresh_timestamps` storage key, keeps the times of the last ten seconds,
 * and reports a loop when five or more remain, clearing the key so that counting starts
 * over. Times are milliseconds; the page's clock is a parameter.
 */
module RefreshDetection {
  import opened Wrappers
  import opened Text

  const RefreshThreshold: nat := 5
  const TimeWindowMs: int := 10000

  /** A time counts when it lies less than the window before `now`, or after it. */
  function InWindow(now: int): int -> bool
  {
    ts => now - ts < TimeWindowMs
  }

  /** The times kept by a refresh at `now`, starting from the stored list. */
  function Recent(stored: seq<int>, now: int): seq<int>
  {
    Filter(stored + [now], InWindow(now))
  }

  /**
   * The kept list is the stored one with the times outside the window dropped,
   * in order, followed by `now`.
   */
  lemma {:induction false} RecentSpec(stored: seq<int>, now: int)
    ensures Recent(stored, now) == Filter(stored, InWindow(now)) + [now]
    ensures forall k | 0 <= k < |Recent(stored, now)| :: now - Recent(stored, now)[k] < TimeWindowMs
    ensures forall ts | ts in stored + [now] :: ts in Recent(stored, now) <==> now - ts < TimeWindowMs
    ensures forall ts :: multiset(Recent(stored, now))[ts] == if now - ts < TimeWindowMs then multiset(stored + [now])[ts] else 0
  {
    FilterSnoc(stored, now, InWindow(now));
    forall ts ensures multiset(Recent(stored, now))[ts] == if now - ts < TimeWindowMs then multiset(stored + [now])[ts] else 0 {
      FilterMultiplicity(stored + [now], InWindow(now), ts);
    }
  }

  /** A loop is reported only when at least four earlier loads lie within the window. */
  lemma LoopNeedsFourEarlier(stored: seq<int>, now: int)
    requires |Recent(stored, now)| >= RefreshThreshold
    ensures |Filter(stored, InWindow(now))| >= RefreshThreshold - 1
  {
    RecentSpec(stored, now);
  }

  /** `getRefreshTimestamps`: an unset key or text that does not parse reads as no times. */
  function RefreshTimestamps(stored: Slot<int>): (ts: seq<int>)
    ensures !stored.Parsed? ==> ts == []
    ensures stored.Parsed? ==> ts == stored.items
  {
    stored.Items()
  }

  class RefreshDetector {
    /** The `refresh_timestamps` entry. */
    var stored: Slot<int>

    constructor(stored: Slot<int>)
      ensures this.stored == stored
    {
      this.stored := stored;
    }

    /**
     * `recordRefresh` at time `now`. The kept times are saved, unless the store refuses
     * the write (`saveFails`); a loop is reported exactly when at least five are kept,
     * and then the key is removed.
     */
    method RecordRefresh(now: int, saveFails: bool) returns (loopDetected: bool)
      modifies this`stored
      ensures loopDetected <==> |Recent(RefreshTimestamps(old(stored)), now)| >= RefreshThreshold
      ensures loopDetected ==> stored == NoValue
      ensures !loopDetected && !saveFails ==> stored == Parsed(Recent(RefreshTimestamps(old(stored)), now))
      ensures !loopDetected && saveFails ==> stored == old(stored)
    {
      var timestamps := RefreshTimestamps(stored);
      timestamps := timestamps + [now];
      var recentTimestamps := Filter(timestamps, InWindow(now));
      if !saveFails {
        stored := Parsed(recentTimestamps);
      }
      if |recentTimestamps| >= RefreshThreshold {
        stored := NoValue;
        return true;
      }
      return false;
    }
  }

  /** After a reported loop the count starts over: the next load is alone in its window. */
  lemma RestartAfterLoop(now: int)
    ensures Recent(RefreshTimestamps(NoValue), now) == [now]
  {
    assert Filter([now], InWindow(now)) == [now] + Filter([], InWindow(now));
  }

  /**
   * Loads more than ten seconds apart never add up to a loop: when the stored times are
   * all older than the window, only `now` is kept.
   */
  lemma OldTimesForgotten(stored: seq<int>, now: int)
    requires forall k | 0 <= k < |stored| :: now - stored[k] >= TimeWindowMs
    ensures Recent(stored, now) == [now]
  {
    RecentSpec(stored, now);
    NoneKept(stored, now);
  }

  lemma {:induction false} NoneKept(stored: seq<int>, now: int)
    requires forall k | 0 <= k < |stored| :: now - stored[k] >= TimeWindowMs
    ensures Filter(stored, InWindow(now)) == []
  {
    if stored != [] {
      NoneKept(stored[1..], now);
    }
  }
}
