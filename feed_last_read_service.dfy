/** The per-feed last-read store (src/app/core/services/feed-last-read-service.ts). */
module FeedLastRead {
  import opened Wrappers

  /**
   * `map.get(feedId) || null`: a missing entry and a stored 0 both read as
   * null, since 0 is falsy.
   */
  function LastReadIn(timestamps: map<string, int>, feedId: string): (t: Option<int>)
    ensures t.Some? <==> feedId in timestamps && timestamps[feedId] != 0
    ensures t.Some? ==> t.value == timestamps[feedId]
  {
    if feedId in timestamps && timestamps[feedId] != 0 then Some(timestamps[feedId]) else None
  }

  /** Setting a non-zero timestamp is read back; setting 0 reads as null; other feeds are untouched. */
  lemma SetThenGet(timestamps: map<string, int>, feedId: string, other: string, t: int)
    ensures t != 0 ==> LastReadIn(timestamps[feedId := t], feedId) == Some(t)
    ensures t == 0 ==> LastReadIn(timestamps[feedId := t], feedId) == None
    ensures other != feedId ==> LastReadIn(timestamps[feedId := t], other) == LastReadIn(timestamps, other)
  {
  }

  class FeedLastReadService {
    var lastReadTimestamps: map<string, int>

    /** A fresh service starts empty; it never reads back what it persisted. */
    constructor ()
      ensures lastReadTimestamps == map[]
      ensures forall id :: GetLastRead(id) == None
    {
      lastReadTimestamps := map[];
    }

    /** `setLastRead`; the `localStorage` write beside it is not modelled. */
    method SetLastRead(feedId: string, timestamp: int)
      modifies this
      ensures lastReadTimestamps == old(lastReadTimestamps)[feedId := timestamp]
      ensures GetLastRead(feedId) == if timestamp != 0 then Some(timestamp) else None
      ensures forall id :: id != feedId ==> GetLastRead(id) == old(GetLastRead(id))
    {
      lastReadTimestamps := lastReadTimestamps[feedId := timestamp];
    }

    function GetLastRead(feedId: string): Option<int>
      reads this
    {
      LastReadIn(lastReadTimestamps, feedId)
    }
  }
}
