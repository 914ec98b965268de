/** A scheduled ad break and its playback progress (AdBreak.java). */
module AdBreaks {
  import opened Wrappers
  import opened Ads

  /** The value a break is parsed into: what the manifest fixes about it. */
  datatype BreakData = BreakData(breakId: string, timeOffsetMs: int, ads: seq<Ad>)

  class AdBreak {
    const breakId: string
    const timeOffsetMs: int
    const ads: seq<Ad>
    var started: bool
    var completed: bool
    var currentAdIndex: nat

    constructor (breakId: string, timeOffsetMs: int, ads: seq<Ad>)
      ensures this.breakId == breakId && this.timeOffsetMs == timeOffsetMs && this.ads == ads
      ensures !started && !completed && currentAdIndex == 0
    {
      this.breakId := breakId;
      this.timeOffsetMs := timeOffsetMs;
      this.ads := ads;
      started := false;
      completed := false;
      currentAdIndex := 0;
    }

    /** A break as loaded: neither started nor completed, cursor on the first ad. */
    predicate Unplayed()
      reads this
    {
      !started && !completed && currentAdIndex == 0
    }

    function Data(): BreakData
    {
      BreakData(breakId, timeOffsetMs, ads)
    }

    /** The ad at the cursor, or none once the cursor has run past the last ad. */
    function GetCurrentAd(): (a: Option<Ad>)
      reads this
      ensures a.Some? <==> currentAdIndex < |ads|
      ensures a.Some? ==> a.value == ads[currentAdIndex] && a.value in ads
    {
      if currentAdIndex < |ads| then Some(ads[currentAdIndex]) else None
    }

    method SetStarted(started: bool)
      modifies this
      ensures this.started == started
      ensures completed == old(completed) && currentAdIndex == old(currentAdIndex)
    {
      this.started := started;
    }

    method SetCompleted(completed: bool)
      modifies this
      ensures this.completed == completed
      ensures started == old(started) && currentAdIndex == old(currentAdIndex)
    {
      this.completed := completed;
    }

    /** Advances the cursor unconditionally, then reports the ad it now rests on. */
    method GetNextAd() returns (a: Option<Ad>)
      modifies this
      ensures currentAdIndex == old(currentAdIndex) + 1
      ensures started == old(started) && completed == old(completed)
      ensures a == GetCurrentAd()
      ensures old(currentAdIndex) + 1 >= |ads| ==> a.None?
      ensures old(currentAdIndex) + 1 < |ads| ==> a == Some(ads[old(currentAdIndex) + 1])
    {
      currentAdIndex := currentAdIndex + 1;
      a := GetCurrentAd();
    }

    /** Returns the break to its freshly loaded state. */
    method Reset()
      modifies this
      ensures !started && !completed && currentAdIndex == 0
    {
      started := false;
      completed := false;
      currentAdIndex := 0;
    }
  }
}
