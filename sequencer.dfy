/**
 * The ad-break sequencer (AdManager.java): it picks the break due at a
 * playback time, lays the break's ads out as one concatenated timeline,
 * follows the player from ad to ad, and hands each interactive ad to an
 * overlay adapter, guarded by a failsafe timer. Everything it tells the
 * player is recorded in a ghost trace of listener commands; timers fire
 * and renderer events arrive as explicit inputs.
 */
module Sequencer {
  import opened Wrappers
  import opened Json
  import opened Ads
  import opened AdBreaks
  import opened Sdk
  import opened Infillion

  /** A break is due when its offset is within this many ms of the playback time. */
  const TimeToleranceMs: int := 1000
  /** The player is parked this many ms before the end of an interactive ad's placeholder. */
  const SeekBackoffMs: int := 100
  /** The failsafe waits this many ms per second of the interactive ad's duration. */
  const FailsafeMsPerSecond: int := 2000

  datatype PlayerAction = Play | SeekAndPause

  /** One item of the concatenated pod: the ad's media URI and its placeholder length in ms. */
  datatype TimelineEntry = TimelineEntry(uri: Option<string>, placeholderMs: int)

  /** A call on the sequencer's listener; `PlayMediaSource(None)` plays a source never built. */
  datatype Command =
    | PlayMediaSource(timeline: Option<seq<TimelineEntry>>)
    | ControlPlayer(action: PlayerAction, positionMs: int)
    | AdBreakComplete
    | SkipToContent

  /** A failsafe runnable posted to the handler and not yet run or removed. */
  datatype FailsafeTimer = FailsafeTimer(runnable: nat, delayMs: int)

  function Abs(x: int): int
  {
    if x < 0 then -x else x
  }

  /** Where ad n starts in the concatenated pod: the placeholders of the ads before it, in ms. */
  function PodOffsetMs(ads: seq<Ad>, n: nat): int
    requires n <= |ads|
  {
    if n == 0 then 0 else PodOffsetMs(ads, n - 1) + ads[n - 1].duration * 1000
  }

  /** Where the ad at `index` ends; past the last ad, where the whole pod ends. */
  function EndPosition(ads: seq<Ad>, index: nat): int
  {
    PodOffsetMs(ads, if index < |ads| then index + 1 else |ads|)
  }

  /** The position an interactive ad's launch parks the player at. */
  function SeekTarget(ads: seq<Ad>, index: nat): int
  {
    EndPosition(ads, index) - SeekBackoffMs
  }

  /**
   * For an ad of at least one second, the parking position lies inside that
   * ad's own placeholder, 100 ms before its end.
   */
  lemma SeekTargetInsideAd(ads: seq<Ad>, index: nat)
    requires index < |ads| && ads[index].duration >= 1
    ensures PodOffsetMs(ads, index) < SeekTarget(ads, index) < PodOffsetMs(ads, index + 1)
    ensures PodOffsetMs(ads, index + 1) - SeekTarget(ads, index) == SeekBackoffMs
  {
  }

  /** The pod timeline: one placeholder per ad, in order, each its duration in ms. */
  function Timeline(ads: seq<Ad>): (tl: seq<TimelineEntry>)
    ensures |tl| == |ads|
  {
    seq(|ads|, i requires 0 <= i < |ads| => TimelineEntry(ads[i].GetAdUrl(), ads[i].duration * 1000))
  }

  /** The sum of the first n placeholders of a timeline. */
  function TimelineOffset(tl: seq<TimelineEntry>, n: nat): int
    requires n <= |tl|
  {
    if n == 0 then 0 else TimelineOffset(tl, n - 1) + tl[n - 1].placeholderMs
  }

  /** The positions the sequencer computes are the positions of the timeline it gives the player. */
  lemma {:induction false} OffsetsMatchTimeline(ads: seq<Ad>, n: nat)
    requires n <= |ads|
    ensures TimelineOffset(Timeline(ads), n) == PodOffsetMs(ads, n)
  {
    if n > 0 {
      OffsetsMatchTimeline(ads, n - 1);
    }
  }

  /** The timers left once every post of one runnable is removed. */
  function Without(timers: seq<FailsafeTimer>, runnable: nat): (r: seq<FailsafeTimer>)
    ensures forall t :: t in r <==> t in timers && t.runnable != runnable
    ensures |r| <= |timers|
  {
    if timers == [] then []
    else if timers[0].runnable == runnable then Without(timers[1..], runnable)
    else [timers[0]] + Without(timers[1..], runnable)
  }

  /** The timers left after one post has run. */
  function RemoveAt(timers: seq<FailsafeTimer>, k: nat): (r: seq<FailsafeTimer>)
    requires k < |timers|
    ensures |r| == |timers| - 1
    ensures multiset(r) + multiset{timers[k]} == multiset(timers)
  {
    assert timers == timers[..k] + [timers[k]] + timers[k + 1..];
    timers[..k] + timers[k + 1..]
  }

  /** The cursor after one media-item transition, and whether that transition ended the pod. */
  datatype Cursor = Cursor(index: nat, podDone: bool)

  function MediaItemStep(index: nat, podSize: nat): Cursor
  {
    if index >= podSize then Cursor(index, false) else Cursor(index + 1, index + 1 >= podSize)
  }

  /** The number of end-of-pod reports over `calls` transitions starting at `index`. */
  function EndReports(index: nat, podSize: nat, calls: nat): nat
    decreases calls
  {
    if calls == 0 then 0
    else
      var c := MediaItemStep(index, podSize);
      (if c.podDone then 1 else 0) + EndReports(c.index, podSize, calls - 1)
  }

  /** Past the end of the pod, transitions report nothing. */
  lemma {:induction false} NothingPastTheEnd(index: nat, podSize: nat, calls: nat)
    requires index >= podSize
    ensures EndReports(index, podSize, calls) == 0
  {
    if calls > 0 {
      NothingPastTheEnd(index, podSize, calls - 1);
    }
  }

  /**
   * From ad `index` of a non-empty pod, the end is reported once the player
   * has moved past every remaining ad, exactly once, and never before.
   */
  lemma {:induction false} EndReportedOnce(index: nat, podSize: nat, calls: nat)
    requires index < podSize
    ensures EndReports(index, podSize, calls) == if calls >= podSize - index then 1 else 0
    decreases calls
  {
    if calls > 0 {
      if index + 1 < podSize {
        EndReportedOnce(index + 1, podSize, calls - 1);
      } else {
        NothingPastTheEnd(index + 1, podSize, calls - 1);
      }
    }
  }

  /** A whole pod played from its first ad reports its end exactly once. */
  lemma PodEndsOnce(podSize: nat, calls: nat)
    requires podSize >= 1 && calls >= podSize
    ensures EndReports(0, podSize, calls) == 1
  {
    EndReportedOnce(0, podSize, calls);
  }

  /**
   * The commands an overlay launch for the ad at `index` gives the player:
   * park at the seek target when the ad is interactive, and, when there is
   * no view group to show it in, resume at once.
   */
  function LaunchCommands(ads: seq<Ad>, index: nat, hasAdViewGroup: bool): seq<Command>
  {
    if index < |ads| && ads[index].IsInfillionAd() then
      [ControlPlayer(SeekAndPause, SeekTarget(ads, index))] + (if hasAdViewGroup then [] else [ControlPlayer(Play, 0)])
    else []
  }

  /** The number of end-of-pod reports in a run of commands. */
  function CountEnds(cmds: seq<Command>): nat
  {
    if cmds == [] then 0 else CountEnds(cmds[..|cmds| - 1]) + (if cmds[|cmds| - 1] == AdBreakComplete then 1 else 0)
  }

  lemma {:induction false} CountEndsAppend(a: seq<Command>, b: seq<Command>)
    ensures CountEnds(a + b) == CountEnds(a) + CountEnds(b)
  {
    if b == [] {
      assert a + b == a;
    } else {
      assert (a + b)[..|a + b| - 1] == a + b[..|b| - 1];
      CountEndsAppend(a, b[..|b| - 1]);
    }
  }

  /** An overlay launch never reports the end of the pod, nor a skip to content. */
  lemma LaunchReportsNoEnd(ads: seq<Ad>, index: nat, hasAdViewGroup: bool)
    ensures CountEnds(LaunchCommands(ads, index, hasAdViewGroup)) == 0
    ensures SkipToContent !in LaunchCommands(ads, index, hasAdViewGroup)
  {
    var cmds := LaunchCommands(ads, index, hasAdViewGroup);
    if cmds != [] {
      var park := [ControlPlayer(SeekAndPause, SeekTarget(ads, index))];
      assert CountEnds(park) == 0 by {
        assert park[..0] == [];
      }
      if !hasAdViewGroup {
        assert cmds[..1] == park;
      }
    }
  }

  /** A break is due at time t when it is within the tolerance and not completed; `started` plays no part. */
  ghost predicate Due(b: AdBreak, t: int)
    reads b
  {
    Abs(b.timeOffsetMs - t) <= TimeToleranceMs && !b.completed
  }

  class AdManager {
    var adPlaylist: seq<AdBreak>
    var currentAdBreak: AdBreak?
    var ads: seq<Ad>
    var mediaSource: Option<seq<TimelineEntry>>
    var currentAdIndex: nat
    var infillionAdManager: InfillionAdManager?
    var failsafeRunnable: Option<nat>
    var pendingTimers: seq<FailsafeTimer>
    var runnablesCreated: nat
    /** Whether the host gave a view group for overlays. */
    const hasAdViewGroup: bool
    /** The adapter's static cancel-stream flag, which nothing here changes. */
    const supportUserCancelStream: bool
    /** The random advertising ids handed to the renderer, one per launch. */
    const fallbackIds: nat -> string
    var idsDrawn: nat
    ghost var trace: seq<Command>
    /** Every adapter this sequencer has created. */
    ghost var adapters: set<InfillionAdManager>

    /**
     * The pod fields follow the current break, and at most one adapter is
     * alive: the one in the slot; every other adapter ever created is destroyed.
     */
    ghost predicate Valid()
      reads this, adapters
    {
      && (currentAdBreak == null ==> ads == [] && mediaSource.None?)
      && (currentAdBreak != null ==> ads == currentAdBreak.ads && mediaSource == Some(Timeline(ads)))
      && (infillionAdManager != null ==>
            infillionAdManager in adapters && infillionAdManager.Valid() && infillionAdManager.Live())
      && (forall a :: a in adapters && a != infillionAdManager ==> a.Valid() && a.Dead())
    }

    twostate predicate PodKept()
      reads this
    {
      && adPlaylist == old(adPlaylist) && currentAdBreak == old(currentAdBreak)
      && ads == old(ads) && mediaSource == old(mediaSource) && currentAdIndex == old(currentAdIndex)
    }

    twostate predicate TimersKept()
      reads this
    {
      && failsafeRunnable == old(failsafeRunnable) && pendingTimers == old(pendingTimers)
      && runnablesCreated == old(runnablesCreated) && idsDrawn == old(idsDrawn)
    }

    /** The ad at the cursor is an interactive one. */
    predicate InteractiveAtCursor()
      reads this
    {
      currentAdIndex < |ads| && ads[currentAdIndex].IsInfillionAd()
    }

    constructor (hasAdViewGroup: bool, supportUserCancelStream: bool, fallbackIds: nat -> string)
      ensures Valid()
      ensures this.hasAdViewGroup == hasAdViewGroup && this.supportUserCancelStream == supportUserCancelStream
      ensures this.fallbackIds == fallbackIds && idsDrawn == 0
      ensures adPlaylist == [] && currentAdBreak == null && ads == [] && mediaSource.None? && currentAdIndex == 0
      ensures infillionAdManager == null && failsafeRunnable.None? && pendingTimers == [] && runnablesCreated == 0
      ensures trace == [] && adapters == {}
    {
      this.hasAdViewGroup := hasAdViewGroup;
      this.supportUserCancelStream := supportUserCancelStream;
      this.fallbackIds := fallbackIds;
      idsDrawn := 0;
      adPlaylist := [];
      currentAdBreak := null;
      ads := [];
      mediaSource := None;
      currentAdIndex := 0;
      infillionAdManager := null;
      failsafeRunnable := None;
      pendingTimers := [];
      runnablesCreated := 0;
      trace := [];
      adapters := {};
    }

    method OnResume()
      requires Valid()
      modifies infillionAdManager
      ensures Valid()
      ensures infillionAdManager != null ==>
        infillionAdManager.rendererCalls == old(infillionAdManager.rendererCalls) + [Resume]
    {
      if infillionAdManager != null {
        infillionAdManager.OnResume();
      }
    }

    method OnPause()
      requires Valid()
      modifies infillionAdManager
      ensures Valid()
      ensures infillionAdManager != null ==>
        infillionAdManager.rendererCalls == old(infillionAdManager.rendererCalls) + [Pause]
    {
      if infillionAdManager != null {
        infillionAdManager.OnPause();
      }
    }

    /** Stops and then destroys the live adapter, if any; the failsafe is left as it is. */
    method OnStop()
      requires Valid()
      modifies this, infillionAdManager
      ensures Valid() && infillionAdManager == null
      ensures PodKept() && TimersKept() && trace == old(trace) && adapters == old(adapters)
      ensures old(infillionAdManager) != null ==>
        old(infillionAdManager).rendererCalls == old(infillionAdManager.rendererCalls) + [Stop, RemoveListener(None), Stop]
    {
      if infillionAdManager != null {
        infillionAdManager.OnStop();
      }
      CleanupInfillionAdManager();
    }

    /** Keeps its own copy of the list; the breaks in it are shared. */
    method SetAdPlaylist(adBreaks: seq<AdBreak>)
      modifies this
      ensures adPlaylist == adBreaks
      ensures currentAdBreak == old(currentAdBreak) && ads == old(ads) && mediaSource == old(mediaSource)
      ensures currentAdIndex == old(currentAdIndex) && infillionAdManager == old(infillionAdManager)
      ensures TimersKept() && trace == old(trace) && adapters == old(adapters)
    {
      adPlaylist := adBreaks;
    }

    /** The first break of the playlist, in list order, that is due at `currentTimeMs`; null when none is. */
    method GetAdBreakAt(currentTimeMs: int) returns (b: AdBreak?)
      ensures b == null <==> forall i :: 0 <= i < |adPlaylist| ==> !Due(adPlaylist[i], currentTimeMs)
      ensures b != null ==>
        exists i :: (0 <= i < |adPlaylist| && adPlaylist[i] == b && Due(b, currentTimeMs)
                     && forall k :: 0 <= k < i ==> !Due(adPlaylist[k], currentTimeMs))
    {
      var i := 0;
      while i < |adPlaylist|
        invariant 0 <= i <= |adPlaylist|
        invariant forall k :: 0 <= k < i ==> !Due(adPlaylist[k], currentTimeMs)
      {
        var adBreak := adPlaylist[i];
        var timeDiff := Abs(adBreak.timeOffsetMs - currentTimeMs);
        if timeDiff <= TimeToleranceMs && !adBreak.completed {
          return adBreak;
        }
        i := i + 1;
      }
      return null;
    }

    /** Builds the concatenated pod: each ad's media URI with its duration as placeholder. */
    static method CreateMediaSource(ads: seq<Ad>) returns (tl: seq<TimelineEntry>)
      ensures tl == Timeline(ads)
    {
      tl := [];
      for i := 0 to |ads|
        invariant tl == Timeline(ads[..i])
      {
        assert ads[..i + 1] == ads[..i] + [ads[i]];
        tl := tl + [TimelineEntry(ads[i].GetAdUrl(), ads[i].duration * 1000)];
      }
      assert ads[..|ads|] == ads;
    }

    /** Destroys the live adapter, if any, and empties the slot. */
    method CleanupInfillionAdManager()
      requires Valid()
      modifies this, infillionAdManager
      ensures Valid() && infillionAdManager == null
      ensures PodKept() && TimersKept() && trace == old(trace) && adapters == old(adapters)
      ensures old(infillionAdManager) != null ==>
        old(infillionAdManager).rendererCalls == old(infillionAdManager.rendererCalls) + [RemoveListener(None), Stop]
    {
      if infillionAdManager != null {
        infillionAdManager.Destroy();
        infillionAdManager := null;
      }
    }

    /** Makes `adBreak` current: the live adapter goes, the pod is rebuilt and the cursor rewinds. */
    method SetCurrentAdBreak(adBreak: AdBreak)
      requires Valid()
      modifies this, infillionAdManager
      ensures Valid() && infillionAdManager == null
      ensures currentAdBreak == adBreak && ads == adBreak.ads && currentAdIndex == 0
      ensures mediaSource == Some(Timeline(adBreak.ads))
      ensures adPlaylist == old(adPlaylist) && TimersKept() && trace == old(trace) && adapters == old(adapters)
    {
      CleanupInfillionAdManager();
      currentAdBreak := adBreak;
      ads := adBreak.ads;
      currentAdIndex := 0;
      var tl := CreateMediaSource(ads);
      mediaSource := Some(tl);
    }

    /**
     * The end of the ad at the cursor in the concatenated pod: the loop adds
     * the placeholders of ads 0 up to the cursor, skipping indices past the pod.
     */
    method CalculateEndPositionOfCurrentAd() returns (positionMs: int)
      ensures positionMs == EndPosition(ads, currentAdIndex)
    {
      positionMs := 0;
      var i := 0;
      while i <= currentAdIndex
        invariant 0 <= i <= currentAdIndex + 1
        invariant positionMs == PodOffsetMs(ads, if i < |ads| then i else |ads|)
      {
        if i < |ads| {
          positionMs := positionMs + ads[i].duration * 1000;
        }
        i := i + 1;
      }
    }

    /** Posts a fresh failsafe runnable for twice the ad's duration; an earlier post stays where it is. */
    method StartFailsafeTimer(ad: Ad)
      modifies this
      ensures failsafeRunnable == Some(old(runnablesCreated)) && runnablesCreated == old(runnablesCreated) + 1
      ensures pendingTimers == old(pendingTimers) + [FailsafeTimer(old(runnablesCreated), ad.duration * FailsafeMsPerSecond)]
      ensures PodKept() && idsDrawn == old(idsDrawn) && infillionAdManager == old(infillionAdManager)
      ensures trace == old(trace) && adapters == old(adapters)
    {
      var failsafeTimeoutMs := ad.duration * FailsafeMsPerSecond;
      failsafeRunnable := Some(runnablesCreated);
      runnablesCreated := runnablesCreated + 1;
      pendingTimers := pendingTimers + [FailsafeTimer(failsafeRunnable.value, failsafeTimeoutMs)];
    }

    /** Removes the posts of the latest runnable, if one is recorded, and forgets it. */
    method CancelFailsafeTimer()
      modifies this
      ensures failsafeRunnable.None?
      ensures pendingTimers == if old(failsafeRunnable).Some? then Without(old(pendingTimers), old(failsafeRunnable).value) else old(pendingTimers)
      ensures runnablesCreated == old(runnablesCreated) && idsDrawn == old(idsDrawn)
      ensures PodKept() && infillionAdManager == old(infillionAdManager) && trace == old(trace) && adapters == old(adapters)
    {
      if failsafeRunnable.Some? {
        pendingTimers := Without(pendingTimers, failsafeRunnable.value);
        failsafeRunnable := None;
      }
    }

    /**
     * The overlay is done. The failsafe is cancelled and the adapter
     * destroyed; with credit the break is marked completed and the player
     * skips to content, without it the player resumes the pod where it is.
     */
    method OnInfillionAdComplete(receivedCredit: bool)
      requires Valid()
      modifies this, infillionAdManager, currentAdBreak
      ensures Valid() && infillionAdManager == null && failsafeRunnable.None?
      ensures pendingTimers == if old(failsafeRunnable).Some? then Without(old(pendingTimers), old(failsafeRunnable).value) else old(pendingTimers)
      ensures runnablesCreated == old(runnablesCreated) && idsDrawn == old(idsDrawn)
      ensures PodKept() && adapters == old(adapters)
      ensures trace == old(trace) + [if receivedCredit then SkipToContent else ControlPlayer(Play, 0)]
      ensures currentAdBreak != null ==>
        && currentAdBreak.completed == (receivedCredit || old(currentAdBreak.completed))
        && currentAdBreak.started == old(currentAdBreak.started)
        && currentAdBreak.currentAdIndex == old(currentAdBreak.currentAdIndex)
    {
      CancelFailsafeTimer();
      CleanupInfillionAdManager();
      if receivedCredit {
        if currentAdBreak != null {
          currentAdBreak.SetCompleted(true);
        }
        trace := trace + [SkipToContent];
      } else {
        trace := trace + [ControlPlayer(Play, 0)];
      }
    }

    /**
     * Hands an interactive ad to a new adapter. Without a view group the ad
     * completes at once, without credit. Otherwise the live adapter is
     * replaced by a new one that starts the ad, and a failsafe is posted.
     */
    method ShowInfillionRenderer(ad: Ad)
      requires Valid()
      modifies this, infillionAdManager, currentAdBreak
      ensures Valid() && currentAdIndex == old(currentAdIndex)
      ensures PodKept()
      ensures !hasAdViewGroup ==>
        && infillionAdManager == null && failsafeRunnable.None? && adapters == old(adapters)
        && pendingTimers == (if old(failsafeRunnable).Some? then Without(old(pendingTimers), old(failsafeRunnable).value) else old(pendingTimers))
        && trace == old(trace) + [ControlPlayer(Play, 0)]
      ensures hasAdViewGroup ==>
        && infillionAdManager != null && fresh(infillionAdManager) && adapters == old(adapters) + {infillionAdManager}
        && !infillionAdManager.didReceiveCredit
        && infillionAdManager.cancelStreamListener == supportUserCancelStream
        && infillionAdManager.rendererCalls ==
             [AddListener(None)] + (if supportUserCancelStream then [AddListener(Some(UserCancelStream))] else []) + [
               Init(if ad.adParameters.Some? then AdParameters(ad.adParameters.value) else VastUrl(ad.GetVastConfigUrl()),
                    Some(AdOptions(Some(ad.adType == Truex && supportUserCancelStream), Some(fallbackIds(old(idsDrawn))), None)), false),
               Start]
        && idsDrawn == old(idsDrawn) + 1 && trace == old(trace)
        && (ad.IsInfillionAd() ==>
              && failsafeRunnable == Some(old(runnablesCreated)) && runnablesCreated == old(runnablesCreated) + 1
              && pendingTimers == old(pendingTimers) + [FailsafeTimer(old(runnablesCreated), ad.duration * FailsafeMsPerSecond)])
      ensures currentAdBreak != null ==>
        && currentAdBreak.completed == old(currentAdBreak.completed)
        && currentAdBreak.started == old(currentAdBreak.started)
        && currentAdBreak.currentAdIndex == old(currentAdBreak.currentAdIndex)
    {
      if !hasAdViewGroup {
        OnInfillionAdComplete(false);
        return;
      }
      CleanupInfillionAdManager();
      var adapter := new InfillionAdManager(supportUserCancelStream);
      adapter.StartAd(ad.GetVastConfigUrl(), ad.adParameters, ad.adType, supportUserCancelStream, fallbackIds(idsDrawn));
      idsDrawn := idsDrawn + 1;
      adapters := adapters + {adapter};
      infillionAdManager := adapter;
      if ad.IsInfillionAd() {
        StartFailsafeTimer(ad);
      }
    }

    /** The ad at the cursor, or none past the end of the pod. */
    function CurrentAd(): (a: Option<Ad>)
      reads this
      ensures a.Some? <==> currentAdIndex < |ads|
      ensures a.Some? ==> a.value == ads[currentAdIndex]
    {
      if currentAdIndex < |ads| then Some(ads[currentAdIndex]) else None
    }

    /**
     * An interactive ad is playing exactly when the cursor rests inside the
     * pod on a trueX or IDVx ad; for an ad whose kind came from its tag,
     * exactly when that tag is "trueX" or "IDVx".
     */
    predicate IsPlayingInteractiveAd()
      reads this
      ensures IsPlayingInteractiveAd() <==> currentAdIndex < |ads| && ads[currentAdIndex].adType in {Truex, Idvx}
      ensures currentAdIndex < |ads| && ads[currentAdIndex].adType == DetermineAdType(ads[currentAdIndex].adSystem) ==>
        (IsPlayingInteractiveAd() <==> ads[currentAdIndex].adSystem in {Some(TruexSystem), Some(IdvxSystem)})
    {
      var currentAd := CurrentAd();
      currentAd.Some? && currentAd.value.IsInfillionAd()
    }

    /**
     * When the ad at the cursor is interactive: parks the player 100 ms
     * before that ad's end, then hands the ad to an overlay. Otherwise does
     * nothing.
     */
    method LaunchInfillionOverlayIfNecessary()
      requires Valid()
      modifies this, infillionAdManager, currentAdBreak
      ensures Valid() && PodKept()
      ensures trace == old(trace) + LaunchCommands(ads, currentAdIndex, hasAdViewGroup)
      ensures !IsPlayingInteractiveAd() ==>
        infillionAdManager == old(infillionAdManager) && TimersKept() && adapters == old(adapters)
      ensures IsPlayingInteractiveAd() && !hasAdViewGroup ==>
        && infillionAdManager == null && failsafeRunnable.None? && adapters == old(adapters)
        && pendingTimers == (if old(failsafeRunnable).Some? then Without(old(pendingTimers), old(failsafeRunnable).value) else old(pendingTimers))
      ensures IsPlayingInteractiveAd() && hasAdViewGroup ==>
        && infillionAdManager != null && fresh(infillionAdManager) && adapters == old(adapters) + {infillionAdManager}
        && failsafeRunnable == Some(old(runnablesCreated))
        && pendingTimers == old(pendingTimers) + [FailsafeTimer(old(runnablesCreated), ads[currentAdIndex].duration * FailsafeMsPerSecond)]
      ensures currentAdBreak != null ==>
        && currentAdBreak.completed == old(currentAdBreak.completed)
        && currentAdBreak.started == old(currentAdBreak.started)
        && currentAdBreak.currentAdIndex == old(currentAdBreak.currentAdIndex)
    {
      var currentAd := CurrentAd();
      if currentAd.None? || !currentAd.value.IsInfillionAd() {
        return;
      }
      var endPosition := CalculateEndPositionOfCurrentAd();
      trace := trace + [ControlPlayer(SeekAndPause, endPosition - SeekBackoffMs)];
      ShowInfillionRenderer(currentAd.value);
    }

    /**
     * Starts the current pod from its first ad: the live adapter goes, the
     * break is marked started, the pod is played exactly once, and an
     * overlay follows when the first ad is interactive.
     */
    method StartAdBreak()
      requires Valid()
      modifies this, infillionAdManager, currentAdBreak
      ensures Valid() && currentAdIndex == 0
      ensures adPlaylist == old(adPlaylist) && currentAdBreak == old(currentAdBreak)
      ensures ads == old(ads) && mediaSource == old(mediaSource)
      ensures trace == old(trace) + [PlayMediaSource(mediaSource)] + LaunchCommands(ads, 0, hasAdViewGroup)
      ensures infillionAdManager != null <==> IsPlayingInteractiveAd() && hasAdViewGroup
      ensures old(infillionAdManager) != null ==> old(infillionAdManager).Dead()
      ensures currentAdBreak != null ==>
        && currentAdBreak.started
        && currentAdBreak.completed == old(currentAdBreak.completed)
        && currentAdBreak.currentAdIndex == old(currentAdBreak.currentAdIndex)
    {
      CleanupInfillionAdManager();
      if currentAdBreak != null {
        currentAdBreak.SetStarted(true);
      }
      currentAdIndex := 0;
      trace := trace + [PlayMediaSource(mediaSource)];
      LaunchInfillionOverlayIfNecessary();
    }

    /** The player reached the end of the pod: the break is completed and the end reported. */
    method OnPlaybackEnded()
      requires Valid()
      modifies this, currentAdBreak
      ensures Valid() && PodKept() && TimersKept()
      ensures infillionAdManager == old(infillionAdManager) && adapters == old(adapters)
      ensures trace == old(trace) + [AdBreakComplete]
      ensures currentAdBreak != null ==>
        && currentAdBreak.completed
        && currentAdBreak.started == old(currentAdBreak.started)
        && currentAdBreak.currentAdIndex == old(currentAdBreak.currentAdIndex)
    {
      if currentAdBreak != null {
        currentAdBreak.SetCompleted(true);
      }
      trace := trace + [AdBreakComplete];
    }

    /** Advances the cursor; reports the end of the pod past the last ad, otherwise launches an overlay if needed. */
    method MoveToNextAd()
      requires Valid()
      modifies this, infillionAdManager, currentAdBreak
      ensures Valid() && currentAdIndex == old(currentAdIndex) + 1
      ensures adPlaylist == old(adPlaylist) && currentAdBreak == old(currentAdBreak)
      ensures ads == old(ads) && mediaSource == old(mediaSource)
      ensures trace == old(trace) + if currentAdIndex >= |ads| then [AdBreakComplete] else LaunchCommands(ads, currentAdIndex, hasAdViewGroup)
      ensures currentAdIndex >= |ads| ==>
        infillionAdManager == old(infillionAdManager) && TimersKept() && adapters == old(adapters)
      ensures currentAdBreak != null ==>
        && currentAdBreak.completed == old(currentAdBreak.completed)
        && currentAdBreak.started == old(currentAdBreak.started)
        && currentAdBreak.currentAdIndex == old(currentAdBreak.currentAdIndex)
    {
      currentAdIndex := currentAdIndex + 1;
      if currentAdIndex >= |ads| {
        trace := trace + [AdBreakComplete];
      } else {
        LaunchInfillionOverlayIfNecessary();
      }
    }

    /**
     * The player moved on to the next item of the pod. Past the end of the
     * pod this does nothing; otherwise the cursor moves by exactly one, and
     * the end of the pod is reported exactly when the cursor leaves the last ad.
     */
    method OnMediaItemCompleted()
      requires Valid()
      modifies this, infillionAdManager, currentAdBreak
      ensures Valid()
      ensures adPlaylist == old(adPlaylist) && currentAdBreak == old(currentAdBreak)
      ensures ads == old(ads) && mediaSource == old(mediaSource)
      ensures currentAdIndex == MediaItemStep(old(currentAdIndex), |ads|).index
      ensures CountEnds(trace) == CountEnds(old(trace)) + if MediaItemStep(old(currentAdIndex), |ads|).podDone then 1 else 0
      ensures old(currentAdIndex) >= |ads| ==>
        trace == old(trace) && infillionAdManager == old(infillionAdManager) && TimersKept() && adapters == old(adapters)
      ensures currentAdBreak != null ==>
        && currentAdBreak.completed == old(currentAdBreak.completed)
        && currentAdBreak.started == old(currentAdBreak.started)
        && currentAdBreak.currentAdIndex == old(currentAdBreak.currentAdIndex)
    {
      var currentAd := CurrentAd();
      if currentAd.None? {
        return;
      }
      ghost var before := trace;
      MoveToNextAd();
      if currentAdIndex >= |ads| {
        CountEndsAppend(before, [AdBreakComplete]);
        assert CountEnds([AdBreakComplete]) == 1;
      } else {
        CountEndsAppend(before, LaunchCommands(ads, currentAdIndex, hasAdViewGroup));
        LaunchReportsNoEnd(ads, currentAdIndex, hasAdViewGroup);
      }
    }

    /**
     * An event from the renderer reaches the live adapter; a completion it
     * reports ends the overlay, a popup is only logged.
     */
    method OnAdapterEvent(e: SdkEvent)
      requires Valid() && infillionAdManager != null
      modifies this, infillionAdManager, currentAdBreak
      ensures Valid() && PodKept()
      ensures var r := old(React(infillionAdManager.ListenersNow(), infillionAdManager.didReceiveCredit, e));
        if r.notice.Some? && r.notice.value.AdComplete? then
          && infillionAdManager == null && failsafeRunnable.None?
          && trace == old(trace) + [if r.notice.value.receivedCredit then SkipToContent else ControlPlayer(Play, 0)]
        else
          && infillionAdManager == old(infillionAdManager) && TimersKept() && trace == old(trace)
          && infillionAdManager.didReceiveCredit == r.credit
      ensures currentAdBreak != null ==>
        currentAdBreak.completed == (old(currentAdBreak.completed) || SkipToContent in trace[|old(trace)|..])
    {
      var notice := infillionAdManager.OnSdkEvent(e);
      if notice.Some? && notice.value.AdComplete? {
        OnInfillionAdComplete(notice.value.receivedCredit);
      }
    }

    /**
     * A posted failsafe runs. Whichever overlay is live at that moment, it
     * is ended without credit: a runnable left over from an earlier ad is
     * not told apart from the current one.
     */
    method OnFailsafeFired(k: nat)
      requires Valid() && k < |pendingTimers|
      modifies this, infillionAdManager, currentAdBreak
      ensures Valid() && PodKept() && adapters == old(adapters)
      ensures infillionAdManager == null && failsafeRunnable.None?
      ensures old(infillionAdManager) != null ==> old(infillionAdManager).Dead()
      ensures trace == old(trace) + [ControlPlayer(Play, 0)]
      ensures pendingTimers ==
        if old(failsafeRunnable).Some? then Without(RemoveAt(old(pendingTimers), k), old(failsafeRunnable).value)
        else RemoveAt(old(pendingTimers), k)
    {
      pendingTimers := RemoveAt(pendingTimers, k);
      OnInfillionAdComplete(false);
    }
  }
}
