/**
 * The adapter between the ad sequencer and the interactive-ad renderer
 * (InfillionAdManager.java): a credit latch, a dispatch of renderer events
 * to a completion callback, and the renderer calls of its life cycle.
 * The callback is modelled by the notice an event produces, which the
 * owner of the adapter then acts on.
 */
module Infillion {
  import opened Wrappers
  import opened Json
  import opened Ads
  import opened Sdk

  /** A call on the completion callback. */
  datatype Notice = AdComplete(receivedCredit: bool) | Popup(url: Option<string>)

  /**
   * What is registered when an event arrives: the all-events handler, the
   * dedicated USER_CANCEL_STREAM listener, and whether the callback is set.
   */
  datatype Listeners = Listeners(general: bool, cancelStream: bool, callback: bool)

  /** The latch after an event, and the callback call it made, if any. */
  datatype Reaction = Reaction(credit: bool, notice: Option<Notice>)

  /**
   * One event through both listeners. The general handler dereferences the
   * callback on a completion without a check, so it must be set while the
   * handler is registered.
   */
  function React(l: Listeners, credit: bool, e: SdkEvent): (r: Reaction)
    requires l.general ==> l.callback
    ensures r.credit <==> credit || (l.general && e.kind == AdFreePod)
    ensures r.notice.Some? ==> l.callback
    ensures (r.notice.Some? && r.notice.value.AdComplete?) <==>
      (l.general && IsCompletion(e.kind)) || (e.kind == UserCancelStream && l.cancelStream && l.callback)
    ensures r.notice.Some? && r.notice.value.AdComplete? ==>
      r.notice.value.receivedCredit == (credit && e.kind != UserCancelStream)
    ensures (r.notice.Some? && r.notice.value.Popup?) <==> l.general && e.kind == PopupWebsite
    ensures r.notice.Some? && r.notice.value.Popup? ==> r.notice.value.url == e.url
  {
    if e.kind == UserCancelStream then
      // The general handler returns at once; the dedicated listener never grants credit.
      Reaction(credit, if l.cancelStream && l.callback then Some(AdComplete(false)) else None)
    else if !l.general then
      Reaction(credit, None)
    else if e.kind == AdFreePod then
      Reaction(true, None)
    else if IsCompletion(e.kind) then
      Reaction(credit, Some(AdComplete(credit)))
    else if e.kind == PopupWebsite then
      Reaction(credit, if l.callback then Some(Popup(e.url)) else None)
    else
      // AD_STARTED, SKIP_CARD_SHOWN, OPT_IN, OPT_OUT, USER_CANCEL, AD_FETCH_COMPLETED;
      // AD_DISPLAYED too, because the adapter starts the renderer without waiting for it.
      Reaction(credit, None)
  }

  /** The notices a run of events produces, one slot per event, in order. */
  function Notices(l: Listeners, credit: bool, events: seq<SdkEvent>): (ns: seq<Option<Notice>>)
    requires l.general ==> l.callback
    ensures |ns| == |events|
  {
    if events == [] then []
    else
      var init := events[..|events| - 1];
      Notices(l, credit, init) + [React(l, CreditAfter(l.general, credit, init), events[|events| - 1]).notice]
  }

  /** The adapter's latch follows the shared credit latch, event by event. */
  lemma ReactLatches(l: Listeners, credit: bool, events: seq<SdkEvent>, e: SdkEvent)
    requires l.general ==> l.callback
    ensures React(l, CreditAfter(l.general, credit, events), e).credit == CreditAfter(l.general, credit, events + [e])
  {
    assert (events + [e])[..|events + [e]| - 1] == events;
  }

  /** What a run reports at event i. */
  function NoticeAt(l: Listeners, credit: bool, events: seq<SdkEvent>, i: nat): Option<Notice>
    requires i < |events|
  {
    var earned := credit || (l.general && exists j :: 0 <= j < i && events[j].kind == AdFreePod);
    var k := events[i].kind;
    if k == UserCancelStream then (if l.cancelStream && l.callback then Some(AdComplete(false)) else None)
    else if l.general && IsCompletion(k) then Some(AdComplete(earned))
    else if l.general && k == PopupWebsite then Some(Popup(events[i].url))
    else None
  }

  /**
   * Over a whole run: a completion reports credit exactly when the latch held
   * before the run or an AD_FREE_POD came earlier; a cancel-stream reports
   * no credit; a popup forwards its URL; nothing else reports.
   */
  lemma {:induction false} NoticesOfRun(l: Listeners, credit: bool, events: seq<SdkEvent>)
    requires l.general ==> l.callback
    ensures forall i :: 0 <= i < |events| ==> Notices(l, credit, events)[i] == NoticeAt(l, credit, events, i)
  {
    if events != [] {
      var n := |events| - 1;
      var init := events[..n];
      NoticesOfRun(l, credit, init);
      CreditAfterIff(l.general, credit, init);
      forall i | 0 <= i < n
        ensures NoticeAt(l, credit, init, i) == NoticeAt(l, credit, events, i)
      {
        assert forall j :: 0 <= j < i ==> init[j] == events[j];
      }
      assert forall j :: 0 <= j < n ==> init[j] == events[j];
    }
  }

  /** With no AD_FREE_POD in a run that starts unlatched (an IDVx ad, or an opt-out), no notice grants credit. */
  lemma NoCreditWithoutAdFreePod(l: Listeners, events: seq<SdkEvent>, i: nat)
    requires l.general ==> l.callback
    requires forall j :: 0 <= j < |events| ==> events[j].kind != AdFreePod
    requires i < |events|
    ensures Notices(l, false, events)[i] != Some(AdComplete(true))
  {
    NoticesOfRun(l, false, events);
  }

  class InfillionAdManager {
    /** The renderer reference is set; the all-events handler is registered exactly while it is. */
    var rendererLive: bool
    var hasCallback: bool
    var didReceiveCredit: bool
    /** The dedicated cancel-stream listener, registered at construction iff the static flag held then. */
    const cancelStreamListener: bool
    ghost var rendererCalls: seq<RendererCall>

    /** The handler is registered exactly while the callback is set: both go away together in destroy. */
    ghost predicate Valid()
      reads this
    {
      rendererLive == hasCallback
    }

    function ListenersNow(): (l: Listeners)
      reads this
      ensures Valid() ==> (l.general ==> l.callback)
    {
      Listeners(rendererLive, cancelStreamListener, hasCallback)
    }

    /** Live and unlatched: what construction leaves and what the sequencer requires of the slot's adapter. */
    ghost predicate Live()
      reads this
    {
      rendererLive && hasCallback
    }

    /** Destroyed: no handler, no callback. */
    ghost predicate Dead()
      reads this
    {
      !rendererLive && !hasCallback
    }

    constructor (supportUserCancelStream: bool)
      ensures Valid() && Live() && !didReceiveCredit
      ensures cancelStreamListener == supportUserCancelStream
      ensures rendererCalls ==
        [AddListener(None)] + (if supportUserCancelStream then [AddListener(Some(UserCancelStream))] else [])
    {
      hasCallback := true;
      didReceiveCredit := false;
      rendererLive := true;
      cancelStreamListener := supportUserCancelStream;
      rendererCalls := [AddListener(None)];
      if supportUserCancelStream {
        rendererCalls := rendererCalls + [AddListener(Some(UserCancelStream))];
      }
    }

    /**
     * Initialises the renderer from the ad parameters when there are any,
     * from the VAST configuration URL otherwise, and starts it at once.
     * Only a trueX ad, and only while the static flag holds, tells the
     * renderer that cancelling the stream is supported.
     */
    method StartAd(vastConfigUrl: Option<string>, adParameters: Option<Json>, adType: AdType,
                   supportUserCancelStream: bool, fallbackAdvertisingId: string)
      requires rendererLive
      modifies this
      ensures rendererLive == old(rendererLive) && hasCallback == old(hasCallback)
      ensures didReceiveCredit == old(didReceiveCredit)
      ensures var options := AdOptions(Some(adType == Truex && supportUserCancelStream), Some(fallbackAdvertisingId), None);
        rendererCalls == old(rendererCalls) + [
          Init(if adParameters.Some? then AdParameters(adParameters.value) else VastUrl(vastConfigUrl), Some(options), false),
          Start]
    {
      var isTrueXAd := adType == Truex;
      var options := AdOptions(Some(isTrueXAd && supportUserCancelStream), Some(fallbackAdvertisingId), None);
      if adParameters.Some? {
        rendererCalls := rendererCalls + [Init(AdParameters(adParameters.value), Some(options), false)];
      } else {
        rendererCalls := rendererCalls + [Init(VastUrl(vastConfigUrl), Some(options), false)];
      }
      rendererCalls := rendererCalls + [Start];
    }

    method OnResume()
      requires rendererLive
      modifies this
      ensures rendererLive && hasCallback == old(hasCallback) && didReceiveCredit == old(didReceiveCredit)
      ensures rendererCalls == old(rendererCalls) + [Resume]
    {
      rendererCalls := rendererCalls + [Resume];
    }

    method OnPause()
      requires rendererLive
      modifies this
      ensures rendererLive && hasCallback == old(hasCallback) && didReceiveCredit == old(didReceiveCredit)
      ensures rendererCalls == old(rendererCalls) + [Pause]
    {
      rendererCalls := rendererCalls + [Pause];
    }

    method OnStop()
      requires rendererLive
      modifies this
      ensures rendererLive && hasCallback == old(hasCallback) && didReceiveCredit == old(didReceiveCredit)
      ensures rendererCalls == old(rendererCalls) + [Stop]
    {
      rendererCalls := rendererCalls + [Stop];
    }

    /**
     * Unregisters the all-events handler and stops the renderer if there is
     * one, then drops the callback; a second call only drops the callback
     * again. The cancel-stream listener stays registered.
     */
    method Destroy()
      modifies this
      ensures Valid() && Dead()
      ensures didReceiveCredit == old(didReceiveCredit)
      ensures rendererCalls == old(rendererCalls) + (if old(rendererLive) then [RemoveListener(None), Stop] else [])
    {
      if rendererLive {
        rendererCalls := rendererCalls + [RemoveListener(None), Stop];
        rendererLive := false;
      }
      hasCallback := false;
    }

    /** An event from the renderer, through whichever listeners are registered. */
    method OnSdkEvent(e: SdkEvent) returns (notice: Option<Notice>)
      requires Valid()
      modifies this
      ensures Valid()
      ensures rendererLive == old(rendererLive) && hasCallback == old(hasCallback)
      ensures rendererCalls == old(rendererCalls)
      ensures didReceiveCredit == old(React(ListenersNow(), didReceiveCredit, e)).credit
      ensures notice == old(React(ListenersNow(), didReceiveCredit, e)).notice
      ensures didReceiveCredit == CreditAfter(rendererLive, old(didReceiveCredit), [e])
    {
      if e.kind == UserCancelStream {
        if cancelStreamListener && hasCallback {
          return Some(AdComplete(false));
        }
        return None;
      }
      if !rendererLive {
        return None;
      }
      match e.kind {
        case AdFreePod =>
          didReceiveCredit := true;
          notice := None;
        case AdCompleted =>
          notice := Some(AdComplete(didReceiveCredit));
        case AdError =>
          notice := Some(AdComplete(didReceiveCredit));
        case NoAdsAvailable =>
          notice := Some(AdComplete(didReceiveCredit));
        case PopupWebsite =>
          notice := if hasCallback then Some(Popup(e.url)) else None;
        case _ =>
          notice := None;
      }
    }
  }

  /** A destroyed adapter reports nothing, whatever the renderer still sends it. */
  lemma DeadAdapterIsSilent(cancelStream: bool, credit: bool, e: SdkEvent)
    ensures React(Listeners(false, cancelStream, false), credit, e) == Reaction(credit, None)
  {
  }
}
