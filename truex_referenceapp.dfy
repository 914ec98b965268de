/**
 * The true[X] adapter of the reference app's player screen
 * (com.truex.referenceapp.ads.TruexAdManager). It subscribes to eleven
 * events, forwards popups, and starts the renderer with a VAST URL built
 * from the device's advertising id, which arrives asynchronously.
 */
module ReferenceAppTruex {
  import opened Wrappers
  import opened Sdk
  import opened TruexWiring

  /** The events handlers are registered for, in registration order. */
  const Registration: seq<EventKind> := [
    AdFetchCompleted, AdStarted, AdCompleted, AdError, NoAdsAvailable, AdFreePod,
    UserCancel, OptIn, OptOut, SkipCardShown, PopupWebsite]

  const Wired: Wiring := Wiring({
    AdFetchCompleted, AdStarted, AdCompleted, AdError, NoAdsAvailable, AdFreePod,
    UserCancel, OptIn, OptOut, SkipCardShown, PopupWebsite}, true)

  /** The stubbed ad request: this prefix, then the advertising id. */
  const VastUrlPrefix: string :=
    "https://qa-get.truex.com/f7e02f55ada3e9d2e7e7f22158ce135f9fba6317/vast/config?dimension_2=1&stream_position=midroll&network_user_id="

  /** Java's string concatenation writes a null id as "null". */
  function JavaText(s: Option<string>): string
  {
    if s.Some? then s.value else "null"
  }

  function GetVastUrl(adId: Option<string>): (url: string)
    ensures |url| >= |VastUrlPrefix| && url[..|VastUrlPrefix|] == VastUrlPrefix
  {
    VastUrlPrefix + JavaText(adId)
  }

  /** The id a VAST URL of this form carries. */
  function NetworkUserId(url: string): string
    requires |url| >= |VastUrlPrefix|
  {
    url[|VastUrlPrefix|..]
  }

  /** The URL carries the id unchanged after the fixed prefix, so distinct ids give distinct URLs. */
  lemma VastUrlCarriesId(adId: Option<string>, other: Option<string>)
    ensures NetworkUserId(GetVastUrl(adId)) == JavaText(adId)
    ensures JavaText(adId) != JavaText(other) ==> GetVastUrl(adId) != GetVastUrl(other)
  {
    assert NetworkUserId(GetVastUrl(other)) == JavaText(other);
  }

  /**
   * Every registered event has a handler in the dispatch and vice versa:
   * eleven events, popups included; USER_CANCEL_STREAM and AD_DISPLAYED are
   * not among them.
   */
  lemma WiringFacts()
    ensures forall k :: k in Wired.subscribed <==> k in Registration
    ensures |Registration| == 11
    ensures UserCancelStream !in Wired.subscribed && AdDisplayed !in Wired.subscribed
  {
  }

  class TruexAdManager {
    var didReceiveCredit: bool
    ghost var rendererCalls: seq<RendererCall>

    constructor ()
      ensures !didReceiveCredit
      ensures rendererCalls == seq(|Registration|, i requires 0 <= i < |Registration| => AddListener(Some(Registration[i])))
    {
      didReceiveCredit := false;
      rendererCalls := [
        AddListener(Some(AdFetchCompleted)), AddListener(Some(AdStarted)), AddListener(Some(AdCompleted)),
        AddListener(Some(AdError)), AddListener(Some(NoAdsAvailable)), AddListener(Some(AdFreePod)),
        AddListener(Some(UserCancel)), AddListener(Some(OptIn)), AddListener(Some(OptOut)),
        AddListener(Some(SkipCardShown)), AddListener(Some(PopupWebsite))];
    }

    /**
     * The second half of `startAd`, run when the advertising id lookup
     * answers (with None when tracking is limited or the lookup failed): the
     * renderer is initialised with the VAST URL for that id and starts once ready.
     */
    method StartAd(adId: Option<string>)
      modifies this
      ensures didReceiveCredit == old(didReceiveCredit)
      ensures rendererCalls == old(rendererCalls) + [Init(VastUrl(Some(GetVastUrl(adId))), Some(AdOptions(None, None, adId)), true)]
    {
      var options := AdOptions(None, None, adId);
      rendererCalls := rendererCalls + [Init(VastUrl(Some(GetVastUrl(adId))), Some(options), true)];
    }

    method OnResume()
      modifies this
      ensures didReceiveCredit == old(didReceiveCredit) && rendererCalls == old(rendererCalls) + [Resume]
    {
      rendererCalls := rendererCalls + [Resume];
    }

    method OnPause()
      modifies this
      ensures didReceiveCredit == old(didReceiveCredit) && rendererCalls == old(rendererCalls) + [Pause]
    {
      rendererCalls := rendererCalls + [Pause];
    }

    /** Only logs: this variant does not stop the renderer. */
    method OnStop()
      ensures didReceiveCredit == old(didReceiveCredit) && rendererCalls == old(rendererCalls)
    {
    }

    method OnDestroy()
      modifies this
      ensures didReceiveCredit == old(didReceiveCredit) && rendererCalls == old(rendererCalls) + [Destroy]
    {
      rendererCalls := rendererCalls + [Destroy];
    }

    /** An event, through the handler registered for it. */
    method OnEvent(e: SdkEvent) returns (call: Option<HandlerCall>)
      modifies this
      ensures rendererCalls == old(rendererCalls)
      ensures Response(didReceiveCredit, call) == Respond(Wired, old(didReceiveCredit), e)
    {
      match e.kind {
        case AdFreePod =>
          didReceiveCredit := true;
          call := None;
        case AdCompleted =>
          call := Some(CompletionCall(didReceiveCredit));
        case AdError =>
          call := Some(CompletionCall(didReceiveCredit));
        case NoAdsAvailable =>
          call := Some(CompletionCall(didReceiveCredit));
        case PopupWebsite =>
          call := Some(HandlePopup(e.url));
        case AdFetchCompleted =>
          call := None;
        case AdStarted =>
          call := None;
        case UserCancel =>
          call := None;
        case OptIn =>
          call := None;
        case OptOut =>
          call := None;
        case SkipCardShown =>
          call := None;
        case _ =>
          // AD_DISPLAYED and USER_CANCEL_STREAM have no handler here.
          call := None;
      }
    }
  }
}
