/**
 * The true[X] adapter of the app's `com.truex.reference` package
 * (ReferenceApp/.../reference/ads/TruexAdManager.java). It subscribes to
 * nine events; its skip-card handler exists but is never registered, and
 * its popup handler only logs. It starts the renderer with a fixed options
 * object for a preroll slot.
 */
module ReferencePackageTruex {
  import opened Wrappers
  import opened Sdk
  import opened TruexWiring

  const Registration: seq<EventKind> := [
    AdStarted, AdCompleted, AdError, NoAdsAvailable, AdFreePod, PopupWebsite, OptIn, OptOut, UserCancel]

  const Wired: Wiring := Wiring({
    AdStarted, AdCompleted, AdError, NoAdsAvailable, AdFreePod, PopupWebsite, OptIn, OptOut, UserCancel}, false)

  const VastConfigUrl: string :=
    "https://qa-get.truex.com/f7e02f55ada3e9d2e7e7f22158ce135f9fba6317/vast/config?dimension_2=1&stream_position=midroll"
  const PlacementHash: string := "temporary_hash"
  const SlotType: string := "PREROLL"

  /** Nine registered events; skip cards, fetch completion and cancel-stream have no handler. */
  lemma WiringFacts()
    ensures forall k :: k in Wired.subscribed <==> k in Registration
    ensures |Registration| == 9
    ensures SkipCardShown !in Wired.subscribed && AdFetchCompleted !in Wired.subscribed
    ensures UserCancelStream !in Wired.subscribed && !Wired.forwardsPopup
  {
  }

  /** A skip card, though the class defines a handler for it, neither calls the handler nor moves the latch. */
  lemma SkipCardIsUnheard(credit: bool, url: Option<string>)
    ensures Respond(Wired, credit, SdkEvent(SkipCardShown, url)) == Response(credit, None)
  {
  }

  /** A popup never reaches the playback handler in this variant, anywhere in a run. */
  lemma {:induction false} PopupsNeverForwarded(credit: bool, events: seq<SdkEvent>, i: nat)
    requires i < |events|
    ensures Calls(Wired, credit, events)[i].Some? ==> !Calls(Wired, credit, events)[i].value.HandlePopup?
  {
    CallsOfRun(Wired, credit, events);
  }

  class TruexAdManager {
    var didReceiveCredit: bool
    ghost var rendererCalls: seq<RendererCall>

    constructor ()
      ensures !didReceiveCredit
      ensures rendererCalls == seq(|Registration|, i requires 0 <= i < |Registration| => AddListener(Some(Registration[i])))
    {
      didReceiveCredit := false;
      rendererCalls := [
        AddListener(Some(AdStarted)), AddListener(Some(AdCompleted)), AddListener(Some(AdError)),
        AddListener(Some(NoAdsAvailable)), AddListener(Some(AdFreePod)), AddListener(Some(PopupWebsite)),
        AddListener(Some(OptIn)), AddListener(Some(OptOut)), AddListener(Some(UserCancel))];
    }

    /** Initialises the renderer with the fixed options object for a preroll slot, then starts it. */
    method StartAd()
      modifies this
      ensures didReceiveCredit == old(didReceiveCredit)
      ensures rendererCalls == old(rendererCalls) + [Init(OptionsObject(VastConfigUrl, PlacementHash, SlotType), None, false), Start]
    {
      rendererCalls := rendererCalls + [Init(OptionsObject(VastConfigUrl, PlacementHash, SlotType), None, false)];
      rendererCalls := rendererCalls + [Start];
    }

    method OnResume()
      modifies this
      ensures didReceiveCredit == old(didReceiveCredit) && rendererCalls == old(rendererCalls) + [Resume]
    {
      rendererCalls := rendererCalls + [Resume];
    }

    method OnPause()
      modifies this
      ensures didReceiveCredit == old(didReceiveCredit) && rendererCalls == old(rendererCalls) + [Pause]
    {
      rendererCalls := rendererCalls + [Pause];
    }

    method OnStop()
      modifies this
      ensures didReceiveCredit == old(didReceiveCredit) && rendererCalls == old(rendererCalls) + [Stop]
    {
      rendererCalls := rendererCalls + [Stop];
    }

    /** An event, through the handler registered for it. */
    method OnEvent(e: SdkEvent) returns (call: Option<HandlerCall>)
      modifies this
      ensures rendererCalls == old(rendererCalls)
      ensures Response(didReceiveCredit, call) == Respond(Wired, old(didReceiveCredit), e)
    {
      call := None;
      match e.kind {
        case AdFreePod =>
          didReceiveCredit := true;
        case AdCompleted =>
          call := Some(CompletionCall(didReceiveCredit));
        case AdError =>
          call := Some(CompletionCall(didReceiveCredit));
        case NoAdsAvailable =>
          call := Some(CompletionCall(didReceiveCredit));
        case _ =>
          // AD_STARTED, POPUP_WEBSITE, OPT_IN, OPT_OUT and USER_CANCEL only log;
          // the other events have no handler.
      }
    }
  }
}
