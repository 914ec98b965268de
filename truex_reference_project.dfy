/**
 * The true[X] adapter of the separate `Reference` project
 * (Reference/.../reference/ads/TruexAdManager.java). It subscribes, by
 * event name, to six events only: opt-in, opt-out and user-cancel are not
 * among them, and its popup handler only logs.
 */
module ReferenceProjectTruex {
  import opened Wrappers
  import opened Sdk
  import opened TruexWiring
  import ReferencePackageTruex

  const Registration: seq<EventKind> := [AdStarted, AdCompleted, AdError, NoAdsAvailable, AdFreePod, PopupWebsite]

  const Wired: Wiring := Wiring({AdStarted, AdCompleted, AdError, NoAdsAvailable, AdFreePod, PopupWebsite}, false)

  const VastConfigUrl: string :=
    "https://qa-get.truex.com/f7e02f55ada3e9d2e7e7f22158ce135f9fba6317/vast/config?dimension_2=1&stream_position=midroll"
  const PlacementHash: string := "temporary_hash"
  const SlotType: string := "PREROLL"

  /** Six registered events; the three user-choice events are not subscribed. */
  lemma WiringFacts()
    ensures forall k :: k in Wired.subscribed <==> k in Registration
    ensures |Registration| == 6
    ensures OptIn !in Wired.subscribed && OptOut !in Wired.subscribed && UserCancel !in Wired.subscribed
    ensures !Wired.forwardsPopup
  {
  }

  /**
   * The calls this variant makes over any run are the calls the package
   * variant makes: the events it does not subscribe to only log there.
   */
  lemma {:induction false} SameCallsAsPackageVariant(credit: bool, events: seq<SdkEvent>, i: nat)
    requires i < |events|
    ensures Calls(Wired, credit, events)[i] == Calls(ReferencePackageTruex.Wired, credit, events)[i]
  {
    CallsOfRun(Wired, credit, events);
    CallsOfRun(ReferencePackageTruex.Wired, credit, events);
  }

  class TruexAdManager {
    var didReceiveCredit: bool
    ghost var rendererCalls: seq<RendererCall>

    constructor ()
      ensures !didReceiveCredit
      ensures rendererCalls == seq(|Registration|, i requires 0 <= i < |Registration| => AddListener(Some(Registration[i])))
    {
      didReceiveCredit := false;
      rendererCalls := [
        AddListener(Some(AdStarted)), AddListener(Some(AdCompleted)), AddListener(Some(AdError)),
        AddListener(Some(NoAdsAvailable)), AddListener(Some(AdFreePod)), AddListener(Some(PopupWebsite))];
    }

    /** Initialises the renderer with the fixed options object for a preroll slot, then starts it. */
    method StartAd()
      modifies this
      ensures didReceiveCredit == old(didReceiveCredit)
      ensures rendererCalls == old(rendererCalls) + [Init(OptionsObject(VastConfigUrl, PlacementHash, SlotType), None, false), Start]
    {
      rendererCalls := rendererCalls + [Init(OptionsObject(VastConfigUrl, PlacementHash, SlotType), None, false), Start];
    }

    method OnResume()
      modifies this
      ensures didReceiveCredit == old(didReceiveCredit) && rendererCalls == old(rendererCalls) + [Resume]
    {
      rendererCalls := rendererCalls + [Resume];
    }

    method OnPause()
      modifies this
      ensures didReceiveCredit == old(didReceiveCredit) && rendererCalls == old(rendererCalls) + [Pause]
    {
      rendererCalls := rendererCalls + [Pause];
    }

    method OnStop()
      modifies this
      ensures didReceiveCredit == old(didReceiveCredit) && rendererCalls == old(rendererCalls) + [Stop]
    {
      rendererCalls := rendererCalls + [Stop];
    }

    /** An event, through the handler registered for its name. */
    method OnEvent(e: SdkEvent) returns (call: Option<HandlerCall>)
      modifies this
      ensures rendererCalls == old(rendererCalls)
      ensures Response(didReceiveCredit, call) == Respond(Wired, old(didReceiveCredit), e)
    {
      if e.kind == AdFreePod {
        didReceiveCredit := true;
        call := None;
      } else if e.kind == AdCompleted || e.kind == AdError || e.kind == NoAdsAvailable {
        call := Some(CompletionCall(didReceiveCredit));
      } else {
        // AD_STARTED and POPUP_WEBSITE only log; nothing else is subscribed.
        call := None;
      }
    }
  }
}
