/**
 * The interactive-ad renderer's side of the conversation: the events it
 * emits to registered listeners and the calls an adapter makes on it. The
 * renderer itself is a library whose behaviour is not part of this model.
 */
module Sdk {
  import opened Wrappers
  import opened Json

  datatype EventKind =
    | AdFetchCompleted | AdStarted | AdDisplayed | AdCompleted | AdError
    | NoAdsAvailable | AdFreePod | UserCancel | OptIn | OptOut
    | SkipCardShown | PopupWebsite | UserCancelStream

  /** An event as delivered to a listener; `url` is the "url" entry of its data, if any. */
  datatype SdkEvent = SdkEvent(kind: EventKind, url: Option<string>)

  /** The three events after which the renderer is done with the engagement. */
  predicate IsCompletion(k: EventKind)
  {
    k == AdCompleted || k == AdError || k == NoAdsAvailable
  }

  /** What an adapter hands to `init`. */
  datatype InitSource =
    | VastUrl(url: Option<string>)
    | AdParameters(params: Json)
    | OptionsObject(vastConfigUrl: string, placementHash: string, slotType: string)

  /** The renderer options an adapter sets; None leaves a field at the renderer's default. */
  datatype AdOptions = AdOptions(
    supportsUserCancelStream: Option<bool>,
    fallbackAdvertisingId: Option<string>,
    userAdvertisingId: Option<string>)

  /**
   * A call on the renderer. `AddListener(None)` subscribes to every event;
   * `Init(_, _, true)` asks the renderer to start once its init completes.
   */
  datatype RendererCall =
    | AddListener(kind: Option<EventKind>)
    | RemoveListener(kind: Option<EventKind>)
    | Init(source: InitSource, options: Option<AdOptions>, startWhenReady: bool)
    | Start | Resume | Pause | Stop | Destroy

  /**
   * The credit latch every adapter keeps: set by an AD_FREE_POD event that
   * reaches a registered handler, and never reset. `credit` is its value
   * before the run.
   */
  function CreditAfter(latching: bool, credit: bool, events: seq<SdkEvent>): bool
  {
    if events == [] then credit
    else CreditAfter(latching, credit, events[..|events| - 1]) || (latching && events[|events| - 1].kind == AdFreePod)
  }

  /** The latch holds after a run exactly when it held before or the run delivered an AD_FREE_POD. */
  lemma {:induction false} CreditAfterIff(latching: bool, credit: bool, events: seq<SdkEvent>)
    ensures CreditAfter(latching, credit, events) <==>
      credit || (latching && exists j :: 0 <= j < |events| && events[j].kind == AdFreePod)
  {
    if events != [] {
      var init := events[..|events| - 1];
      CreditAfterIff(latching, credit, init);
      if latching && (exists j :: 0 <= j < |init| && init[j].kind == AdFreePod) {
        var j :| 0 <= j < |init| && init[j].kind == AdFreePod;
        assert events[j].kind == AdFreePod;
      }
      if latching && (exists j :: 0 <= j < |events| && events[j].kind == AdFreePod) {
        var j :| 0 <= j < |events| && events[j].kind == AdFreePod;
        if j < |init| {
          assert init[j].kind == AdFreePod;
        }
      }
    }
  }

  /** Once set, the latch stays set whatever follows. */
  lemma {:induction false} CreditIsMonotone(latching: bool, credit: bool, events: seq<SdkEvent>, more: seq<SdkEvent>)
    requires CreditAfter(latching, credit, events)
    ensures CreditAfter(latching, credit, events + more)
  {
    if more != [] {
      var all := events + more;
      assert all[..|all| - 1] == events + more[..|more| - 1];
      CreditIsMonotone(latching, credit, events, more[..|more| - 1]);
    } else {
      assert events + more == events;
    }
  }
}
