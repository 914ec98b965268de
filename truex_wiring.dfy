/**
 * What the three TruexAdManager variants share: a credit latch, handlers
 * registered for a set of renderer events, and an `onCompletion` that
 * tells the playback handler how to go on. The variants differ only in
 * which events they subscribe to and in whether the popup handler forwards
 * its URL. The playback handler is modelled by the call each event makes on it.
 */
module TruexWiring {
  import opened Wrappers
  import opened Sdk

  /** A call on the playback handler. */
  datatype HandlerCall = ResumeStream | DisplayLinearAds | HandlePopup(url: Option<string>)

  /** `onCompletion`: with credit the stream resumes past the linear ads, without it they play. */
  function CompletionCall(credit: bool): HandlerCall
  {
    if credit then ResumeStream else DisplayLinearAds
  }

  /** Exactly one of the two continuations, chosen by the latch. */
  lemma CompletionCallChoosesOne(credit: bool)
    ensures CompletionCall(credit) in {ResumeStream, DisplayLinearAds}
    ensures CompletionCall(credit) == ResumeStream <==> credit
    ensures CompletionCall(credit) == DisplayLinearAds <==> !credit
  {
  }

  /** Which events a variant registers handlers for, and whether its popup handler forwards the URL. */
  datatype Wiring = Wiring(subscribed: set<EventKind>, forwardsPopup: bool)

  /** The latch after an event, and the handler call it made, if any. */
  datatype Response = Response(credit: bool, call: Option<HandlerCall>)

  /** One event through the handler registered for it, if there is one. */
  function Respond(w: Wiring, credit: bool, e: SdkEvent): (r: Response)
    ensures r.credit <==> credit || (AdFreePod in w.subscribed && e.kind == AdFreePod)
    ensures r.call.Some? <==>
      e.kind in w.subscribed && (IsCompletion(e.kind) || (e.kind == PopupWebsite && w.forwardsPopup))
    ensures e.kind in w.subscribed && IsCompletion(e.kind) ==>
      r.call == Some(if credit then ResumeStream else DisplayLinearAds)
    ensures r.call.Some? && r.call.value.HandlePopup? ==> r.call.value.url == e.url
  {
    if e.kind !in w.subscribed then Response(credit, None)
    else if e.kind == AdFreePod then Response(true, None)
    else if IsCompletion(e.kind) then Response(credit, Some(CompletionCall(credit)))
    else if e.kind == PopupWebsite && w.forwardsPopup then Response(credit, Some(HandlePopup(e.url)))
    else Response(credit, None)
  }

  /** The handler calls a run of events makes, one slot per event, in order. */
  function Calls(w: Wiring, credit: bool, events: seq<SdkEvent>): (cs: seq<Option<HandlerCall>>)
    ensures |cs| == |events|
  {
    if events == [] then []
    else
      var init := events[..|events| - 1];
      Calls(w, credit, init) + [Respond(w, CreditAfter(AdFreePod in w.subscribed, credit, init), events[|events| - 1]).call]
  }

  /** What a run makes at event i, stated from the events before it. */
  function CallAt(w: Wiring, credit: bool, events: seq<SdkEvent>, i: nat): Option<HandlerCall>
    requires i < |events|
  {
    var earned := credit || (AdFreePod in w.subscribed && exists j :: 0 <= j < i && events[j].kind == AdFreePod);
    var k := events[i].kind;
    if k in w.subscribed && IsCompletion(k) then Some(if earned then ResumeStream else DisplayLinearAds)
    else if k in w.subscribed && k == PopupWebsite && w.forwardsPopup then Some(HandlePopup(events[i].url))
    else None
  }

  /**
   * Over a whole run: each subscribed completion resumes the stream exactly
   * when an AD_FREE_POD came before it (or the latch already held), and
   * shows the linear ads otherwise; nothing else but a forwarded popup calls
   * the handler.
   */
  lemma {:induction false} CallsOfRun(w: Wiring, credit: bool, events: seq<SdkEvent>)
    ensures forall i :: 0 <= i < |events| ==> Calls(w, credit, events)[i] == CallAt(w, credit, events, i)
  {
    if events != [] {
      var n := |events| - 1;
      var init := events[..n];
      CallsOfRun(w, credit, init);
      CreditAfterIff(AdFreePod in w.subscribed, credit, init);
      forall i | 0 <= i < n
        ensures CallAt(w, credit, init, i) == CallAt(w, credit, events, i)
      {
        assert forall j :: 0 <= j < i ==> init[j] == events[j];
      }
      assert forall j :: 0 <= j < n ==> init[j] == events[j];
    }
  }

  /** The latch a handler leaves is the shared credit latch, event by event. */
  lemma RespondLatches(w: Wiring, credit: bool, events: seq<SdkEvent>, e: SdkEvent)
    ensures Respond(w, CreditAfter(AdFreePod in w.subscribed, credit, events), e).credit
      == CreditAfter(AdFreePod in w.subscribed, credit, events + [e])
  {
    assert (events + [e])[..|events + [e]| - 1] == events;
  }

  /** The number of completions a run hands to `onCompletion`. */
  function CountCompletions(w: Wiring, events: seq<SdkEvent>): nat
  {
    if events == [] then 0
    else
      var last := events[|events| - 1].kind;
      CountCompletions(w, events[..|events| - 1]) + (if last in w.subscribed && IsCompletion(last) then 1 else 0)
  }

  /** The number of ResumeStream and DisplayLinearAds calls in a run of handler calls. */
  function CountContinuations(cs: seq<Option<HandlerCall>>): nat
  {
    if cs == [] then 0
    else
      var last := cs[|cs| - 1];
      CountContinuations(cs[..|cs| - 1]) + (if last == Some(ResumeStream) || last == Some(DisplayLinearAds) then 1 else 0)
  }

  /** Every subscribed completion continues playback exactly once, and nothing else does. */
  lemma {:induction false} OneContinuationPerCompletion(w: Wiring, credit: bool, events: seq<SdkEvent>)
    ensures CountContinuations(Calls(w, credit, events)) == CountCompletions(w, events)
  {
    if events != [] {
      var cs := Calls(w, credit, events);
      OneContinuationPerCompletion(w, credit, events[..|events| - 1]);
      assert cs[..|cs| - 1] == Calls(w, credit, events[..|events| - 1]);
    }
  }
}
