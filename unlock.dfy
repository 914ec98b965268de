/**
 * The unlock screen (UnlockFragment.java): it downloads a VAST document
 * for a booked true[X] ad, and when the user asks to unlock, walks the
 * parsed document to the ad's parameters and runs the interactive ad; the
 * AD_FREE_POD event flips the lock switch. The network request, the pull
 * parser and the background thread are not modelled: the request is a
 * recorded URL and the parser's output an event sequence.
 */
module Unlock {
  import opened Wrappers
  import opened Json
  import opened Sdk
  import opened VastMap
  import opened Replace
  import opened Player

  /** The ad server with its two placeholders. */
  const AdServer: string := "https://qa-get.truex.com/5075c46a8e5a48a206318d4ecfb5cc70101e0bcf/vast/solo?dimension_2=1&stream_position=midroll&stream_id=[stream_id]&network_user_id=[user_id]"
  const StreamIdPlaceholder: string := "[stream_id]"
  const UserIdPlaceholder: string := "[user_id]"
  const Placeholders: seq<string> := [StreamIdPlaceholder, UserIdPlaceholder]

  const AlreadyUnlocked: string := "Already Unlocked"
  const NotReady: string := "Not Ready-- Downloading VAST"
  const NotTruexAd: string := "Not true[X] ad"
  const JsonError: string := "Error parsing vastConfig response as JSON"
  const TruexAdSystemPrefix: string := "trueX"

  /** The kinds the screen listens to, in the order it registers them. */
  const Registration: seq<EventKind> :=
    [AdFetchCompleted, AdStarted, AdCompleted, AdError, NoAdsAvailable, AdFreePod,
     UserCancel, OptIn, OptOut, SkipCardShown, PopupWebsite]

  /** The toast each registered event shows. */
  function ToastFor(k: EventKind): string
  {
    match k
    case AdFetchCompleted => "adFetchCompleted"
    case AdStarted => "adStarted"
    case AdCompleted => "adCompleted"
    case AdError => "adError"
    case NoAdsAvailable => "noAds"
    case AdFreePod => "adFree"
    case UserCancel => "userCancel"
    case OptIn => "optIn"
    case OptOut => "optOut"
    case SkipCardShown => "skipCardShown"
    case PopupWebsite => "popUp"
    case _ => ""
  }

  /** Java's String.startsWith. */
  predicate StartsWith(s: string, prefix: string)
  {
    |s| >= |prefix| && s[..|prefix|] == prefix
  }

  /** The text of UUID.randomUUID().toString(): 36 lower-case hex digits and hyphens in the 8-4-4-4-12 layout. */
  predicate IsUuid(u: string)
  {
    |u| == 36
    && forall i :: 0 <= i < |u| ==>
      if i == 8 || i == 13 || i == 18 || i == 23 then u[i] == '-' else u[i] in "0123456789abcdef"
  }

  /** A UUID holds no bracket and holds a hyphen, so it can stand in for either placeholder. */
  lemma UuidIsSafe(u: string)
    requires IsUuid(u)
    ensures forall k :: 0 <= k < |Placeholders| ==> SafeFor(Placeholders[k], u)
  {
    assert u[8] == '-';
    assert '[' !in u && ']' !in u;
  }

  /** Each target replaced in turn by the matching replacement, left to right. */
  function Substitute(s: string, targets: seq<string>, ids: seq<string>): string
    requires |targets| == |ids| && forall k :: 0 <= k < |targets| ==> |targets[k]| > 0
  {
    if targets == [] then s
    else
      var n := |targets| - 1;
      ReplaceAll(Substitute(s, targets[..n], ids[..n]), targets[n], ids[n])
  }

  /** When every replacement is safe for every target, none of the targets is left. */
  lemma {:induction false} NoTargetLeft(s: string, targets: seq<string>, ids: seq<string>)
    requires |targets| == |ids| && forall k :: 0 <= k < |targets| ==> |targets[k]| > 0
    requires forall i, j :: 0 <= i < |ids| && 0 <= j < |targets| ==> SafeFor(targets[j], ids[i])
    ensures forall k :: 0 <= k < |targets| ==> !Contains(Substitute(s, targets, ids), targets[k])
  {
    if targets != [] {
      var n := |targets| - 1;
      var before := Substitute(s, targets[..n], ids[..n]);
      NoTargetLeft(s, targets[..n], ids[..n]);
      forall k | 0 <= k < |targets|
        ensures !Contains(Substitute(s, targets, ids), targets[k])
      {
        if k < n {
          assert targets[..n][k] == targets[k];
        }
        NothingLeft(before, targets[n], ids[n], targets[k]);
      }
    }
  }

  /** The request URL carries neither placeholder once each is replaced by a UUID. */
  lemma RequestHasNoPlaceholder(streamId: string, userId: string)
    requires IsUuid(streamId) && IsUuid(userId)
    ensures !Contains(Substitute(AdServer, Placeholders, [streamId, userId]), StreamIdPlaceholder)
    ensures !Contains(Substitute(AdServer, Placeholders, [streamId, userId]), UserIdPlaceholder)
  {
    UuidIsSafe(streamId);
    UuidIsSafe(userId);
    NoTargetLeft(AdServer, Placeholders, [streamId, userId]);
    assert Placeholders[0] == StreamIdPlaceholder && Placeholders[1] == UserIdPlaceholder;
  }

  /** `currentAd = vastMap["Ad"][0]["InLine"][0]`. */
  function CurrentAd(nodes: seq<Node>, root: Option<nat>): (r: Result<Option<nat>, Exception>)
    requires Linked(nodes) && (root.Some? ==> root.value < |nodes|)
    ensures r.Ok? && r.value.Some? ==> r.value.value < |nodes|
  {
    Then(nodes, Get(nodes, root, "Ad", 0), "InLine", 0)
  }

  /** `currentAd["AdSystem"][0]["CDATA"]`. */
  function AdSystemOf(nodes: seq<Node>, root: Option<nat>): Result<Option<string>, Exception>
    requires Linked(nodes) && (root.Some? ==> root.value < |nodes|)
  {
    TextOf(nodes, Then(nodes, CurrentAd(nodes, root), "AdSystem", 0))
  }

  /** `currentAd["Creatives"][0]["Creative"][0]["Linear"][0]["AdParameters"][0]["CDATA"]`. */
  function AdParametersOf(nodes: seq<Node>, root: Option<nat>): Result<Option<string>, Exception>
    requires Linked(nodes) && (root.Some? ==> root.value < |nodes|)
  {
    var creative := Then(nodes, Then(nodes, CurrentAd(nodes, root), "Creatives", 0), "Creative", 0);
    TextOf(nodes, Then(nodes, Then(nodes, creative, "Linear", 0), "AdParameters", 0))
  }

  /** What a press of the unlock button comes to. */
  datatype UnlockOutcome = ShowToast(message: string) | StartRenderer(adParameters: Json) | Crash(thrown: Exception)

  /**
   * The unlock button: refused while unlocked or before the VAST is ready;
   * otherwise the first ad's AdSystem decides whether it is a true[X] ad,
   * and its AdParameters text, parsed as a JSON object, starts the renderer.
   * `parse` is `new JSONObject(String)`, None when it throws.
   */
  function UnlockDecision(unlocked: bool, ready: bool, nodes: seq<Node>, root: Option<nat>,
                          parse: string -> Option<Json>): (r: UnlockOutcome)
    requires Linked(nodes) && (root.Some? ==> root.value < |nodes|)
    ensures unlocked ==> r == ShowToast(AlreadyUnlocked)
    ensures !unlocked && !ready ==> r == ShowToast(NotReady)
    ensures r.StartRenderer? <==>
      && !unlocked && ready
      && AdSystemOf(nodes, root).Ok? && AdSystemOf(nodes, root).value.Some?
      && StartsWith(AdSystemOf(nodes, root).value.value, TruexAdSystemPrefix)
      && AdParametersOf(nodes, root).Ok? && AdParametersOf(nodes, root).value.Some?
      && parse(AdParametersOf(nodes, root).value.value).Some?
    ensures r.StartRenderer? ==> Some(r.adParameters) == parse(AdParametersOf(nodes, root).value.value)
    ensures r == ShowToast(NotTruexAd) <==>
      !unlocked && ready && AdSystemOf(nodes, root).Ok? && AdSystemOf(nodes, root).value.Some?
      && !StartsWith(AdSystemOf(nodes, root).value.value, TruexAdSystemPrefix)
  {
    if unlocked then ShowToast(AlreadyUnlocked)
    else if !ready then ShowToast(NotReady)
    else
      var adSystem := AdSystemOf(nodes, root);
      if adSystem.Err? then Crash(adSystem.error)
      else if adSystem.value.None? then Crash(NullPointer)
      else if !StartsWith(adSystem.value.value, TruexAdSystemPrefix) then ShowToast(NotTruexAd)
      else
        var adParameters := AdParametersOf(nodes, root);
        if adParameters.Err? then Crash(adParameters.error)
        else if adParameters.value.None? then Crash(NullPointer)
        else
          match parse(adParameters.value.value)
          case None => ShowToast(JsonError)
          case Some(json) => StartRenderer(json)
  }

  /** The replacements the URL loop draws, starting from draw `start`. */
  function Draws(uuids: nat -> string, start: nat, n: nat): (ids: seq<string>)
    ensures |ids| == n
  {
    seq(n, k requires 0 <= k < n => uuids(start + k))
  }

  /** The arena's invariants: every link points into it and child lists keep document order. */
  ghost predicate Sound(nodes: seq<Node>, root: Option<nat>)
  {
    Linked(nodes) && Ordered(nodes) && (root.Some? ==> root.value < |nodes|)
  }

  class UnlockFragment {
    /** The locking switch is checked. */
    var unlocked: bool
    var vastReady: bool
    /** The heap of VAST maps and `vastMap`, the root. */
    var nodes: seq<Node>
    var vastMap: Option<nat>
    /** A renderer has been created (the field is never cleared). */
    var rendererLive: bool
    /** The UUIDs UUID.randomUUID() hands out, in order, and how many are taken. */
    const uuids: nat -> string
    var uuidsDrawn: nat
    ghost var requests: seq<string>
    ghost var rendererCalls: seq<RendererCall>
    ghost var toasts: seq<string>
    ghost var browsed: seq<Option<string>>

    ghost predicate Valid()
      reads this
    {
      Sound(nodes, vastMap)
    }

    constructor (uuids: nat -> string)
      ensures Valid() && !unlocked && !vastReady && nodes == [] && vastMap.None? && !rendererLive
      ensures this.uuids == uuids && uuidsDrawn == 0
      ensures requests == [] && rendererCalls == [] && toasts == [] && browsed == []
    {
      unlocked := false;
      vastReady := false;
      nodes := [];
      vastMap := None;
      rendererLive := false;
      this.uuids := uuids;
      uuidsDrawn := 0;
      requests := [];
      rendererCalls := [];
      toasts := [];
      browsed := [];
    }

    /** The screen is created: the VAST request goes out for the ad server. */
    method OnCreateView()
      requires Valid()
      modifies this
      ensures Valid()
      ensures requests == old(requests) + [Substitute(AdServer, Placeholders, Draws(uuids, old(uuidsDrawn), 2))]
      ensures uuidsDrawn == old(uuidsDrawn) + 2
      ensures unlocked == old(unlocked) && vastReady == old(vastReady) && nodes == old(nodes) && vastMap == old(vastMap)
      ensures rendererLive == old(rendererLive) && rendererCalls == old(rendererCalls)
      ensures toasts == old(toasts) && browsed == old(browsed)
    {
      FetchAd(AdServer);
    }

    /** Each placeholder of the URL, in turn, is replaced by a fresh UUID; then the URL is requested. */
    method FetchAd(rawUrl: string)
      modifies this
      ensures requests == old(requests) + [Substitute(rawUrl, Placeholders, Draws(uuids, old(uuidsDrawn), 2))]
      ensures uuidsDrawn == old(uuidsDrawn) + 2
      ensures unlocked == old(unlocked) && vastReady == old(vastReady) && nodes == old(nodes) && vastMap == old(vastMap)
      ensures rendererLive == old(rendererLive) && rendererCalls == old(rendererCalls)
      ensures toasts == old(toasts) && browsed == old(browsed)
    {
      var urlString := rawUrl;
      for i := 0 to |Placeholders|
        invariant uuidsDrawn == old(uuidsDrawn) + i
        invariant urlString == Substitute(rawUrl, Placeholders[..i], Draws(uuids, old(uuidsDrawn), i))
        invariant unlocked == old(unlocked) && vastReady == old(vastReady) && nodes == old(nodes) && vastMap == old(vastMap)
        invariant rendererLive == old(rendererLive) && requests == old(requests)
        invariant rendererCalls == old(rendererCalls) && toasts == old(toasts) && browsed == old(browsed)
      {
        assert Placeholders[..i + 1][..i] == Placeholders[..i];
        assert Draws(uuids, old(uuidsDrawn), i + 1)[..i] == Draws(uuids, old(uuidsDrawn), i);
        urlString := ReplaceAll(urlString, Placeholders[i], uuids(uuidsDrawn));
        uuidsDrawn := uuidsDrawn + 1;
      }
      assert Placeholders[..2] == Placeholders;
      requests := requests + [urlString];
    }

    /**
     * The download thread's loop over the parser's events: it builds the
     * maps into the heap and marks the VAST ready when it reaches the end of
     * the document. An exception ends the thread early with the heap as it
     * was left and the VAST not ready; `thrown` names it.
     */
    method FetchXmlToVastMap(events: seq<XmlEvent>) returns (thrown: Option<Exception>)
      requires Valid()
      modifies this
      ensures Valid()
      ensures var r := Run(Build(old(nodes), old(vastMap), None), events);
        && nodes == r.b.nodes && vastMap == r.b.root
        && thrown == (if r.Halt? then Some(r.why) else None)
        && vastReady == (old(vastReady) || r.Continue?)
      ensures unlocked == old(unlocked) && rendererLive == old(rendererLive) && uuidsDrawn == old(uuidsDrawn)
      ensures requests == old(requests) && rendererCalls == old(rendererCalls)
      ensures toasts == old(toasts) && browsed == old(browsed)
    {
      ghost var b0 := Build(nodes, vastMap, None);
      var current: Option<nat> := None;
      var i := 0;
      while i < |events|
        invariant 0 <= i <= |events|
        invariant Run(b0, events[..i]) == Continue(Build(nodes, vastMap, current))
        invariant vastReady == old(vastReady)
        invariant unlocked == old(unlocked) && rendererLive == old(rendererLive) && uuidsDrawn == old(uuidsDrawn)
        invariant requests == old(requests) && rendererCalls == old(rendererCalls)
        invariant toasts == old(toasts) && browsed == old(browsed)
      {
        assert events[..i + 1][..i] == events[..i];
        var next, failure := ReadEvent(events[i], current);
        if failure.Some? {
          RunStaysHalted(b0, events, i + 1);
          RunKeepsOrder(b0, events);
          return failure;
        }
        current := next;
        i := i + 1;
      }
      assert events[..i] == events;
      RunKeepsOrder(b0, events);
      vastReady := true;
      thrown := None;
    }

    /** The body of the download loop for one event, `current` being the open map. */
    method ReadEvent(e: XmlEvent, current: Option<nat>) returns (next: Option<nat>, thrown: Option<Exception>)
      requires WellLinked(Build(nodes, vastMap, current))
      modifies this
      ensures StepOn(Build(old(nodes), old(vastMap), current), e) ==
        if thrown.None? then Continue(Build(nodes, vastMap, next)) else Halt(Build(nodes, vastMap, current), thrown.value)
      ensures vastReady == old(vastReady) && unlocked == old(unlocked) && rendererLive == old(rendererLive)
      ensures uuidsDrawn == old(uuidsDrawn) && requests == old(requests) && rendererCalls == old(rendererCalls)
      ensures toasts == old(toasts) && browsed == old(browsed)
    {
      next, thrown := current, None;
      match e {
        case StartTag(elementName, attributes) =>
          var parent := current;
          var id := |nodes|;
          var node := Attributes(attributes);
          if parent.None? {
            nodes := nodes + [node];
          } else {
            var p := parent.value;
            node := node[ParentKey := Ref(p)];
            nodes := nodes + [node];
            if elementName in nodes[p] && !nodes[p][elementName].List? {
              return current, Some(ClassCast);
            }
            var siblings := if elementName in nodes[p] then nodes[p][elementName].ids else [];
            nodes := nodes[p := nodes[p][elementName := List(siblings + [id])]];
          }
          next := Some(id);
          if vastMap.None? {
            vastMap := next;
          }
        case Text(text) =>
          if current.None? {
            return current, Some(NullPointer);
          }
          var c := current.value;
          nodes := nodes[c := nodes[c][TextKey := Str(text)]];
        case EndTag =>
          if current.Some? {
            var c := current.value;
            if ParentKey !in nodes[c] {
              next := None;
            } else if nodes[c][ParentKey].Ref? {
              var parent := nodes[c][ParentKey].id;
              nodes := nodes[c := nodes[c] - {ParentKey}];
              next := Some(parent);
            } else {
              return current, Some(ClassCast);
            }
          }
        case Other =>
        case Malformed =>
          return current, Some(ParserError);
      }
    }

    /**
     * The unlock button: the outcome of `UnlockDecision` on the screen's
     * state; a toast is shown, the renderer started, or the exception
     * escapes.
     */
    method UnlockButtonClicked(parse: string -> Option<Json>) returns (outcome: UnlockOutcome)
      requires Valid()
      modifies this
      ensures Valid()
      ensures outcome == UnlockDecision(unlocked, vastReady, nodes, vastMap, parse)
      ensures outcome.ShowToast? ==> toasts == old(toasts) + [outcome.message] && rendererCalls == old(rendererCalls)
      ensures outcome.StartRenderer? ==>
        && toasts == old(toasts) && rendererLive
        && rendererCalls == old(rendererCalls) + RendererStart(old(rendererLive), outcome.adParameters)
      ensures outcome.Crash? ==> toasts == old(toasts) && rendererCalls == old(rendererCalls)
      ensures !outcome.StartRenderer? ==> rendererLive == old(rendererLive)
      ensures unlocked == old(unlocked) && vastReady == old(vastReady) && nodes == old(nodes) && vastMap == old(vastMap)
      ensures uuidsDrawn == old(uuidsDrawn) && requests == old(requests) && browsed == old(browsed)
    {
      outcome := UnlockDecision(unlocked, vastReady, nodes, vastMap, parse);
      match outcome {
        case ShowToast(message) => toasts := toasts + [message];
        case StartRenderer(adParameters) => StartTruexAdRenderer(adParameters);
        case Crash(_) =>
      }
    }

    /** The calls a renderer start makes: destroy the previous renderer, if any; register the listeners; init and start. */
    static function RendererStart(hadRenderer: bool, adParameters: Json): seq<RendererCall>
    {
      (if hadRenderer then [Destroy] else [])
      + seq(|Registration|, i requires 0 <= i < |Registration| => AddListener(Some(Registration[i])))
      + [Init(AdParameters(adParameters), Some(AdOptions(None, None, None)), true)]
    }

    method StartTruexAdRenderer(adParameters: Json)
      modifies this
      ensures rendererLive && rendererCalls == old(rendererCalls) + RendererStart(old(rendererLive), adParameters)
      ensures unlocked == old(unlocked) && vastReady == old(vastReady) && nodes == old(nodes) && vastMap == old(vastMap)
      ensures uuidsDrawn == old(uuidsDrawn) && requests == old(requests) && toasts == old(toasts) && browsed == old(browsed)
    {
      if rendererLive {
        rendererCalls := rendererCalls + [Destroy];
      }
      rendererLive := true;
      rendererCalls := rendererCalls + [AddListener(Some(AdFetchCompleted)), AddListener(Some(AdStarted)),
        AddListener(Some(AdCompleted)), AddListener(Some(AdError)), AddListener(Some(NoAdsAvailable)),
        AddListener(Some(AdFreePod)), AddListener(Some(UserCancel)), AddListener(Some(OptIn)),
        AddListener(Some(OptOut)), AddListener(Some(SkipCardShown)), AddListener(Some(PopupWebsite))];
      rendererCalls := rendererCalls + [Init(AdParameters(adParameters), Some(AdOptions(None, None, None)), true)];
    }

    method OnResume()
      modifies this
      ensures rendererCalls == old(rendererCalls) + if rendererLive then [Resume] else []
      ensures rendererLive == old(rendererLive) && unlocked == old(unlocked) && vastReady == old(vastReady)
      ensures nodes == old(nodes) && vastMap == old(vastMap) && uuidsDrawn == old(uuidsDrawn)
      ensures requests == old(requests) && toasts == old(toasts) && browsed == old(browsed)
    {
      if rendererLive {
        rendererCalls := rendererCalls + [Resume];
      }
    }

    method OnPause()
      modifies this
      ensures rendererCalls == old(rendererCalls) + if rendererLive then [Pause] else []
      ensures rendererLive == old(rendererLive) && unlocked == old(unlocked) && vastReady == old(vastReady)
      ensures nodes == old(nodes) && vastMap == old(vastMap) && uuidsDrawn == old(uuidsDrawn)
      ensures requests == old(requests) && toasts == old(toasts) && browsed == old(browsed)
    {
      if rendererLive {
        rendererCalls := rendererCalls + [Pause];
      }
    }

    /** Destroys the renderer but keeps the reference, as the screen does. */
    method OnDestroy()
      modifies this
      ensures rendererCalls == old(rendererCalls) + if rendererLive then [Destroy] else []
      ensures rendererLive == old(rendererLive) && unlocked == old(unlocked) && vastReady == old(vastReady)
      ensures nodes == old(nodes) && vastMap == old(vastMap) && uuidsDrawn == old(uuidsDrawn)
      ensures requests == old(requests) && toasts == old(toasts) && browsed == old(browsed)
    {
      if rendererLive {
        rendererCalls := rendererCalls + [Destroy];
      }
    }

    /**
     * A renderer event reaches the handler registered for its kind: each
     * shows its toast, AD_FREE_POD checks the lock switch, and POPUP_WEBSITE
     * opens the browser on its "url". Kinds with no handler change nothing.
     */
    method OnEvent(e: SdkEvent)
      modifies this
      ensures unlocked == CreditAfter(e.kind in Registration, old(unlocked), [e])
      ensures toasts == old(toasts) + if e.kind in Registration then [ToastFor(e.kind)] else []
      ensures browsed == old(browsed) + if e.kind == PopupWebsite then [e.url] else []
      ensures rendererLive == old(rendererLive) && rendererCalls == old(rendererCalls) && vastReady == old(vastReady)
      ensures nodes == old(nodes) && vastMap == old(vastMap) && uuidsDrawn == old(uuidsDrawn) && requests == old(requests)
    {
      if e.kind !in Registration {
        return;
      }
      toasts := toasts + [ToastFor(e.kind)];
      if e.kind == AdFreePod {
        UserEarnedCredit();
      } else if e.kind == PopupWebsite {
        browsed := browsed + [e.url];
      }
    }

    method UserEarnedCredit()
      modifies this
      ensures unlocked
      ensures rendererLive == old(rendererLive) && rendererCalls == old(rendererCalls) && vastReady == old(vastReady)
      ensures nodes == old(nodes) && vastMap == old(vastMap) && uuidsDrawn == old(uuidsDrawn) && requests == old(requests)
      ensures toasts == old(toasts) && browsed == old(browsed)
    {
      unlocked := true;
    }
  }
}
