/**
 * The player screen (PlayerFragment.java): it switches between the content
 * stream, an interactive true[X] ad and a pod of linear ads, picks the first
 * ad break due at the content position, and remembers where to resume the
 * content. The player and the screen are modelled by a ghost trace of the
 * commands given to them; the content position is an input.
 */
module Player {
  import opened Wrappers
  import opened Sdk
  import opened TruexWiring
  import ReferenceAppTruex

  /** The marker an ad URL carries when it is an interactive true[X] ad. */
  const TruexHost: string := "get.truex.com"

  datatype DisplayMode = ContentStream | InteractiveAd | LinearAds

  /** One item of a linear-ad pod: its URL and its placeholder length in ms. */
  datatype PodItem = PodItem(url: string, durationMs: int)

  datatype Source = Content | AdPod(items: seq<PodItem>)

  /** A call on the player, on the true[X] adapter, or on the browser. */
  datatype PlayerCommand =
    | PlayWhenReady(play: bool)
    | SetSource(source: Source)
    | SeekTo(positionMs: int)
    | Release
    | StartInteractiveAd(vastUrl: string)
    | OpenBrowser(url: string)

  /** `t` occurs in `s` starting at index `i`. */
  predicate OccursAt(s: string, t: string, i: int)
  {
    0 <= i && i + |t| <= |s| && s[i..i + |t|] == t
  }

  /** Java's String.contains: `t` occurs somewhere in `s`. */
  function Contains(s: string, t: string): (r: bool)
    ensures r <==> exists i :: OccursAt(s, t, i)
    decreases |s|
  {
    if |s| < |t| then false
    else if s[..|t|] == t then assert OccursAt(s, t, 0); true
    else
      var r := Contains(s[1..], t);
      ContainsStep(s, t);
      r
  }

  /** When `t` is not a prefix of `s`, it occurs in `s` exactly when it occurs in `s` without its first character. */
  lemma ContainsStep(s: string, t: string)
    requires |s| >= |t| && s[..|t|] != t
    ensures (exists i :: OccursAt(s[1..], t, i)) <==> (exists i :: OccursAt(s, t, i))
  {
    if exists i :: OccursAt(s[1..], t, i) {
      var i :| OccursAt(s[1..], t, i);
      assert s[1..][i..i + |t|] == s[i + 1..i + 1 + |t|];
      assert OccursAt(s, t, i + 1);
    }
    if exists i :: OccursAt(s, t, i) {
      var i :| OccursAt(s, t, i);
      assert i != 0 by { assert s[0..|t|] == s[..|t|]; }
      assert s[1..][i - 1..i - 1 + |t|] == s[i..i + |t|];
      assert OccursAt(s[1..], t, i - 1);
    }
  }

  /** PlayerFragment.isTruexAdUrl: the URL names the true[X] host anywhere in it. */
  predicate IsTruexAdUrl(url: string)
    ensures IsTruexAdUrl(url) <==> exists i :: OccursAt(url, TruexHost, i)
  {
    Contains(url, TruexHost)
  }

  /** The true[X] host marks a URL wherever it stands in it, a sub-domain prefix included. */
  lemma TruexUrlExample()
    ensures IsTruexAdUrl("https://qa-get.truex.com/x")
  {
    assert OccursAt("https://qa-get.truex.com/x", TruexHost, 11);
  }

  /** The linear pod of a break: every non-true[X] URL with its duration in ms, in order. */
  function LinearPod(urls: seq<string>, durations: seq<int>): (pod: seq<PodItem>)
    requires |durations| >= |urls|
    ensures |pod| <= |urls|
  {
    if urls == [] then []
    else
      var n := |urls| - 1;
      LinearPod(urls[..n], durations) + (if IsTruexAdUrl(urls[n]) then [] else [PodItem(urls[n], durations[n] * 1000)])
  }

  /** The pod holds no true[X] URL, and holds every other URL of the break with its own duration. */
  lemma {:induction false} LinearPodFilters(urls: seq<string>, durations: seq<int>)
    requires |durations| >= |urls|
    ensures forall x :: x in LinearPod(urls, durations) ==> !IsTruexAdUrl(x.url)
    ensures forall i :: 0 <= i < |urls| && !IsTruexAdUrl(urls[i]) ==> PodItem(urls[i], durations[i] * 1000) in LinearPod(urls, durations)
    ensures forall x :: x in LinearPod(urls, durations) ==> exists i :: 0 <= i < |urls| && x == PodItem(urls[i], durations[i] * 1000)
  {
    if urls != [] {
      var n := |urls| - 1;
      LinearPodFilters(urls[..n], durations);
      assert forall i :: 0 <= i < n ==> urls[..n][i] == urls[i];
    }
  }

  /** The positions of a break's non-true[X] URLs: each once, in increasing order. */
  function PlainIndices(urls: seq<string>): (idx: seq<nat>)
    ensures forall j :: 0 <= j < |idx| ==> idx[j] < |urls| && !IsTruexAdUrl(urls[idx[j]])
    ensures forall j, k :: 0 <= j < k < |idx| ==> idx[j] < idx[k]
    ensures forall i :: 0 <= i < |urls| && !IsTruexAdUrl(urls[i]) ==> i in idx
  {
    if urls == [] then []
    else
      var n := |urls| - 1;
      var front := PlainIndices(urls[..n]);
      assert forall j :: 0 <= j < |front| ==> urls[..n][front[j]] == urls[front[j]];
      front + (if IsTruexAdUrl(urls[n]) then [] else [n])
  }

  /**
   * The pod is the break's non-true[X] ads in source order, each exactly
   * once: item j is the URL at the j-th plain position, with its duration in ms.
   */
  lemma {:induction false} LinearPodInOrder(urls: seq<string>, durations: seq<int>)
    requires |durations| >= |urls|
    ensures |LinearPod(urls, durations)| == |PlainIndices(urls)|
    ensures forall j :: 0 <= j < |PlainIndices(urls)| ==>
      LinearPod(urls, durations)[j] == PodItem(urls[PlainIndices(urls)[j]], durations[PlainIndices(urls)[j]] * 1000)
  {
    if urls != [] {
      var n := |urls| - 1;
      LinearPodInOrder(urls[..n], durations);
      var front := PlainIndices(urls[..n]);
      var pod := LinearPod(urls[..n], durations);
      var last: seq<PodItem> := if IsTruexAdUrl(urls[n]) then [] else [PodItem(urls[n], durations[n] * 1000)];
      var tail: seq<nat> := if IsTruexAdUrl(urls[n]) then [] else [n];
      assert LinearPod(urls, durations) == pod + last;
      assert PlainIndices(urls) == front + tail;
      forall j | 0 <= j < |front|
        ensures (pod + last)[j] == PodItem(urls[(front + tail)[j]], durations[(front + tail)[j]] * 1000)
      {
        assert urls[..n][front[j]] == urls[front[j]];
      }
    }
  }

  /** A break with no true[X] URL plays whole, in order. */
  lemma {:induction false} LinearPodKeepsPlainBreak(urls: seq<string>, durations: seq<int>)
    requires |durations| >= |urls|
    requires forall i :: 0 <= i < |urls| ==> !IsTruexAdUrl(urls[i])
    ensures |LinearPod(urls, durations)| == |urls|
    ensures forall i :: 0 <= i < |urls| ==> LinearPod(urls, durations)[i] == PodItem(urls[i], durations[i] * 1000)
  {
    if urls != [] {
      var n := |urls| - 1;
      LinearPodKeepsPlainBreak(urls[..n], durations);
    }
  }

  /** The break record the player screen uses; how it is read from JSON is not part of this model. */
  class PlayerBreak {
    const contentPositionMs: int
    const firstAd: string
    const adUrls: seq<string>
    const adDurations: seq<int>
    var viewed: bool

    constructor (contentPositionMs: int, firstAd: string, adUrls: seq<string>, adDurations: seq<int>)
      ensures this.contentPositionMs == contentPositionMs && this.firstAd == firstAd
      ensures this.adUrls == adUrls && this.adDurations == adDurations && !viewed
    {
      this.contentPositionMs := contentPositionMs;
      this.firstAd := firstAd;
      this.adUrls := adUrls;
      this.adDurations := adDurations;
      viewed := false;
    }

    /** Every URL has a duration: the pod loop reads them side by side. */
    predicate Consistent()
    {
      |adDurations| >= |adUrls|
    }
  }

  /** A break is due at a content position once the position has reached it, until it is viewed. */
  ghost predicate Due(b: PlayerBreak, position: int)
    reads b
  {
    position >= b.contentPositionMs && !b.viewed
  }

  /** The ms between two progress polls. */
  const PollDelayMs: int := 1000

  /** No break of the list is due at the position. */
  ghost predicate NoneDue(breaks: seq<PlayerBreak>, position: int)
    reads breaks
  {
    forall i :: 0 <= i < |breaks| ==> !Due(breaks[i], position)
  }

  /** Break `i` is the first of the list due at the position. */
  ghost predicate FirstDueAt(breaks: seq<PlayerBreak>, position: int, i: int)
    reads breaks
  {
    0 <= i < |breaks| && Due(breaks[i], position) && forall k :: 0 <= k < i ==> !Due(breaks[k], position)
  }

  /** When some break of a list is due, one of them is the first. */
  lemma {:induction false} FirstDue(breaks: seq<PlayerBreak>, position: int, j: int)
    requires 0 <= j < |breaks| && Due(breaks[j], position)
    ensures exists i :: FirstDueAt(breaks, position, i)
    decreases j
  {
    if exists k :: 0 <= k < j && Due(breaks[k], position) {
      var k :| 0 <= k < j && Due(breaks[k], position);
      FirstDue(breaks, position, k);
    } else {
      assert FirstDueAt(breaks, position, j);
    }
  }

  /** The part of the screen a search for a due break may change. */
  datatype Screen = Screen(
    displayMode: Option<DisplayMode>, currentAdBreak: PlayerBreak?, resumePosition: int,
    commands: seq<PlayerCommand>, truexAdManager: ReferenceAppTruex.TruexAdManager?)

  class PlayerFragment {
    var hasPlayer: bool
    /** A boxed Boolean: null until the screen first resumes or pauses. */
    var isPaused: Option<bool>
    var displayMode: Option<DisplayMode>
    var adBreaks: Option<seq<PlayerBreak>>
    var currentAdBreak: PlayerBreak?
    var resumePosition: int
    var truexAdManager: ReferenceAppTruex.TruexAdManager?
    /** The progress handler is still there (it is dropped for good on destroy). */
    var handlerLive: bool
    /** The progress poll has been created. */
    var pollCreated: bool
    /** Posts of the progress poll waiting on the handler. */
    var pendingPolls: nat
    ghost var commands: seq<PlayerCommand>

    ghost predicate Valid()
      reads this
    {
      && resumePosition >= 0
      && (adBreaks.Some? ==> forall b :: b in adBreaks.value ==> b.Consistent())
      && (currentAdBreak != null ==> currentAdBreak.Consistent())
      && (displayMode == Some(InteractiveAd) ==> truexAdManager != null)
      && (pendingPolls > 0 ==> handlerLive && pollCreated)
    }

    /** The player, the break list, the pause flag and the adapter are as they were. */
    twostate predicate PlayerKept()
      reads this
    {
      hasPlayer == old(hasPlayer) && adBreaks == old(adBreaks) && isPaused == old(isPaused)
      && truexAdManager == old(truexAdManager)
    }

    twostate predicate PollKept()
      reads this
    {
      handlerLive == old(handlerLive) && pollCreated == old(pollCreated) && pendingPolls == old(pendingPolls)
    }

    /** What is on screen, the break being shown, the resume point and the commands given are as they were. */
    twostate predicate ScreenKept()
      reads this`displayMode, this`currentAdBreak, this`resumePosition, this`commands
    {
      displayMode == old(displayMode) && currentAdBreak == old(currentAdBreak)
      && resumePosition == old(resumePosition) && commands == old(commands)
    }

    /** The content position the player reports; 0 when there is no player. */
    function ContentPosition(playerPosition: int): int
      reads this`hasPlayer
    {
      if hasPlayer then playerPosition else 0
    }

    constructor ()
      ensures Valid() && !hasPlayer && isPaused.None? && displayMode.None? && adBreaks.None?
      ensures currentAdBreak == null && resumePosition == 0 && truexAdManager == null
      ensures handlerLive && !pollCreated && pendingPolls == 0 && commands == []
    {
      hasPlayer := false;
      isPaused := None;
      displayMode := None;
      adBreaks := None;
      currentAdBreak := null;
      resumePosition := 0;
      truexAdManager := null;
      handlerLive := true;
      pollCreated := false;
      pendingPolls := 0;
      commands := [];
    }

    /** The commands that put the content stream back on, resuming at `resumePosition` when it is set. */
    static function ContentCommands(resumePosition: int): seq<PlayerCommand>
    {
      [PlayWhenReady(true), SetSource(Content)] + (if resumePosition > 0 then [SeekTo(resumePosition)] else [])
    }

    /** The screen is up: the ad payload is in, the player exists, and the content starts. */
    method OnViewCreated(payload: seq<PlayerBreak>)
      requires Valid()
      requires forall b :: b in payload ==> b.Consistent()
      modifies this
      ensures Valid() && hasPlayer && adBreaks == Some(payload) && displayMode == Some(ContentStream)
      ensures commands == old(commands) + ContentCommands(resumePosition)
      ensures currentAdBreak == old(currentAdBreak) && resumePosition == old(resumePosition)
      ensures truexAdManager == old(truexAdManager) && isPaused == old(isPaused) && PollKept()
    {
      adBreaks := Some(payload);
      hasPlayer := true;
      DisplayContentStream();
    }

    method DisplayContentStream()
      requires Valid()
      modifies this
      ensures Valid() && PlayerKept() && PollKept()
      ensures currentAdBreak == old(currentAdBreak) && resumePosition == old(resumePosition)
      ensures hasPlayer ==> displayMode == Some(ContentStream) && commands == old(commands) + ContentCommands(resumePosition)
      ensures !hasPlayer ==> ScreenKept()
    {
      if !hasPlayer {
        return;
      }
      displayMode := Some(ContentStream);
      commands := commands + [PlayWhenReady(true), SetSource(Content)];
      if resumePosition > 0 {
        commands := commands + [SeekTo(resumePosition)];
      }
    }

    /** Plays again unless an interactive ad holds the screen; the adapter is told either way. */
    method OnResume()
      requires Valid()
      modifies this, truexAdManager
      ensures Valid() && isPaused == Some(false) && PollKept()
      ensures hasPlayer == old(hasPlayer) && adBreaks == old(adBreaks) && truexAdManager == old(truexAdManager)
      ensures displayMode == old(displayMode) && currentAdBreak == old(currentAdBreak) && resumePosition == old(resumePosition)
      ensures commands == old(commands) + if hasPlayer && displayMode != Some(InteractiveAd) then [PlayWhenReady(true)] else []
      ensures truexAdManager != null ==> truexAdManager.rendererCalls == old(truexAdManager.rendererCalls) + [Resume]
    {
      isPaused := Some(false);
      if truexAdManager != null {
        truexAdManager.OnResume();
      }
      if hasPlayer && displayMode != Some(InteractiveAd) {
        commands := commands + [PlayWhenReady(true)];
      }
    }

    /** Pauses unless an interactive ad holds the screen; the adapter is told either way. */
    method OnPause()
      requires Valid()
      modifies this, truexAdManager
      ensures Valid() && isPaused == Some(true) && PollKept()
      ensures hasPlayer == old(hasPlayer) && adBreaks == old(adBreaks) && truexAdManager == old(truexAdManager)
      ensures displayMode == old(displayMode) && currentAdBreak == old(currentAdBreak) && resumePosition == old(resumePosition)
      ensures commands == old(commands) + if hasPlayer && displayMode != Some(InteractiveAd) then [PlayWhenReady(false)] else []
      ensures truexAdManager != null ==> truexAdManager.rendererCalls == old(truexAdManager.rendererCalls) + [Pause]
    {
      isPaused := Some(true);
      if truexAdManager != null {
        truexAdManager.OnPause();
      }
      if hasPlayer && displayMode != Some(InteractiveAd) {
        commands := commands + [PlayWhenReady(false)];
      }
    }

    /** Destroys the adapter's renderer, drops the progress handler with every poll it held, and releases the player. */
    method OnDestroy()
      requires Valid()
      modifies this, truexAdManager
      ensures Valid() && PlayerKept() && !handlerLive && pendingPolls == 0
      ensures displayMode == old(displayMode) && currentAdBreak == old(currentAdBreak) && resumePosition == old(resumePosition)
      ensures commands == old(commands) + if hasPlayer then [Release] else []
      ensures truexAdManager != null ==> truexAdManager.rendererCalls == old(truexAdManager.rendererCalls) + [Destroy]
    {
      if truexAdManager != null {
        truexAdManager.OnDestroy();
      }
      CleanupProgressMonitor();
      CloseStream();
    }

    method CloseStream()
      modifies this
      ensures PlayerKept() && PollKept()
      ensures displayMode == old(displayMode) && currentAdBreak == old(currentAdBreak) && resumePosition == old(resumePosition)
      ensures commands == old(commands) + if hasPlayer then [Release] else []
    {
      if hasPlayer {
        commands := commands + [Release];
      }
    }

    /** Marks the current break viewed, so that it is never due again, and forgets it. */
    method ClearCurrentAdBreak()
      requires Valid()
      modifies this, currentAdBreak
      ensures Valid() && PlayerKept() && PollKept() && currentAdBreak == null
      ensures old(currentAdBreak) != null ==> old(currentAdBreak).viewed && forall p :: !Due(old(currentAdBreak), p)
      ensures displayMode == old(displayMode) && resumePosition == old(resumePosition) && commands == old(commands)
    {
      if currentAdBreak != null {
        currentAdBreak.viewed := true;
        currentAdBreak := null;
      }
    }

    /** The player finished its source; only the end of a linear pod brings the content back. */
    method OnPlayerDidComplete()
      requires Valid()
      modifies this, currentAdBreak
      ensures Valid() && PlayerKept() && PollKept() && resumePosition == old(resumePosition)
      ensures old(displayMode) == Some(LinearAds) ==>
        && currentAdBreak == null && (old(currentAdBreak) != null ==> old(currentAdBreak).viewed)
        && (hasPlayer ==> displayMode == Some(ContentStream) && commands == old(commands) + ContentCommands(resumePosition))
        && (!hasPlayer ==> displayMode == old(displayMode) && commands == old(commands))
      ensures old(displayMode) != Some(LinearAds) ==> ScreenKept()
    {
      if displayMode == Some(LinearAds) {
        DisplayContentStream();
        ClearCurrentAdBreak();
      }
    }

    /**
     * The engagement ended with credit: back to the content, the break
     * counted as viewed, playing unless the screen is paused. Before the
     * screen has first resumed or paused the flag is null, and unboxing it
     * throws, which kills the app.
     */
    method ResumeStream() returns (crashed: bool)
      requires Valid()
      modifies this, currentAdBreak
      ensures crashed <==> hasPlayer && isPaused.None?
      ensures Valid() && PlayerKept() && PollKept() && resumePosition == old(resumePosition)
      ensures hasPlayer ==>
        && displayMode == Some(ContentStream) && currentAdBreak == null
        && (old(currentAdBreak) != null ==> old(currentAdBreak).viewed)
        && commands == old(commands) + if isPaused == Some(false) then [PlayWhenReady(true)] else []
      ensures !hasPlayer ==> ScreenKept()
    {
      if !hasPlayer {
        return false;
      }
      displayMode := Some(ContentStream);
      ClearCurrentAdBreak();
      if isPaused.None? {
        return true;
      }
      if !isPaused.value {
        commands := commands + [PlayWhenReady(true)];
      }
      return false;
    }

    method PauseStream()
      modifies this
      ensures PlayerKept() && PollKept()
      ensures displayMode == old(displayMode) && currentAdBreak == old(currentAdBreak) && resumePosition == old(resumePosition)
      ensures commands == old(commands) + if hasPlayer then [PlayWhenReady(false)] else []
    {
      if hasPlayer {
        commands := commands + [PlayWhenReady(false)];
      }
    }

    /**
     * The engagement ended without credit, or the break has no interactive
     * ad: the current break's non-true[X] ads play as one pod. With no
     * current break (a later completion after the pod has ended and cleared
     * it) reading its URLs throws, which kills the app.
     */
    method DisplayLinearAds() returns (crashed: bool)
      requires Valid()
      modifies this
      ensures crashed <==> hasPlayer && currentAdBreak == null
      ensures Valid() && PlayerKept() && PollKept()
      ensures currentAdBreak == old(currentAdBreak) && resumePosition == old(resumePosition)
      ensures hasPlayer ==> displayMode == Some(LinearAds)
      ensures hasPlayer && currentAdBreak != null ==>
        commands == old(commands) + [PlayWhenReady(true), SetSource(AdPod(LinearPod(currentAdBreak.adUrls, currentAdBreak.adDurations)))]
      ensures crashed ==> commands == old(commands)
      ensures !hasPlayer ==> ScreenKept()
    {
      if !hasPlayer {
        return false;
      }
      displayMode := Some(LinearAds);
      if currentAdBreak == null {
        return true;
      }
      var urls := currentAdBreak.adUrls;
      var durations := currentAdBreak.adDurations;
      var pod: seq<PodItem> := [];
      for i := 0 to |urls|
        invariant pod == LinearPod(urls[..i], durations)
      {
        assert urls[..i + 1][..i] == urls[..i];
        var adUrl := urls[i];
        if !IsTruexAdUrl(adUrl) {
          pod := pod + [PodItem(adUrl, durations[i] * 1000)];
        }
      }
      assert urls[..|urls|] == urls;
      commands := commands + [PlayWhenReady(true), SetSource(AdPod(pod))];
      return false;
    }

    /** Opens the browser on the URL; without one, `Uri.parse` throws and the app dies. */
    method HandlePopup(url: Option<string>) returns (crashed: bool)
      modifies this
      ensures crashed <==> url.None?
      ensures PlayerKept() && PollKept()
      ensures displayMode == old(displayMode) && currentAdBreak == old(currentAdBreak) && resumePosition == old(resumePosition)
      ensures commands == old(commands) + if url.Some? then [OpenBrowser(url.value)] else []
    {
      if url.None? {
        return true;
      }
      commands := commands + [OpenBrowser(url.value)];
      return false;
    }

    /**
     * Hides the content for an interactive ad: the position is remembered
     * when it is past the start, and a new adapter is asked to start the ad.
     */
    method DisplayInteractiveAd(vastUrl: string, position: int)
      requires Valid()
      modifies this
      ensures Valid() && PollKept() && currentAdBreak == old(currentAdBreak)
      ensures hasPlayer == old(hasPlayer) && adBreaks == old(adBreaks) && isPaused == old(isPaused)
      ensures hasPlayer ==>
        && displayMode == Some(InteractiveAd)
        && resumePosition == (if position > 0 then position else old(resumePosition))
        && truexAdManager != null && fresh(truexAdManager) && !truexAdManager.didReceiveCredit
        && commands == old(commands) + [PlayWhenReady(false), StartInteractiveAd(vastUrl)]
      ensures !hasPlayer ==> ScreenKept() && truexAdManager == old(truexAdManager)
    {
      if !hasPlayer {
        return;
      }
      PauseStream();
      if position > 0 {
        resumePosition := position;
      }
      displayMode := Some(InteractiveAd);
      truexAdManager := new ReferenceAppTruex.TruexAdManager();
      commands := commands + [StartInteractiveAd(vastUrl)];
    }

    ghost function CurrentScreen(): Screen
      reads this`displayMode, this`currentAdBreak, this`resumePosition, this`commands, this`truexAdManager
    {
      Screen(displayMode, currentAdBreak, resumePosition, commands, truexAdManager)
    }

    /** The breaks handed to the screen; none before they arrive. */
    ghost function Breaks(): seq<PlayerBreak>
      reads this`adBreaks
    {
      if adBreaks.Some? then adBreaks.value else []
    }

    /**
     * Break `b` is current and, with a player, on screen after the commands
     * of `before`: as an interactive ad when its first ad is a true[X] URL
     * (a new adapter, the resume point moved to `position` when that is past
     * the start), as linear ads otherwise (resume point and adapter kept).
     * Without a player only the current break changes.
     */
    ghost predicate Shows(b: PlayerBreak, position: int, before: Screen)
      reads this`hasPlayer, this`displayMode, this`currentAdBreak, this`commands
      reads this`resumePosition, this`truexAdManager
    {
      && currentAdBreak == b && b.Consistent()
      && (hasPlayer && IsTruexAdUrl(b.firstAd) ==>
            && displayMode == Some(InteractiveAd)
            && commands == before.commands + [PlayWhenReady(false), StartInteractiveAd(b.firstAd)]
            && resumePosition == (if position > 0 then position else before.resumePosition)
            && truexAdManager != null && truexAdManager != before.truexAdManager)
      && (hasPlayer && !IsTruexAdUrl(b.firstAd) ==>
            && displayMode == Some(LinearAds)
            && commands == before.commands + [PlayWhenReady(true), SetSource(AdPod(LinearPod(b.adUrls, b.adDurations)))]
            && resumePosition == before.resumePosition && truexAdManager == before.truexAdManager)
      && (!hasPlayer ==>
            && displayMode == before.displayMode && commands == before.commands
            && resumePosition == before.resumePosition && truexAdManager == before.truexAdManager)
    }

    /**
     * What looking for a due break at `position` did to the screen: with
     * none due, nothing; otherwise the first due break in list order is
     * current and shown.
     */
    ghost predicate ShowedFirstDue(position: int, before: Screen)
      reads this`adBreaks, this`hasPlayer, this`truexAdManager, this`displayMode, this`currentAdBreak
      reads this`resumePosition, this`commands, Breaks()
    {
      && (NoneDue(Breaks(), position) ==> CurrentScreen() == before)
      && (forall i :: FirstDueAt(Breaks(), position, i) ==> Shows(Breaks()[i], position, before))
    }

    /**
     * Shows the first break of the list, in list order, that is due at the
     * content position. At most one break is picked per call.
     */
    method PlayCurrentAds(playerPosition: int)
      requires Valid()
      modifies this
      ensures Valid() && PollKept() && hasPlayer == old(hasPlayer) && adBreaks == old(adBreaks) && isPaused == old(isPaused)
      ensures ShowedFirstDue(ContentPosition(playerPosition), old(CurrentScreen()))
    {
      if adBreaks.None? || |adBreaks.value| == 0 {
        return;
      }
      var position := ContentPosition(playerPosition);
      var breaks := adBreaks.value;
      for i := 0 to |breaks|
        invariant forall k :: 0 <= k < i ==> !Due(breaks[k], position)
        invariant ScreenKept() && PlayerKept() && PollKept()
      {
        var adBreak := breaks[i];
        if position >= adBreak.contentPositionMs && !adBreak.viewed {
          currentAdBreak := adBreak;
          var firstAd := adBreak.firstAd;
          if IsTruexAdUrl(firstAd) {
            DisplayInteractiveAd(firstAd, position);
          } else {
            var crashed := DisplayLinearAds();
          }
          return;
        }
      }
    }

    /**
     * The player began the content: look for a due break, then start polling
     * the position. The first poll runs at once; it finds the break just
     * shown, or again none due, so the screen ends as one search left it.
     */
    method OnPlayerDidStart(playerPosition: int)
      requires Valid()
      modifies this
      ensures Valid() && hasPlayer == old(hasPlayer) && adBreaks == old(adBreaks) && isPaused == old(isPaused)
      ensures pollCreated && handlerLive == old(handlerLive)
      ensures pendingPolls == old(pendingPolls) + if handlerLive then 1 else 0
      ensures ShowedFirstDue(ContentPosition(playerPosition), old(CurrentScreen()))
    {
      ghost var position := ContentPosition(playerPosition);
      PlayCurrentAds(playerPosition);
      ghost var searched := CurrentScreen();
      if !NoneDue(Breaks(), position) {
        var j :| 0 <= j < |Breaks()| && Due(Breaks()[j], position);
        FirstDue(Breaks(), position, j);
      }
      StartProgressMonitor(playerPosition);
      assert CurrentScreen() == searched;
    }

    /** Creates the poll and runs it once at once; each run posts the next. */
    method StartProgressMonitor(playerPosition: int)
      requires Valid()
      modifies this
      ensures Valid() && hasPlayer == old(hasPlayer) && adBreaks == old(adBreaks) && isPaused == old(isPaused)
      ensures pollCreated && handlerLive == old(handlerLive)
      ensures pendingPolls == old(pendingPolls) + if handlerLive then 1 else 0
      ensures !(old(currentAdBreak) == null && ContentPosition(playerPosition) > 0) ==>
        ScreenKept() && truexAdManager == old(truexAdManager)
      ensures old(currentAdBreak) == null && ContentPosition(playerPosition) > 0 ==>
        ShowedFirstDue(ContentPosition(playerPosition), old(CurrentScreen()))
    {
      pollCreated := true;
      RunPoll(playerPosition);
    }

    /**
     * One run of the progress poll: with no break on screen and the content
     * past its start, look for a due break; then post the next run while the
     * handler is there.
     */
    method RunPoll(playerPosition: int)
      requires Valid() && pollCreated
      modifies this
      ensures Valid() && hasPlayer == old(hasPlayer) && adBreaks == old(adBreaks) && isPaused == old(isPaused)
      ensures pollCreated && handlerLive == old(handlerLive)
      ensures pendingPolls == old(pendingPolls) + if handlerLive then 1 else 0
      ensures !(old(currentAdBreak) == null && ContentPosition(playerPosition) > 0) ==>
        ScreenKept() && truexAdManager == old(truexAdManager)
      ensures old(currentAdBreak) == null && ContentPosition(playerPosition) > 0 ==>
        ShowedFirstDue(ContentPosition(playerPosition), old(CurrentScreen()))
    {
      if currentAdBreak == null && ContentPosition(playerPosition) > 0 {
        PlayCurrentAds(playerPosition);
      }
      if handlerLive {
        pendingPolls := pendingPolls + 1;
      }
    }

    /** A posted poll comes due after `PollDelayMs`: it is taken off the handler and run, which posts the next. */
    method OnPollFired(playerPosition: int)
      requires Valid() && pendingPolls > 0
      modifies this
      ensures Valid() && hasPlayer == old(hasPlayer) && adBreaks == old(adBreaks) && isPaused == old(isPaused)
      ensures handlerLive && pendingPolls == old(pendingPolls)
      ensures !(old(currentAdBreak) == null && ContentPosition(playerPosition) > 0) ==>
        ScreenKept() && truexAdManager == old(truexAdManager)
      ensures old(currentAdBreak) == null && ContentPosition(playerPosition) > 0 ==>
        ShowedFirstDue(ContentPosition(playerPosition), old(CurrentScreen()))
    {
      pendingPolls := pendingPolls - 1;
      RunPoll(playerPosition);
    }

    /** Removes every posted poll and drops the handler, so nothing is posted again. */
    method CleanupProgressMonitor()
      requires Valid()
      modifies this
      ensures Valid() && PlayerKept() && ScreenKept() && pollCreated == old(pollCreated)
      ensures !handlerLive && pendingPolls == 0
    {
      if handlerLive {
        if pollCreated {
          pendingPolls := 0;
        }
        handlerLive := false;
      }
    }

    /**
     * An event from the true[X] renderer reaches the screen through its
     * adapter, which answers with at most one call on the screen.
     */
    method OnTruexEvent(e: SdkEvent) returns (call: Option<HandlerCall>, crashed: bool)
      requires Valid() && truexAdManager != null
      modifies this, truexAdManager, currentAdBreak
      ensures Valid() && PlayerKept() && PollKept() && resumePosition == old(resumePosition)
      ensures Response(truexAdManager.didReceiveCredit, call) == Respond(ReferenceAppTruex.Wired, old(truexAdManager.didReceiveCredit), e)
      ensures crashed <==>
        || (call == Some(HandlerCall.ResumeStream) && hasPlayer && isPaused.None?)
        || (call == Some(HandlerCall.DisplayLinearAds) && hasPlayer && old(currentAdBreak) == null)
        || (call.Some? && call.value.HandlePopup? && call.value.url.None?)
      ensures call.None? ==> ScreenKept()
      ensures call == Some(HandlerCall.ResumeStream) && hasPlayer ==>
        && displayMode == Some(ContentStream) && currentAdBreak == null && (old(currentAdBreak) != null ==> old(currentAdBreak).viewed)
        && commands == old(commands) + if isPaused == Some(false) then [PlayWhenReady(true)] else []
      ensures call == Some(HandlerCall.DisplayLinearAds) && hasPlayer ==>
        displayMode == Some(LinearAds) && currentAdBreak == old(currentAdBreak)
      ensures call == Some(HandlerCall.DisplayLinearAds) && hasPlayer && currentAdBreak != null ==>
        commands == old(commands) + [PlayWhenReady(true), SetSource(AdPod(LinearPod(currentAdBreak.adUrls, currentAdBreak.adDurations)))]
      ensures call.Some? && call.value.HandlePopup? ==>
        && displayMode == old(displayMode) && currentAdBreak == old(currentAdBreak)
        && commands == old(commands) + if call.value.url.Some? then [OpenBrowser(call.value.url.value)] else []
    {
      call := truexAdManager.OnEvent(e);
      crashed := false;
      match call {
        case None =>
        case Some(ResumeStream) => crashed := ResumeStream();
        case Some(DisplayLinearAds) => crashed := DisplayLinearAds();
        case Some(HandlePopup(url)) => crashed := HandlePopup(url);
      }
    }
  }
}
