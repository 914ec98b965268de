# true[X] Android reference app: a Dafny model of its ad machinery

The reference app plays a video stream with ad breaks. Some ads in a break are
interactive: a trueX or IDVx engagement rendered by the external
`TruexAdRenderer` SDK, which can grant the viewer credit to skip the rest of
the break. This project models the app's ad machinery and proves properties of
it:

- **Ads and breaks** (`Ads`, `AdBreaks`): an ad's kind is fixed by its ad-system tag. A break carries
  `started` and `completed` flags and a cursor over its ads.
- **The manifest loader** (`Provider`, `Json`, `StableSort`):
  - It reads `adBreaks` from a JSON document, fills defaults for missing fields and builds the breaks.
  - When every entry parses, it stable-sorts the breaks by `timeOffsetMs`.
  - A `JSONException` stops the load. The breaks appended before it are kept, unsorted.
- **The ad sequencer** (`Sequencer`), `AdManager`:
  - It picks the break due at the content time and builds the pod timeline with one placeholder per ad.
  - It walks the cursor through the pod.
  - It parks the player before an interactive ad, shows the ad through one adapter, and guards it with a failsafe timer.
  - It reports the end of the pod.
- **The interactive adapters** (`Sdk`, `Infillion`, `TruexWiring` and three `TruexAdManager` variants):
  - Each subscribes to the renderer's events.
  - Each keeps a credit latch that an `AD_FREE_POD` sets.
  - Each turns a completion into exactly one continuation: resume the stream with credit, or show the linear ads without it.
- **The player screen** (`Player`), `PlayerFragment`:
  - It checks the content position for due breaks.
  - It shows a break as an interactive ad when its first ad is a true[X] URL, and as a linear pod otherwise.
  - It marks breaks viewed and returns to the content.
- **The unlock screen** (`Replace`, `VastMap`, `Unlock`), `UnlockFragment`:
  - It substitutes UUIDs into the ad-server URL.
  - It builds a tree of maps from the VAST XML parser's events.
  - It digs the first ad's `AdSystem` and `AdParameters` out of that tree, starts the renderer, and unlocks when credit is earned.

Callbacks into the host (the sequencer's listener, the playback handler, the
adapter's completion callback) are modelled as returned values or as ghost
traces of commands. The class that receives them then acts on them. The
renderer is modelled by the sequence of calls made on it (`rendererCalls`).
The events it sends are inputs.

Behaviour of the code worth knowing, which the model keeps:

- The manifest loader keeps the breaks parsed before an error, in manifest order; only a complete load is sorted.
- `timeOffsetMs` is read as a plain integer. There is no `hh:mm:ss` parsing.
- `onMediaItemCompleted` past the last ad reports the end of the pod but does not mark the break completed. Only `onPlaybackEnded` does.
- `getAdBreakAt` ignores the `started` flag. A started, uncompleted break stays due.
- A failsafe timer is posted for every interactive ad, trueX and IDVx alike, at twice its duration.
- `Ad.getVastConfigUrl` returns the description for every kind of ad; a regular ad answers null only when its entry has no description.
- On the player screen three paths throw an uncaught `NullPointerException` on the main thread, which ends the app process. The model returns `crashed` for each:
  - a completion without credit after the current break was cleared (`displayLinearAds` reads the null break's URLs);
  - a popup event without a "url" (`Uri.parse(null)`);
  - a completion with credit before the screen first resumed or paused (`resumeStream` unboxes a null `isPaused`).

## Model

| member | source | states |
|---|---|---|
| Ads.DetermineAdType | ReferenceApp/src/main/java/com/truex/referenceapp/ads/Ad.java:44-52 | The kind is trueX exactly for the tag "trueX", IDVx exactly for "IDVx", and regular for every other tag or none (all three as iffs) |
| Ads.NewAd | ReferenceApp/src/main/java/com/truex/referenceapp/ads/Ad.java:34-42 | The constructor keeps every field; the ad is interactive exactly when its tag is "trueX" or "IDVx", and exactly one of interactive/regular holds |
| Ads.Ad.IsInfillionAd | ReferenceApp/src/main/java/com/truex/referenceapp/ads/Ad.java:54-56 | For an ad whose kind was fixed from its tag, it is interactive exactly when the tag is "trueX" or "IDVx" |
| Ads.Ad.IsRegularAd | ReferenceApp/src/main/java/com/truex/referenceapp/ads/Ad.java:58-60 | An ad is regular exactly when it is not interactive |
| Ads.Ad.GetVastConfigUrl | ReferenceApp/src/main/java/com/truex/referenceapp/ads/Ad.java:62-68 | The VAST configuration URL is the description, whatever the kind of ad |
| Ads.Ad.GetAdUrl | ReferenceApp/src/main/java/com/truex/referenceapp/ads/Ad.java:70-76 | The URL the pod plays is the media file, whatever the kind of ad |
| Ads.RegularAdVastConfigUrl | ReferenceApp/src/main/java/com/truex/referenceapp/ads/Ad.java:62-68 | A regular ad with a description gets that description, not null, as its VAST configuration URL |
| Ads.TagsAreCaseSensitive | ReferenceApp/src/main/java/com/truex/referenceapp/ads/Ad.java:44-52 | Tags match exactly: "truex", "TRUEX", "idvx", "GDFP" and a missing tag all give a regular ad |
| AdBreaks.AdBreak.constructor | ReferenceApp/src/main/java/com/truex/referenceapp/ads/AdBreak.java:14-22 | A new break holds its id, offset and ads, is neither started nor completed, and its cursor is on the first ad |
| AdBreaks.AdBreak.GetCurrentAd | ReferenceApp/src/main/java/com/truex/referenceapp/ads/AdBreak.java:59-64 | There is an ad exactly while the cursor is inside the list, and it is the ad at the cursor |
| AdBreaks.AdBreak.SetStarted | ReferenceApp/src/main/java/com/truex/referenceapp/ads/AdBreak.java:40-42 | Sets `started`, nothing else changes |
| AdBreaks.AdBreak.SetCompleted | ReferenceApp/src/main/java/com/truex/referenceapp/ads/AdBreak.java:48-50 | Sets `completed`, nothing else changes |
| AdBreaks.AdBreak.GetNextAd | ReferenceApp/src/main/java/com/truex/referenceapp/ads/AdBreak.java:69-72 | The cursor always advances by one; the result is the ad now at the cursor, none past the last ad |
| AdBreaks.AdBreak.Reset | ReferenceApp/src/main/java/com/truex/referenceapp/ads/AdBreak.java:77-81 | The break is back in its freshly loaded state |
| Json.GetString | ReferenceApp/src/main/java/com/truex/referenceapp/ads/AdProvider.java:50 | `getString` fails exactly on a missing key and gives a string value as it is |
| Json.OptString | ReferenceApp/src/main/java/com/truex/referenceapp/ads/AdProvider.java:60-61 | `optString` gives the fallback for a missing key and a string value as it is |
| Json.GetInt | ReferenceApp/src/main/java/com/truex/referenceapp/ads/AdProvider.java:51 | `getInt` succeeds exactly when the key is present and its value coerces to an int; a number is taken as it is |
| Json.OptInt | ReferenceApp/src/main/java/com/truex/referenceapp/ads/AdProvider.java:52 | `optInt` gives the fallback for a missing key or a value that is neither number nor string, and a number as it is |
| Json.AsInt | ReferenceApp/src/main/java/com/truex/referenceapp/ads/AdProvider.java:51-52 | A number coerces to itself; a value that is neither number nor string does not coerce |
| Json.GetArray | ReferenceApp/src/main/java/com/truex/referenceapp/ads/AdProvider.java:45 | `getJSONArray` succeeds exactly when the key holds an array, and gives its items |
| Json.AsObject | ReferenceApp/src/main/java/com/truex/referenceapp/ads/AdProvider.java:48 | `getJSONObject` succeeds exactly on an object, and gives its fields |
| Provider.OptUnescaped | ReferenceApp/src/main/java/com/truex/referenceapp/ads/AdProvider.java:63-71 | An optional text field is present in the ad exactly when its key is present in the entry |
| Provider.DecimalString | ReferenceApp/src/main/java/com/truex/referenceapp/ads/AdProvider.java:60 | `Integer.toString` of a non-negative int: a string of decimal digits that denotes n (`DigitsValue`), one digit long exactly when n < 10 and otherwise without a leading zero |
| Provider.AdFromJson | ReferenceApp/src/main/java/com/truex/referenceapp/ads/AdProvider.java:57-80 | An ads entry parses exactly when it is an object whose `adParameters`, if present, is an object |
| Provider.AdDefaults | ReferenceApp/src/main/java/com/truex/referenceapp/ads/AdProvider.java:60-78 | Missing id gives "ad-" and the ad's position; missing adSystem gives "GDFP" (a regular ad); a string id or adSystem is kept; mediaFile and description are present iff their keys are, and a string value of either is unescaped; adParameters is the entry's object or none; missing duration gives the break's, a number is kept |
| Provider.AdsFromJson | ReferenceApp/src/main/java/com/truex/referenceapp/ads/AdProvider.java:55-81 | The ads array parses exactly when every entry does, each at its own position, and then gives one ad per entry in order |
| Provider.ParseAds | ReferenceApp/src/main/java/com/truex/referenceapp/ads/AdProvider.java:57-82 | The inner loop computes the ads array's parse, failing at the first entry that fails |
| Provider.BreakFromJson | ReferenceApp/src/main/java/com/truex/referenceapp/ads/AdProvider.java:48-86 | A break entry parses exactly when it is an object with a breakId, an int timeOffsetMs and an ads array every entry of which parses |
| Provider.ParseBreak | ReferenceApp/src/main/java/com/truex/referenceapp/ads/AdProvider.java:48-86 | The loop body for one break entry computes that entry's parse, failing on the first field or ad that fails |
| Provider.BreakDefaults | ReferenceApp/src/main/java/com/truex/referenceapp/ads/AdProvider.java:50-85 | A parsed break keeps its id, offset and one ad per entry; with no videoAdDuration, ads without a duration last 30 |
| Provider.ParsedBreaks | ReferenceApp/src/main/java/com/truex/referenceapp/ads/AdProvider.java:47-87 | The loaded breaks are exactly the entries before the first failing one, each parsed, in order; the load is complete iff no entry failed |
| Provider.ParsedBreaksUpTo | ReferenceApp/src/main/java/com/truex/referenceapp/ads/AdProvider.java:47-87 | Any prefix of parsed entries that stops at a failing entry or at the end is the loader's result |
| Provider.LoadManifest | ReferenceApp/src/main/java/com/truex/referenceapp/ads/AdProvider.java:43-45 | Text that is not a JSON object loads nothing and is reported incomplete |
| Provider.SortedData | ReferenceApp/src/main/java/com/truex/referenceapp/ads/AdProvider.java:89-95 | Sorting the break objects by offset sorts their values the same way and keeps every break object |
| Provider.AdProvider.constructor | ReferenceApp/src/main/java/com/truex/referenceapp/ads/AdProvider.java:28-31 | The list holds the loaded breaks, all fresh and unplayed; after a complete load it is sorted by offset, a permutation of the manifest's breaks, with equal offsets in manifest order |
| Provider.AdProvider.GetAllAdBreaks | ReferenceApp/src/main/java/com/truex/referenceapp/ads/AdProvider.java:37-39 | The result is the current list |
| Provider.AdProvider.ParseAdBreaks | ReferenceApp/src/main/java/com/truex/referenceapp/ads/AdProvider.java:41-101 | The list gains the loaded breaks after its old ones, and is stably sorted by offset only when the load was complete; new breaks are fresh and unplayed |
| Provider.AdProvider.AddBreak | ReferenceApp/src/main/java/com/truex/referenceapp/ads/AdProvider.java:85-86 | One new unplayed break holding the parsed values goes at the end of the list |
| Provider.AdProvider.AppendBreaks | ReferenceApp/src/main/java/com/truex/referenceapp/ads/AdProvider.java:47-87 | The loop appends exactly the parsed breaks, keeps the old prefix, and reports whether every entry parsed |
| StableSort.SortByIsStableSort | ReferenceApp/src/main/java/com/truex/referenceapp/ads/AdProvider.java:90-95 | The sort is ordered by key, a permutation of its input, and keeps elements with equal keys in input order |
| StableSort.SortByMap | ReferenceApp/src/main/java/com/truex/referenceapp/ads/AdProvider.java:90-95 | Sorting commutes with any projection that keeps the key |
| Sdk.CreditAfterIff | ReferenceApp/src/main/java/com/truex/referenceapp/ads/InfillionAdManager.java:192-197 | The credit latch holds after a run exactly when it held before or a handled AD_FREE_POD came |
| Sdk.CreditIsMonotone | ReferenceApp/src/main/java/com/truex/referenceapp/ads/InfillionAdManager.java:192-197 | Once credit is latched no later event clears it |
| Infillion.Notices | ReferenceApp/src/main/java/com/truex/referenceapp/ads/InfillionAdManager.java:160-232 | A run of events gives one notice slot per event |
| Infillion.ReactLatches | ReferenceApp/src/main/java/com/truex/referenceapp/ads/InfillionAdManager.java:192-197 | The adapter's `didReceiveCredit` follows the shared latch event by event |
| Infillion.React | ReferenceApp/src/main/java/com/truex/referenceapp/ads/InfillionAdManager.java:160-232 | One event: the latch becomes set only on an AD_FREE_POD the general handler receives; a completion notice comes exactly for a handled completion (carrying the latch) or a stream cancel with its listener and callback set (carrying no credit); a popup notice carries the event's URL; nothing reaches an unset callback |
| Infillion.NoticesOfRun | ReferenceApp/src/main/java/com/truex/referenceapp/ads/InfillionAdManager.java:160-232 | Over any run, a completion reports credit exactly when the latch held or an AD_FREE_POD came earlier; a cancel-stream reports no credit; a popup forwards its URL; nothing else reports |
| Infillion.NoCreditWithoutAdFreePod | ReferenceApp/src/main/java/com/truex/referenceapp/ads/InfillionAdManager.java:185-197 | Without an AD_FREE_POD, a run that starts unlatched never reports credit |
| Infillion.InfillionAdManager.ListenersNow | ReferenceApp/src/main/java/com/truex/referenceapp/ads/InfillionAdManager.java:150-158 | While the adapter is consistent, the all-events handler is registered only when the callback is set |
| Infillion.InfillionAdManager.constructor | ReferenceApp/src/main/java/com/truex/referenceapp/ads/InfillionAdManager.java:61-75 | Registers the all-events handler, and the cancel-stream listener only when supported; starts unlatched |
| Infillion.InfillionAdManager.StartAd | ReferenceApp/src/main/java/com/truex/referenceapp/ads/InfillionAdManager.java:97-123 | Inits from ad parameters when present, from the VAST URL otherwise; cancel-stream is offered only for a trueX ad; then starts |
| Infillion.InfillionAdManager.OnResume | ReferenceApp/src/main/java/com/truex/referenceapp/ads/InfillionAdManager.java:128-130 | Forwards resume to the renderer |
| Infillion.InfillionAdManager.OnPause | ReferenceApp/src/main/java/com/truex/referenceapp/ads/InfillionAdManager.java:135-137 | Forwards pause to the renderer |
| Infillion.InfillionAdManager.OnStop | ReferenceApp/src/main/java/com/truex/referenceapp/ads/InfillionAdManager.java:142-144 | Forwards stop to the renderer |
| Infillion.InfillionAdManager.Destroy | ReferenceApp/src/main/java/com/truex/referenceapp/ads/InfillionAdManager.java:150-158 | Leaves the adapter dead; unregisters and stops the renderer only the first time, so a second call is harmless |
| Infillion.InfillionAdManager.OnSdkEvent | ReferenceApp/src/main/java/com/truex/referenceapp/ads/InfillionAdManager.java:160-232 | An event moves the latch as the shared latch does and reports what the listeners make of it |
| Infillion.DeadAdapterIsSilent | ReferenceApp/src/main/java/com/truex/referenceapp/ads/InfillionAdManager.java:150-158 | A destroyed adapter reports nothing and keeps its latch, whatever the renderer sends |
| Sequencer.SeekTargetInsideAd | ReferenceApp/src/main/java/com/truex/referenceapp/ads/AdManager.java:244-254 | For an ad of at least a second, the parking position lies inside that ad's placeholder, 100 ms before its end |
| Sequencer.Timeline | ReferenceApp/src/main/java/com/truex/referenceapp/ads/AdManager.java:231-242 | The pod timeline has one entry per ad |
| Sequencer.OffsetsMatchTimeline | ReferenceApp/src/main/java/com/truex/referenceapp/ads/AdManager.java:284-294 | The positions the sequencer computes are the offsets of the timeline it gives the player |
| Sequencer.Without | ReferenceApp/src/main/java/com/truex/referenceapp/ads/AdManager.java:308-313 | Cancelling a runnable removes every post of it and no other post |
| Sequencer.RemoveAt | ReferenceApp/src/main/java/com/truex/referenceapp/ads/AdManager.java:296-306 | A post that has run leaves exactly the other posts |
| Sequencer.NothingPastTheEnd | ReferenceApp/src/main/java/com/truex/referenceapp/ads/AdManager.java:159-167 | Past the end of the pod, item completions report nothing |
| Sequencer.EndReportedOnce | ReferenceApp/src/main/java/com/truex/referenceapp/ads/AdManager.java:159-189 | From any ad of a pod, the end is reported exactly once, when the player has moved past every remaining ad, and never before |
| Sequencer.PodEndsOnce | ReferenceApp/src/main/java/com/truex/referenceapp/ads/AdManager.java:179-189 | A whole pod played from its first ad reports its end exactly once |
| Sequencer.LaunchReportsNoEnd | ReferenceApp/src/main/java/com/truex/referenceapp/ads/AdManager.java:244-254 | An overlay launch never reports the end of the pod or a skip to content |
| Sequencer.AdManager.constructor | ReferenceApp/src/main/java/com/truex/referenceapp/ads/AdManager.java:54-64 | Starts with an empty playlist, no current break, no adapter and no timers |
| Sequencer.AdManager.OnResume | ReferenceApp/src/main/java/com/truex/referenceapp/ads/AdManager.java:67-71 | Forwards resume to the live adapter, if any |
| Sequencer.AdManager.OnPause | ReferenceApp/src/main/java/com/truex/referenceapp/ads/AdManager.java:73-77 | Forwards pause to the live adapter, if any |
| Sequencer.AdManager.OnStop | ReferenceApp/src/main/java/com/truex/referenceapp/ads/AdManager.java:79-85 | Stops and destroys the live adapter and empties the slot; the pod and the failsafe are untouched |
| Sequencer.AdManager.SetAdPlaylist | ReferenceApp/src/main/java/com/truex/referenceapp/ads/AdManager.java:88-91 | Replaces the playlist, nothing else |
| Sequencer.AdManager.GetAdBreakAt | ReferenceApp/src/main/java/com/truex/referenceapp/ads/AdManager.java:97-105 | Null exactly when no break is due; otherwise the first due break in list order, where due means uncompleted and within a second of the time |
| Sequencer.AdManager.CreateMediaSource | ReferenceApp/src/main/java/com/truex/referenceapp/ads/AdManager.java:231-242 | The loop builds the pod timeline of the ads |
| Sequencer.AdManager.CleanupInfillionAdManager | ReferenceApp/src/main/java/com/truex/referenceapp/ads/AdManager.java:223-228 | Destroys the live adapter and empties the slot, keeping at most one adapter alive |
| Sequencer.AdManager.SetCurrentAdBreak | ReferenceApp/src/main/java/com/truex/referenceapp/ads/AdManager.java:110-119 | The break becomes current, the old adapter goes, the pod is its timeline and the cursor rewinds |
| Sequencer.AdManager.CalculateEndPositionOfCurrentAd | ReferenceApp/src/main/java/com/truex/referenceapp/ads/AdManager.java:284-294 | The loop computes where the ad at the cursor ends in the pod |
| Sequencer.AdManager.StartFailsafeTimer | ReferenceApp/src/main/java/com/truex/referenceapp/ads/AdManager.java:296-306 | Posts a new runnable for twice the ad's duration; earlier posts stay pending |
| Sequencer.AdManager.CancelFailsafeTimer | ReferenceApp/src/main/java/com/truex/referenceapp/ads/AdManager.java:308-313 | Removes the posts of the latest runnable only, and forgets it |
| Sequencer.AdManager.OnInfillionAdComplete | ReferenceApp/src/main/java/com/truex/referenceapp/ads/AdManager.java:256-282 | Cancels the failsafe and destroys the adapter; with credit the break is completed and the player skips to content, without it the pod plays on |
| Sequencer.AdManager.ShowInfillionRenderer | ReferenceApp/src/main/java/com/truex/referenceapp/ads/AdManager.java:191-221 | Without a view group the ad completes at once without credit; otherwise a fresh adapter replaces the old, starts the ad, and an interactive ad gets a failsafe |
| Sequencer.AdManager.CurrentAd | ReferenceApp/src/main/java/com/truex/referenceapp/ads/AdManager.java:169-174 | There is an ad exactly while the cursor is inside the pod, and it is the ad at the cursor |
| Sequencer.AdManager.IsPlayingInteractiveAd | ReferenceApp/src/main/java/com/truex/referenceapp/ads/AdManager.java:138-141 | Holds exactly when the cursor is inside the pod on a trueX or IDVx ad; for an ad whose kind came from its tag, exactly when that tag is "trueX" or "IDVx" |
| Sequencer.AdManager.LaunchInfillionOverlayIfNecessary | ReferenceApp/src/main/java/com/truex/referenceapp/ads/AdManager.java:244-254 | For an interactive ad, parks the player and hands the ad to a new adapter with a failsafe; otherwise changes nothing |
| Sequencer.AdManager.StartAdBreak | ReferenceApp/src/main/java/com/truex/referenceapp/ads/AdManager.java:121-136 | Marks the break started, plays the pod once from its first ad, and an adapter is live exactly when that ad is interactive and there is a view group |
| Sequencer.AdManager.OnPlaybackEnded | ReferenceApp/src/main/java/com/truex/referenceapp/ads/AdManager.java:145-155 | Marks the break completed and reports the end of the pod |
| Sequencer.AdManager.MoveToNextAd | ReferenceApp/src/main/java/com/truex/referenceapp/ads/AdManager.java:179-189 | Advances the cursor; past the last ad reports the end, otherwise launches an overlay when needed |
| Sequencer.AdManager.OnMediaItemCompleted | ReferenceApp/src/main/java/com/truex/referenceapp/ads/AdManager.java:159-167 | Past the pod does nothing; otherwise moves the cursor by one, reporting the end exactly when it leaves the last ad |
| Sequencer.AdManager.OnAdapterEvent | ReferenceApp/src/main/java/com/truex/referenceapp/ads/AdManager.java:199-211 | A completion the adapter reports ends the overlay with that credit; any other event only moves the latch; the break is completed only by a skip to content |
| Sequencer.AdManager.OnFailsafeFired | ReferenceApp/src/main/java/com/truex/referenceapp/ads/AdManager.java:296-306 | A firing post ends whatever overlay is live without credit and removes itself and the latest runnable's posts |
| TruexWiring.CompletionCallChoosesOne | ReferenceApp/src/main/java/com/truex/referenceapp/ads/TruexAdManager.java:119-129 | A completion resumes the stream exactly with credit and shows the linear ads exactly without it |
| TruexWiring.Calls | ReferenceApp/src/main/java/com/truex/referenceapp/ads/TruexAdManager.java:134-227 | A run gives one handler-call slot per event |
| TruexWiring.CallsOfRun | ReferenceApp/src/main/java/com/truex/referenceapp/ads/TruexAdManager.java:150-227 | Over any run, each subscribed completion resumes exactly when the latch held or an AD_FREE_POD came earlier, and shows the linear ads otherwise; only a forwarded popup calls otherwise |
| TruexWiring.RespondLatches | ReferenceApp/src/main/java/com/truex/referenceapp/ads/TruexAdManager.java:183-186 | The handlers' latch is the shared credit latch, event by event |
| TruexWiring.Respond | ReferenceApp/src/main/java/com/truex/referenceapp/ads/TruexAdManager.java:119-227 | One event: the latch becomes set only on a subscribed AD_FREE_POD; the handler is called exactly on a subscribed completion (resume with credit, linear ads without) or a forwarded popup (with the event's URL) |
| TruexWiring.OneContinuationPerCompletion | ReferenceApp/src/main/java/com/truex/referenceapp/ads/TruexAdManager.java:150-176 | Every subscribed completion continues playback exactly once, and nothing else does |
| ReferenceAppTruex.GetVastUrl | ReferenceApp/src/main/java/com/truex/referenceapp/ads/TruexAdManager.java:253-255 | The URL starts with the fixed VAST prefix |
| ReferenceAppTruex.VastUrlCarriesId | ReferenceApp/src/main/java/com/truex/referenceapp/ads/TruexAdManager.java:253-255 | The URL carries the id (or "null") after the prefix, so distinct ids give distinct URLs |
| ReferenceAppTruex.WiringFacts | ReferenceApp/src/main/java/com/truex/referenceapp/ads/TruexAdManager.java:32-53 | The eleven registered events are exactly the handled ones; USER_CANCEL_STREAM and AD_DISPLAYED are not among them |
| ReferenceAppTruex.TruexAdManager.constructor | ReferenceApp/src/main/java/com/truex/referenceapp/ads/TruexAdManager.java:32-53 | Registers one listener per event, in order, and starts unlatched |
| ReferenceAppTruex.TruexAdManager.StartAd | ReferenceApp/src/main/java/com/truex/referenceapp/ads/TruexAdManager.java:71-81 | Inits the renderer with the VAST URL for the advertising id, to start once ready |
| ReferenceAppTruex.TruexAdManager.OnResume | ReferenceApp/src/main/java/com/truex/referenceapp/ads/TruexAdManager.java:86-89 | Forwards resume |
| ReferenceAppTruex.TruexAdManager.OnPause | ReferenceApp/src/main/java/com/truex/referenceapp/ads/TruexAdManager.java:95-99 | Forwards pause |
| ReferenceAppTruex.TruexAdManager.OnStop | ReferenceApp/src/main/java/com/truex/referenceapp/ads/TruexAdManager.java:104-106 | Does not touch the renderer |
| ReferenceAppTruex.TruexAdManager.OnDestroy | ReferenceApp/src/main/java/com/truex/referenceapp/ads/TruexAdManager.java:111-114 | Destroys the renderer |
| ReferenceAppTruex.TruexAdManager.OnEvent | ReferenceApp/src/main/java/com/truex/referenceapp/ads/TruexAdManager.java:134-227 | The latch and the handler call are those of the registered handler for the event |
| ReferencePackageTruex.WiringFacts | ReferenceApp/src/main/java/com/truex/reference/ads/TruexAdManager.java:28-44 | Nine registered events, exactly the handled ones; skip card, fetch completion and cancel-stream are not handled; popups are not forwarded |
| ReferencePackageTruex.SkipCardIsUnheard | ReferenceApp/src/main/java/com/truex/reference/ads/TruexAdManager.java:176-178 | A skip card, though a handler for it exists, neither calls the handler nor moves the latch |
| ReferencePackageTruex.PopupsNeverForwarded | ReferenceApp/src/main/java/com/truex/reference/ads/TruexAdManager.java:184-186 | No run ever forwards a popup to the playback handler |
| ReferencePackageTruex.TruexAdManager.constructor | ReferenceApp/src/main/java/com/truex/reference/ads/TruexAdManager.java:28-44 | Registers one listener per event, in order, and starts unlatched |
| ReferencePackageTruex.TruexAdManager.StartAd | ReferenceApp/src/main/java/com/truex/reference/ads/TruexAdManager.java:50-62 | Inits the renderer with the fixed preroll options object, then starts it |
| ReferencePackageTruex.TruexAdManager.OnResume | ReferenceApp/src/main/java/com/truex/reference/ads/TruexAdManager.java:67-69 | Forwards resume |
| ReferencePackageTruex.TruexAdManager.OnPause | ReferenceApp/src/main/java/com/truex/reference/ads/TruexAdManager.java:74-76 | Forwards pause |
| ReferencePackageTruex.TruexAdManager.OnStop | ReferenceApp/src/main/java/com/truex/reference/ads/TruexAdManager.java:81-83 | Forwards stop |
| ReferencePackageTruex.TruexAdManager.OnEvent | ReferenceApp/src/main/java/com/truex/reference/ads/TruexAdManager.java:88-186 | The latch and the handler call are those of the registered handler for the event |
| ReferenceProjectTruex.WiringFacts | Reference/src/main/java/com/truex/reference/ads/TruexAdManager.java:27-40 | Six registered events, exactly the handled ones; the user-choice events are not subscribed; popups are not forwarded |
| ReferenceProjectTruex.SameCallsAsPackageVariant | Reference/src/main/java/com/truex/reference/ads/TruexAdManager.java:84-127 | Over any run this variant calls the playback handler exactly as the package variant does |
| ReferenceProjectTruex.TruexAdManager.constructor | Reference/src/main/java/com/truex/reference/ads/TruexAdManager.java:27-40 | Registers one listener per event, in order, and starts unlatched |
| ReferenceProjectTruex.TruexAdManager.StartAd | Reference/src/main/java/com/truex/reference/ads/TruexAdManager.java:46-58 | Inits the renderer with the fixed preroll options object, then starts it |
| ReferenceProjectTruex.TruexAdManager.OnResume | Reference/src/main/java/com/truex/reference/ads/TruexAdManager.java:63-65 | Forwards resume |
| ReferenceProjectTruex.TruexAdManager.OnPause | Reference/src/main/java/com/truex/reference/ads/TruexAdManager.java:70-72 | Forwards pause |
| ReferenceProjectTruex.TruexAdManager.OnStop | Reference/src/main/java/com/truex/reference/ads/TruexAdManager.java:77-79 | Forwards stop |
| ReferenceProjectTruex.TruexAdManager.OnEvent | Reference/src/main/java/com/truex/reference/ads/TruexAdManager.java:84-127 | The latch and the handler call are those of the registered handler for the event |
| Player.Contains | ReferenceApp/src/main/java/com/truex/referenceapp/player/PlayerFragment.java:438-440 | `contains` holds exactly when the pattern occurs at some position |
| Player.IsTruexAdUrl | ReferenceApp/src/main/java/com/truex/referenceapp/player/PlayerFragment.java:438-440 | A URL is a true[X] ad URL exactly when "get.truex.com" occurs in it at some position |
| Player.TruexUrlExample | ReferenceApp/src/main/java/com/truex/referenceapp/player/PlayerFragment.java:438-440 | The true[X] host marks a URL wherever it stands, a sub-domain prefix included |
| Player.LinearPod | ReferenceApp/src/main/java/com/truex/referenceapp/player/PlayerFragment.java:248-259 | The linear pod is no longer than the break's URL list |
| Player.LinearPodFilters | ReferenceApp/src/main/java/com/truex/referenceapp/player/PlayerFragment.java:248-259 | The pod holds no true[X] URL, holds every other URL with its duration in ms, and nothing else |
| Player.PlainIndices | ReferenceApp/src/main/java/com/truex/referenceapp/player/PlayerFragment.java:253-256 | The positions of the non-true[X] URLs: each in range, strictly increasing, and every such position is there |
| Player.LinearPodInOrder | ReferenceApp/src/main/java/com/truex/referenceapp/player/PlayerFragment.java:248-259 | The pod is the break's non-true[X] ads in source order, each exactly once: item j is the URL at the j-th plain position with its duration in ms |
| Player.LinearPodKeepsPlainBreak | ReferenceApp/src/main/java/com/truex/referenceapp/player/PlayerFragment.java:248-259 | A break without true[X] URLs plays whole and in order |
| Player.PlayerBreak.constructor | ReferenceApp/src/main/java/com/truex/referenceapp/player/PlayerFragment.java:277-294 | A break as the screen reads it: first ad, URLs, durations, offset, not yet viewed |
| Player.PlayerFragment.constructor | ReferenceApp/src/main/java/com/truex/referenceapp/player/PlayerFragment.java:49-68 | No player, no breaks, no adapter, resume point 0, a live progress handler with nothing posted |
| Player.PlayerFragment.OnViewCreated | ReferenceApp/src/main/java/com/truex/referenceapp/player/PlayerFragment.java:89-106 | The payload is loaded, the player exists and the content stream starts |
| Player.PlayerFragment.DisplayContentStream | ReferenceApp/src/main/java/com/truex/referenceapp/player/PlayerFragment.java:316-331 | With a player, shows the content, seeking to the resume point when one is set |
| Player.PlayerFragment.OnResume | ReferenceApp/src/main/java/com/truex/referenceapp/player/PlayerFragment.java:109-124 | Plays unless an interactive ad holds the screen; the adapter is resumed either way |
| Player.PlayerFragment.OnPause | ReferenceApp/src/main/java/com/truex/referenceapp/player/PlayerFragment.java:127-140 | Pauses unless an interactive ad holds the screen; the adapter is paused either way |
| Player.PlayerFragment.OnDestroy | ReferenceApp/src/main/java/com/truex/referenceapp/player/PlayerFragment.java:143-152 | Destroys the adapter's renderer, drops every posted poll and releases the player |
| Player.PlayerFragment.CloseStream | ReferenceApp/src/main/java/com/truex/referenceapp/player/PlayerFragment.java:355-360 | Releases the player when there is one |
| Player.PlayerFragment.ClearCurrentAdBreak | ReferenceApp/src/main/java/com/truex/referenceapp/player/PlayerFragment.java:187-192 | The current break is marked viewed, so it is never due again, and forgotten |
| Player.PlayerFragment.OnPlayerDidComplete | ReferenceApp/src/main/java/com/truex/referenceapp/player/PlayerFragment.java:180-185 | Only the end of a linear pod returns to the content and clears the break |
| Player.PlayerFragment.ResumeStream | ReferenceApp/src/main/java/com/truex/referenceapp/player/PlayerFragment.java:198-210 | With a player: back to the content with the break viewed and cleared, then playing unless paused; it crashes exactly when `isPaused` was never set. Without a player nothing changes |
| Player.PlayerFragment.PauseStream | ReferenceApp/src/main/java/com/truex/referenceapp/player/PlayerFragment.java:216-223 | Pauses the player when there is one |
| Player.PlayerFragment.DisplayLinearAds | ReferenceApp/src/main/java/com/truex/referenceapp/player/PlayerFragment.java:242-267 | With a player: linear mode, then the current break's pod played; it crashes, after switching mode and before any command, exactly when there is no current break. Without a player nothing changes |
| Player.PlayerFragment.HandlePopup | ReferenceApp/src/main/java/com/truex/referenceapp/player/PlayerFragment.java:270-274 | Opens the browser on the URL; a missing URL crashes and opens nothing |
| Player.PlayerFragment.DisplayInteractiveAd | ReferenceApp/src/main/java/com/truex/referenceapp/player/PlayerFragment.java:297-314 | Pauses the content, remembers a position past the start, and starts a fresh adapter on the URL |
| Player.PlayerFragment.PlayCurrentAds | ReferenceApp/src/main/java/com/truex/referenceapp/player/PlayerFragment.java:277-294 | Establishes `ShowedFirstDue`: with no due break the screen is unchanged; otherwise the first due break in list order becomes current; with a player it is shown as an interactive ad (new adapter, resume point moved to the position when that is past the start) when its first ad is a true[X] URL, and as its linear pod otherwise (resume point and adapter kept); without a player nothing else changes |
| Player.PlayerFragment.OnPlayerDidStart | ReferenceApp/src/main/java/com/truex/referenceapp/player/PlayerFragment.java:158-161 | The screen ends as one search for the first due break left it (`ShowedFirstDue`: the immediate poll finds nothing more to show), the poll exists and one run is posted while the handler is live |
| Player.PlayerFragment.StartProgressMonitor | ReferenceApp/src/main/java/com/truex/referenceapp/player/PlayerFragment.java:363-377 | Creates the poll and runs it at once: with no current break and the content past its start it shows the first due break, otherwise the screen is unchanged; one run is posted while the handler is live |
| Player.PlayerFragment.RunPoll | ReferenceApp/src/main/java/com/truex/referenceapp/player/PlayerFragment.java:367-372 | With no current break and the content past its start it shows the first due break (`ShowedFirstDue`), otherwise the screen is unchanged; posts the next run while the handler is live |
| Player.PlayerFragment.OnPollFired | ReferenceApp/src/main/java/com/truex/referenceapp/player/PlayerFragment.java:367-372 | A posted poll runs and posts its successor, so the number pending stays the same; with no current break and the content past its start it shows the first due break (`ShowedFirstDue`), otherwise the screen and adapter are unchanged |
| Player.PlayerFragment.CleanupProgressMonitor | ReferenceApp/src/main/java/com/truex/referenceapp/player/PlayerFragment.java:379-384 | Removes every posted poll and drops the handler |
| Player.PlayerFragment.OnTruexEvent | ReferenceApp/src/main/java/com/truex/referenceapp/player/PlayerFragment.java:198-274 | The adapter's answer is `TruexWiring.Respond`'s and drives the screen: resume goes back to content with the break viewed, linear ads play the pod, a popup opens the browser; it crashes exactly in the three null cases of those handlers |
| Replace.ReplaceAll | ReferenceApp/src/main/java/com/truex/referenceapp/unlock/UnlockFragment.java:298-300 | A string without the target is returned unchanged |
| Replace.NothingLeft | ReferenceApp/src/main/java/com/truex/referenceapp/unlock/UnlockFragment.java:298-300 | After `replace`, the target no longer occurs when the replacement cannot form it across its edges |
| Unlock.UuidIsSafe | ReferenceApp/src/main/java/com/truex/referenceapp/unlock/UnlockFragment.java:298-300 | A UUID cannot form either placeholder across its edges |
| Unlock.NoTargetLeft | ReferenceApp/src/main/java/com/truex/referenceapp/unlock/UnlockFragment.java:296-301 | Replacing each placeholder in turn by safe replacements leaves none of them |
| Unlock.RequestHasNoPlaceholder | ReferenceApp/src/main/java/com/truex/referenceapp/unlock/UnlockFragment.java:45 | The requested ad-server URL carries neither `[stream_id]` nor `[user_id]` |
| Unlock.CurrentAd | ReferenceApp/src/main/java/com/truex/referenceapp/unlock/UnlockFragment.java:89 | The first ad's InLine node, when found, is a node of the tree |
| Unlock.UnlockDecision | ReferenceApp/src/main/java/com/truex/referenceapp/unlock/UnlockFragment.java:72-107 | Refused while unlocked or not ready; "Not true[X] ad" exactly for an AdSystem not starting with "trueX"; the renderer starts exactly for a trueX ad whose AdParameters parse, with them |
| Unlock.Draws | ReferenceApp/src/main/java/com/truex/referenceapp/unlock/UnlockFragment.java:298-300 | The URL loop draws one UUID per placeholder |
| Unlock.UnlockFragment.constructor | ReferenceApp/src/main/java/com/truex/referenceapp/unlock/UnlockFragment.java:40-45 | Locked, no VAST, no renderer, nothing requested |
| Unlock.UnlockFragment.OnCreateView | ReferenceApp/src/main/java/com/truex/referenceapp/unlock/UnlockFragment.java:48-61 | Requests the ad-server URL with two fresh UUIDs |
| Unlock.UnlockFragment.FetchAd | ReferenceApp/src/main/java/com/truex/referenceapp/unlock/UnlockFragment.java:294-302 | Requests the URL with each placeholder replaced by a fresh UUID |
| Unlock.UnlockFragment.FetchXmlToVastMap | ReferenceApp/src/main/java/com/truex/referenceapp/unlock/UnlockFragment.java:304-380 | The tree is the run of the parser's events; VAST becomes ready only when the run reaches the end without an exception |
| Unlock.UnlockFragment.ReadEvent | ReferenceApp/src/main/java/com/truex/referenceapp/unlock/UnlockFragment.java:319-360 | One pass of the loop body does what one step of the tree builder does |
| Unlock.UnlockFragment.UnlockButtonClicked | ReferenceApp/src/main/java/com/truex/referenceapp/unlock/UnlockFragment.java:72-107 | Acts on the unlock decision: shows its toast, starts the renderer, or lets the exception escape |
| Unlock.UnlockFragment.StartTruexAdRenderer | ReferenceApp/src/main/java/com/truex/referenceapp/unlock/UnlockFragment.java:116-144 | Destroys a previous renderer, registers the eleven listeners, then inits with the ad parameters to start once ready |
| Unlock.UnlockFragment.OnResume | ReferenceApp/src/main/java/com/truex/referenceapp/unlock/UnlockFragment.java:150-156 | Forwards resume when there is a renderer |
| Unlock.UnlockFragment.OnPause | ReferenceApp/src/main/java/com/truex/referenceapp/unlock/UnlockFragment.java:162-168 | Forwards pause when there is a renderer |
| Unlock.UnlockFragment.OnDestroy | ReferenceApp/src/main/java/com/truex/referenceapp/unlock/UnlockFragment.java:174-180 | Destroys the renderer when there is one, keeping the reference |
| Unlock.UnlockFragment.OnEvent | ReferenceApp/src/main/java/com/truex/referenceapp/unlock/UnlockFragment.java:185-288 | A registered event shows its toast; AD_FREE_POD unlocks as the credit latch does; a popup opens its URL |
| Unlock.UnlockFragment.UserEarnedCredit | ReferenceApp/src/main/java/com/truex/referenceapp/unlock/UnlockFragment.java:109-113 | The screen is unlocked |
| VastMap.Attributes | ReferenceApp/src/main/java/com/truex/referenceapp/unlock/UnlockFragment.java:324-328 | A new node holds exactly the element's attributes as strings, a repeated name keeping one of its values |
| VastMap.StepOn | ReferenceApp/src/main/java/com/truex/referenceapp/unlock/UnlockFragment.java:319-360 | Every link stays inside the tree, and only a START_TAG adds a node |
| VastMap.Run | ReferenceApp/src/main/java/com/truex/referenceapp/unlock/UnlockFragment.java:316-363 | Every link stays inside the tree, and a run without exception adds one node per START_TAG |
| VastMap.RootIsFixed | ReferenceApp/src/main/java/com/truex/referenceapp/unlock/UnlockFragment.java:340-343 | The first START_TAG's node becomes the root, and no later event replaces it |
| VastMap.StartTagAppends | ReferenceApp/src/main/java/com/truex/referenceapp/unlock/UnlockFragment.java:330-338 | A START_TAG under an open node adds the new node, linked back to it, at the end of that node's list for the element name; nothing else changes |
| VastMap.TextOverwrites | ReferenceApp/src/main/java/com/truex/referenceapp/unlock/UnlockFragment.java:346-348 | TEXT sets "CDATA" on the open node, replacing earlier text, and changes nothing else |
| VastMap.RunKeepsOrder | ReferenceApp/src/main/java/com/truex/referenceapp/unlock/UnlockFragment.java:330-338 | Child lists stay in document order, after their parent, through any run |
| VastMap.Opened | ReferenceApp/src/main/java/com/truex/referenceapp/unlock/UnlockFragment.java:320-356 | One position per element left open by the stream |
| VastMap.RunNests | ReferenceApp/src/main/java/com/truex/referenceapp/unlock/UnlockFragment.java:320-356 | Through a run, the "parent" links are exactly the chain of open elements, the innermost being the open node |
| VastMap.WellNestedLeavesNoLinks | ReferenceApp/src/main/java/com/truex/referenceapp/unlock/UnlockFragment.java:350-356 | A stream that closes every element leaves no "parent" key and no open node |
| VastMap.Get | ReferenceApp/src/main/java/com/truex/referenceapp/unlock/UnlockFragment.java:382-390 | Null for a null map or missing key; a non-list value or a short list throws; otherwise element `index` of that list |
| VastMap.Then | ReferenceApp/src/main/java/com/truex/referenceapp/unlock/UnlockFragment.java:89-98 | Chained lookups pass an exception on and only give nodes of the tree |
| VastMap.TextOf | ReferenceApp/src/main/java/com/truex/referenceapp/unlock/UnlockFragment.java:89-98 | Reading "CDATA" from a null map throws; a text read is the node's "CDATA" |
| VastMap.RunStaysHalted | ReferenceApp/src/main/java/com/truex/referenceapp/unlock/UnlockFragment.java:371-375 | Once an exception stops the loop, the rest of the stream changes nothing |

## Left out

- Android UI, views, toasts, intents, logging, `Context` and resources: toasts, requests, opened URLs and player commands are ghost sequences of what would be shown or done.
- The network, threads and `XmlPullParser`: the VAST download thread's events are the input of `FetchXmlToVastMap`; `IOException`, `XmlPullParserException` and `MalformedURLException` all end the thread the same way (modelled as `ParserError`).
- `UUID.randomUUID` is a parameter `uuids` of the unlock screen, drawn in order.
- The `TruexAdRenderer` SDK is not part of this model: the adapters' calls on it are recorded and its events are inputs. Its internal start once an `init` with start-when-ready completes is the `Init` call's flag.
- ExoPlayer is not part of this model: the content position is an input, and the pod timeline and player commands are recorded values.
- JSON text parsing, `StringEscapeUtils.unescapeJava` and org.json's text-to-int coercion are functions of a `Host` parameter; `new JSONObject(String)` on the unlock screen is a parameter `parse`.
- JSON numbers are integers in the model: org.json's `getInt`/`optInt` truncating a fractional number such as 1.5 is not modelled.
- `getRawFileContents` (reading a raw resource) and `PlayerFragment.getAdPayload` with the player's `AdBreak.fromJson`: that `AdBreak` class, with `viewed`, `adUrls` and `adDurations`, is not part of this model beyond the fields `PlayerBreak` names. Every break is assumed to have at least as many durations as URLs (`PlayerBreak.Consistent`, required by `OnViewCreated` and kept in `Valid`): with fewer, `displayLinearAds` reading `adDurations.get(i)` for a later non-true[X] URL throws `IndexOutOfBoundsException` on the main thread and ends the app process, which the model does not capture.
- The reference app's advertising-id lookup (`getAsyncAdvertisingId`) runs on a thread and calls back; `ReferenceAppTruex.TruexAdManager.StartAd` models the callback's half, with the id as input.
- `PlayerFragment.cancelStream` is `closeStream` plus back-stack navigation; only `CloseStream` is modelled. `onPlayerDidResume` and `onPlayerDidPause` only log.
- `PlayerFragment` calls its adapter with a view group and a VAST URL; the adapter overloads visible in the source take other arguments, so the screen records a `StartInteractiveAd(vastUrl)` command instead of calling a variant's `StartAd`.
- `PlayerFragment.displayInteractiveAd` overwrites its adapter without destroying the old one; the model does the same, and proves nothing about the old renderer.
- Duplicate `onPlayerDidStart` calls post extra poll chains; the model counts posted polls but does not model their timing.
- The failsafe runnable is matched by identity: posts of a runnable overwritten before cancellation stay pending and still fire (`OnFailsafeFired`), ending whatever overlay is live then.
- `Collections.sort` sorts `adBreakList` in place; the model sorts its value (`StableSort.SortBy`) and reassigns the list.
- Sequencer's `onAdComplete` callback is dispatched to `OnInfillionAdComplete` by `OnAdapterEvent`; `onPopup` only logs.
- The unlock screen: the user toggling the lock switch by hand is not modelled; a popup event without a "url" is recorded as `None`, whereas its `Uri.parse(null)` throws on the main thread and ends the app process.
- Unlock.UnlockFragment.FetchXmlToVastMap: the download thread catches only `Error`, the parser and I/O exceptions (UnlockFragment.java:371-375), which end the thread and leave VAST not ready (`ParserError`). `ClassCastException` and `NullPointerException` are not caught there, so each of the following ends the app process, which the model does not capture (it stops the fetch with the exception as `Halt`): a `ClassCastException` for a child element whose name is already an attribute of its parent, for an element named "CDATA" after its parent's text, for an element named "parent" inside a non-root element, for a child element named "parent" directly under the root (its list under the root's "parent" key fails the `Map` cast when the root's end tag is read), and for an attribute named "parent" on the root when its end tag is read; a `NullPointerException` for text outside any element. The model types map entries (`Str`, `List`, `Ref`) to reproduce which casts fail, not Java's untyped maps.
- Replace.ReplaceAll: its contract states only that a string without the target is unchanged; the absence of targets afterwards is `Replace.NothingLeft`, under the condition that the replacement cannot form the target across its edges.
- The player screen's crashes are returned as `crashed`; what the dead process would have done next is not modelled, and the ghost commands stop where the exception is thrown.
- Integer widths: `int` timeouts and `long` positions are unbounded integers; no overflow is modelled.
