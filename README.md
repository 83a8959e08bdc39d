# Clip-sequence playback engine and niche filter, in Dafny

This project models the core of a browser tool that writes short-video scripts.
Its studio view plays the generated clip of each script segment one after another
as a single timeline. The model covers that engine and the page's niche filter.

- `clip_settings.dfy` (module `ClipSettings`): the per-clip settings store. Each
  segment index has a record with `trimStart`, `trimEnd` (0 means the whole clip),
  `transition` (`Cut` for the source's `'none'`, or `Fade`) and the real
  `duration` (0 until the clip's metadata loads). The module holds the seeding,
  the metadata handler's updater and the three edit inputs, all as pure
  functions over a `map`.
- `sequencer.dfy` (module `Sequencer`): the sequence engine. The pure part covers
  the forward scan, `findIndex`, the effective end, the fade window, and what one
  run of the engine effect decides. The engine itself is the class
  `SequencePlayer`. Its fields are the component's state variables
  (`isPlayingSequence`, `currentSequenceIndex`, `isTransitioning`, `videoUrls`,
  `clipSettings`) plus the video element and the settings captured by the
  running frame loop (`active`). Every operation needs and keeps `Coherent()`:
  - a frame loop runs only while playing;
  - there is a settings record for exactly the segment indices.

  The full invariant `Valid()` adds that the fade overlay shows only while
  playing. Every operation keeps `Valid()` except the thumbnail button as
  written (see "## Findings"). The model can therefore go on running after that
  button is pressed.
- `time_format.dfy` (module `TimeFormat`): the mini player's `M:SS` time label.
  It models JavaScript's `Math.floor` and its truncating `%`. A reader
  (`ParseClock`) is the partner used for the round-trip proof.
- `loading_steps.dfy` (module `LoadingSteps`): the loading-screen step ticker,
  which saturates on the last step.
- `niche_filter.dfy` (module `NicheFilter`): the catalogue filter of `App.tsx`,
  plus "Clear all filters".
- `scenarios.dfy` (module `Scenarios`): concrete runs of the engine.

How the engine is driven. React re-runs the engine effect after every render in
which `currentSequenceIndex`, `isPlayingSequence` or `videoUrls` changed. It first
cancels the previous run's animation-frame loop. In the model, every method that
changes one of these dependencies sets `active := None` (the loop is cancelled).
`Activate()` is one run of the effect body. `Tick(position, natural)` is one
animation frame, given the video element's `currentTime` and `duration`.
`natural` is `None` while the element has no metadata; JavaScript has `NaN` there,
so every comparison with it is false.

Behaviours of the code worth noting, all modelled as written:

- The frame loop reads the `settings` object captured when the clip was
  activated, including `transition` and `trimEnd`, never the store. An edit
  builds a new record, so the captured settings do not change. `Tick` consults
  only `active`.
- `PlaySequence` while the sequence already plays the first available clip does
  not restart the frame loop. React skips the effect when no dependency changed,
  so `active` is kept in that case.
- A change of `videoUrls` (a clip arriving) re-runs the effect while the sequence
  plays. The current clip then restarts from its trim start, and the fade flag
  keeps its value.
- Generating a new script resets the URLs and seeds the settings. It leaves
  `isPlayingSequence` and `currentSequenceIndex` as they were.
- The metadata handler tests only `duration === 0`, never `trimEnd`. A trim end
  edited before the clip's metadata arrives is overwritten with the duration
  (`EarlyTrimEndIsOverwritten`). Once a non-zero duration is recorded, a later
  metadata event never updates it (`SecondRecordingIsIgnored`).

## Model

| member | source | states |
|---|---|---|
| ClipSettings.Seed | components/GeneratorModal.tsx:183-191 | the seeded store has a record for exactly the indices 0..n-1, and each is {trimStart 0, trimEnd 0, none, duration 0} |
| ClipSettings.RecordDuration | components/GeneratorModal.tsx:244-255 | when the record's duration is still 0, both duration and trimEnd become the reported duration and nothing else changes; otherwise, or for a missing index, the store is returned unchanged; other indices are never touched |
| ClipSettings.ApplyEdit | components/GeneratorModal.tsx:703-736 | an edit replaces exactly one field (trimStart, trimEnd or transition) of one record, without validation; keys, duration and every other index are unchanged |
| ClipSettings.Applied | components/GeneratorModal.tsx:703-736 | one input's change to a record: the spread copy with one field replaced; the duration is never touched |
| ClipSettings.SeedAwaitsMetadata | components/GeneratorModal.tsx:186-188 | after seeding, exactly the segment indices wait for their first duration |
| ClipSettings.SecondRecordingIsIgnored | components/GeneratorModal.tsx:246-253 | once a non-zero duration is recorded, a later metadata event with any other duration leaves the store unchanged |
| ClipSettings.RecordDurationIdempotent | components/GeneratorModal.tsx:244-255 | recording the same duration twice equals recording it once |
| ClipSettings.EditedTrimEndSurvivesMetadata | components/GeneratorModal.tsx:244-255 | a trim end edited after the duration is known survives any later metadata event |
| ClipSettings.EarlyTrimEndIsOverwritten | components/GeneratorModal.tsx:244-255 | a trim end edited while the duration is still 0 is overwritten by the next metadata event with the reported duration; trim start and transition keep their edited values |
| Sequencer.ScanFrom | components/GeneratorModal.tsx:325-329 | the scan returns the smallest index at or after the start that has a URL; when no such index lies below the segment count, it returns where the scan gives up, and every skipped index has no URL |
| Sequencer.HasUrl | components/GeneratorModal.tsx:327 | `videoUrls[i]` is truthy: the index has a URL and it is not the empty string |
| Sequencer.NextWithUrl | components/GeneratorModal.tsx:325-329 | the loop that steps past segments without a URL stops exactly where the forward scan does |
| Sequencer.FirstWithUrl | components/GeneratorModal.tsx:259-261 | findIndex gives the smallest segment index with a URL, and -1 exactly when no segment has one |
| Sequencer.ActivationAt | components/GeneratorModal.tsx:284-293 | an index lacking a URL or settings steps to index+1 when that is below the segment count, and otherwise halts; an index with both starts that index's settings |
| Sequencer.EffectiveEnd | components/GeneratorModal.tsx:312 | the end the engine uses: the trim end when it is positive, otherwise the element's natural duration (none while that is NaN) |
| Sequencer.InFadeWindow | components/GeneratorModal.tsx:314-320 | a fading clip is at or past half a second before its effective end |
| Sequencer.ClipEnded | components/GeneratorModal.tsx:323 | the position is at or past the clip's effective end |
| Sequencer.SettleFindsNextClip | components/GeneratorModal.tsx:284-293 | with seeded settings, repeated activation steps from an index land on the first index at or after it with a URL, carrying its settings, or stop when none exists |
| Sequencer.CutNeverFades | components/GeneratorModal.tsx:314-320 | a clip whose transition is none never enters the fade window |
| Sequencer.SequencePlayer.constructor | components/GeneratorModal.tsx:141-144 | the initial state is stopped at index 0, with no URLs, no settings and no overlay |
| Sequencer.SequencePlayer.ScriptLoaded | components/GeneratorModal.tsx:183-191 | a new script empties the URL map, seeds one default record per segment and cancels the frame loop; the sequence flags are kept |
| Sequencer.SequencePlayer.ClipReady | components/GeneratorModal.tsx:220 | a resolved clip is stored at its index and the frame loop is cancelled, because URLs are an effect dependency; nothing else changes |
| Sequencer.SequencePlayer.MetadataLoaded | components/GeneratorModal.tsx:244-255 | the store becomes RecordDuration of the old store; the running clip's captured settings and the surface are unchanged |
| Sequencer.SequencePlayer.EditClip | components/GeneratorModal.tsx:703-736 | the store becomes ApplyEdit of the old store; the captured settings of the playing clip, the index and the flags are unchanged, because settings are not an effect dependency |
| Sequencer.SequencePlayer.PlaySequence | components/GeneratorModal.tsx:257-266 | without a script or without any URL nothing changes; otherwise the player is playing at the smallest index with a URL with the overlay off, and the frame loop survives only if index and playing flag were already those |
| Sequencer.SequencePlayer.StopSequence | components/GeneratorModal.tsx:268-274 | afterwards the player is stopped, the overlay is off, no loop runs and the surface is paused; the index is kept; stopping a stopped player changes nothing |
| Sequencer.SequencePlayer.Activate | components/GeneratorModal.tsx:277-306 | when not playing, or without a script, only the loop is cancelled; otherwise the outcome follows ActivationAt: step to index+1 while playing, stop at the last segment, or load the URL, seek to trimStart, play and capture that index's settings |
| Sequencer.SequencePlayer.Tick | components/GeneratorModal.tsx:308-350 | before the effective end only the overlay can change, turning on exactly when the fade window is entered; at the end the index becomes the scanned next index with a URL (overlay off), or the sequence stops with the surface paused on its source and position; while playing, the index only grows |
| Sequencer.SequencePlayer.SelectClipAsWritten | components/GeneratorModal.tsx:650-657 | the thumbnail button loads and plays the chosen clip from 0, stops the sequence and moves the index, leaving the overlay flag as it was; it keeps `Coherent()` but not the overlay part of `Valid()` |
| Sequencer.SequencePlayer.SelectClip | components/GeneratorModal.tsx:650-657 | corrected thumbnail button: as above, with the overlay cleared, so the player invariant is kept |
| Scenarios.TrimmedClipCutsToNext | components/GeneratorModal.tsx:257-350 | with clips at 1 and 2 only and clip 1 trimmed to [1, 3], playback starts at 1 s on clip 1, cuts to clip 2 at 3 s and never visits clip 0 |
| Scenarios.FadeOnLastClip | components/GeneratorModal.tsx:308-347 | a single 8 s fading clip shows no overlay at 7 s, shows it at 7.5 s, and stops with the overlay off at 8 s |
| Scenarios.EditWhilePlayingKeepsCapturedEnd | components/GeneratorModal.tsx:355 | moving the trim end of the playing clip from 3 to 5 s still cuts at 3 s |
| Scenarios.OverlayAfterThumbnailSelect | components/GeneratorModal.tsx:650-657 | pressing a thumbnail inside a fade window leaves the overlay on in the code as written, also after the engine effect runs again, and off with the correction |
| TimeFormat.ClockParts | components/GeneratorModal.tsx:58-59 | for a non-negative position, floor(secs/60) is the whole seconds divided by 60, and floor(secs % 60) is their remainder modulo 60 |
| TimeFormat.FormatTime | components/GeneratorModal.tsx:57-61 | `formatTime` in exact real arithmetic: floored minutes, a colon, a "0" when the floored truncating remainder is below 10, and that remainder |
| TimeFormat.PaddedSeconds | components/GeneratorModal.tsx:60 | seconds below 60 padded as the template does are exactly two digits |
| TimeFormat.FormatTimeShape | components/GeneratorModal.tsx:57-61 | the label of a non-negative position is the unpadded minutes, a colon and the two-digit seconds |
| TimeFormat.FormatTimeReadsBack | components/GeneratorModal.tsx:57-61 | the label reads back as (m, s) with s < 60 and 60*m + s equal to the whole seconds of the position |
| TimeFormat.DecimalRoundTrip | components/GeneratorModal.tsx:60 | reading the decimal rendering of a number gives the number back |
| LoadingSteps.NextStep | components/GeneratorModal.tsx:175-177 | a tick advances the step by one until the last of the five messages, then holds it; a valid message index stays valid |
| LoadingSteps.StepAfter | components/GeneratorModal.tsx:172-177 | after any number of ticks from step 0, the step still indexes one of the five messages |
| LoadingSteps.StepAfterSaturates | components/GeneratorModal.tsx:172-177 | after k ticks the step is min(k, 4) |
| NicheFilter.Lower | App.tsx:15 | lower-casing keeps the length and lowers each character |
| NicheFilter.TrimStart | App.tsx:15 | removes exactly the leading white space |
| NicheFilter.TrimEnd | App.tsx:15 | removes exactly the trailing white space |
| NicheFilter.Includes | App.tsx:18-21 | includes holds exactly when the needle occurs at some position of the haystack |
| NicheFilter.NormalizedTerm | App.tsx:15 | the term searched for: the typed term lower-cased, then trimmed |
| NicheFilter.MatchesTerm | App.tsx:18-21 | an empty term, or one included in the lower-cased title, description or category |
| NicheFilter.Keep | App.tsx:17-22 | the filter's callback: the category test and the search test both hold |
| NicheFilter.Filter | App.tsx:16-23 | `NICHES.filter` with that callback |
| NicheFilter.ClearAll | App.tsx:93-96 | "Clear all filters" sets the category to 'all' and the search text to empty |
| NicheFilter.SelectIsSubsequence | App.tsx:16 | `filter` keeps the original order: its result is a subsequence of its input |
| NicheFilter.SelectKeepsExactly | App.tsx:16 | `filter` keeps every passing element as often as it occurs, and no failing element |
| NicheFilter.SelectAllPass | App.tsx:16 | when every element passes, `filter` returns its input unchanged |
| NicheFilter.FilterListsExactlyKept | App.tsx:16-23 | the filtered catalogue is an order-preserving subsequence of the catalogue; each niche that passes both tests appears as often as in the catalogue, and no failing niche appears |
| NicheFilter.EmptyTermIffBlank | App.tsx:15-18 | the lower-cased, trimmed term is empty exactly when the typed term is only white space |
| NicheFilter.LowerKeepsWhitespace | App.tsx:15 | lower-casing neither creates nor removes white space |
| NicheFilter.TrimEmptyIffBlank | App.tsx:15 | trimming leaves nothing exactly when the string is all white space |
| NicheFilter.AllCategoriesKeepsEverySearchMatch | App.tsx:17 | with the 'all' selection, a niche is kept exactly when it matches the search |
| NicheFilter.CategorySelectionIsExact | App.tsx:17 | with any other selection, a niche is kept exactly when its category equals the selection and it matches the search |
| NicheFilter.BlankTermMatchesEveryNiche | App.tsx:15-18 | an empty or white-space term matches every niche |
| NicheFilter.TermMatchIsSubstringSearch | App.tsx:18-21 | a non-empty term matches exactly when it occurs in the lower-cased title, description or category |
| NicheFilter.VisibleTermIsSubstringSearch | App.tsx:15-21 | a term with a visible character normalizes to a non-empty term, and a niche matches it exactly when that term occurs in the niche's lower-cased title, description or category |
| NicheFilter.SearchIgnoresCase | App.tsx:15-21 | terms, and niche text fields, that agree once lower-cased give the same verdict |
| NicheFilter.BlankFiltersKeepAll | App.tsx:14-24 | with 'all' and a blank term, the filter returns the whole catalogue |
| NicheFilter.ClearAllShowsCatalogue | App.tsx:93-96 | after "Clear all filters", the grid shows every niche |

## Findings

| source | as written | input that shows it | evidently intended | confidence | as-written member | corrected member |
|---|---|---|---|---|---|---|
| components/GeneratorModal.tsx:650-657 | the thumbnail play button stops the sequence and moves the index but never clears `isTransitioning` | a fading clip of 8 s plays and a frame at 7.6 s turns the overlay on; the user then presses another thumbnail's play button; the black overlay stays over the chosen clip while the sequence is stopped (`Scenarios.OverlayAfterThumbnailSelect`) | clear the overlay as `stopSequence` and the end-of-clip switch do, so it shows only while the sequence plays | medium, not executed | Sequencer.SequencePlayer.SelectClipAsWritten | Sequencer.SequencePlayer.SelectClip |

## Left out

- Script and clip generation (`services/geminiService.ts`): these are network calls with polling. A resolved clip is the external event `ClipReady`. A generated script is `ScriptLoaded`. Failed generations and their alerts are not modelled.
- The API-key selection flow and the matching of error-message text (components/GeneratorModal.tsx:210-215, 223). Both are foreign browser capabilities.
- Scheduling: `requestAnimationFrame`, the close and "copied" timeouts, and the loader's `setInterval`. Each animation frame is one `Tick`. Each interval tick is one `NextStep`.
- The video element. Position and natural duration are inputs to `Tick`. The element is assumed mounted, so the checks on `editorVideoRef.current` are taken as true. When the studio tab is not shown, the real effect returns early instead.
- The playback-rejection path (301-304) just calls `stopSequence`. In the model it is a `StopSequence` call by the environment.
- The editor video's `onEnded` handler (574-578) sets `isPlayingSequence` to false only when it is already false. It changes nothing, so it is not modelled.
- `parseFloat` on the trim inputs can yield NaN. Trim values are modelled as reals. `duration` from the metadata is likewise a real.
- Lower-casing covers ASCII letters only. Other Unicode case mappings are not modelled.
- ClipSettings.ApplyEdit: an edit to an index with no record leaves the store unchanged. JavaScript would build a partial record there. This cannot happen in the page: the edit inputs are rendered only for segments with a clip, and those segments were seeded before any clip existed.
- TimeFormat.FormatTimeShape: stated for non-negative positions only, because a video position is never negative.
- TimeFormat.FormatTime: uses exact real arithmetic. JavaScript divides and takes remainders in double precision, which can round a position just below a minute boundary differently. Minutes of 10^21 or more, which JavaScript writes in exponent form (`1e+21`), are written out in full here.
- URL revocation. `handleClose` revokes every stored URL, but a new script replaces the map without revoking. No property about leaks is claimed.
- The single-clip preview's play/pause toggle and seek handlers (components/GeneratorModal.tsx:24-55). They only set its own element's state. Only its time label is modelled.
- Rendering and styling (`Header.tsx`, `NicheCard.tsx` and the JSX of both core files). The data files `constants.ts` and `types.ts` are also left out; `Niche` carries the fields of `types.ts`.
