# Binaural Experience Lab: the session and audio-graph core

Binaural Experience Lab is a single-page React app for listening sessions.

- **Binaural layer.** Two oscillators a beat frequency apart. Each goes through its own gain and a hard-panned stereo panner into a master gain.
- **Ambient layer.** An optional looping ambient track from a bundled catalogue.
- **Session countdown.** A one-second countdown with play/pause, reset and a configurable duration.

This project models that core in Dafny:

- **The transport.** The countdown updater, play/pause, reset and the duration change.
- **The Web Audio graph.** The React effects of `App` keep the graph in step with the settings and the transport. Nodes are abstract records: kind, one parameter, a playback phase and a set of outgoing connections.
- **The ambient-track catalogue.** It is derived from the bundled `.mp3` modules.
- **The standalone session-timer component.**
- **The duration panel.** Its minute clamp, seconds conversion and preset highlighting.
- **The now-playing card.** Its track-name lookup and `mm:ss` time display.

## Modules

| file | module | what it holds |
|---|---|---|
| `wrappers.dfy` | `Wrappers` | `Option` |
| `countdown.dfy` | `Countdown` | the tick updater shared by the app and the session timer; runs of ticks |
| `session_timer.dfy` | `SessionTimerComponent` | class `SessionTimer`: `seconds`, `isRunning`, the interval |
| `time_format.dfy` | `TimeFormat` | `formatTime`, decimal printing, `padStart`, and a parser used to state the round trip |
| `timer_config.dfy` | `TimerConfig` | clamp, `×60`, `floor(s/60)`, presets and highlighting |
| `track_names.dfy` | `NowPlaying` | `getTrackName` |
| `tracks.dfy` | `TrackCatalogue` | name derivation, sort by name, `find`, the initial selection |
| `audio_graph.dfy` | `AudioGraph` | node records and the Web Audio operations on a layer (`Map<id, Node>`) |
| `binaural.dfy` | `Binaural` | the six-node set: build steps, cleanup, teardown, and their shapes |
| `ambient.dfy` | `Ambient` | the three-node ambient chain: build, cleanup, teardown |
| `app.dfy` | `App` | classes `BinauralEffect`, `AmbientEffect` and `AudioApp`, with every effect and handler |

### How React is modelled

- `AudioApp` holds the state variables as fields. The track catalogue is a `const`, because `useMemo` has no dependencies.
- Each node ref is an `Option<NodeId>` field. The binaural and the ambient effect each own their refs and the nodes they created, in an object of their own (`BinauralEffect`, `AmbientEffect`).
- The constructor is the mount: default state, a fresh context whose master gain feeds the output device, then every effect body once.
- A render with new settings is `AudioApp.Update`. Every effect with a changed dependency reruns: its previous cleanup, then its body, with the render's values passed as arguments.
- `AudioApp.Valid` is the invariant between events:
  - the binaural layer runs iff binaural is enabled and the session plays;
  - the ambient layer plays the selected track iff ambient is enabled, the session plays and the track exists;
  - the master gain is at `masterVolume/100`;
  - the interval is registered exactly while playing.
- "Live" is defined by node status, not by whether a ref is set. The binaural refs are never cleared, so after a teardown they still point at stopped, disconnected nodes.

## Model

| member | source | states |
|---|---|---|
| `Countdown.TickUpdate` | src/app/App.tsx:254-259 | at `prev <= 0` the counter becomes 0 and playback stops; otherwise it drops by exactly one and playback continues; the result is never negative |
| `Countdown.StepsKeepNonNegative` | src/app/App.tsx:254-259 | from a non-negative counter, any number of ticks keeps it non-negative |
| `Countdown.CountdownReachesZero` | src/app/App.tsx:251-275 | from `n` seconds while playing, ticks `1..n` count down to 0 with playback still on; tick `n+1` stops it at 0 |
| `Countdown.StoppedClockIsFixed` | src/app/App.tsx:251-267 | `Step` leaves a clock that is not playing as it is, however often it is applied |
| `Countdown.NoDecrementAfterZero` | src/app/App.tsx:254-259 | from `n` seconds while playing, every run of more than `n` ticks ends stopped at 0: no decrement after 0 |
| `SessionTimerComponent.SessionTimer.constructor` | src/app/components/SessionTimer.tsx:5-7 | mount: `seconds = 1500`, not running, no interval |
| `SessionTimerComponent.SessionTimer.RunningEffect` | src/app/components/SessionTimer.tsx:9-31 | after the effect an interval is registered exactly when running |
| `SessionTimerComponent.SessionTimer.Tick` | src/app/components/SessionTimer.tsx:11-19 | at `seconds <= 0` it becomes 0 and the timer stops; otherwise it drops by one with the running flag unchanged; `0 <= seconds <= 1500` and "interval iff running" are preserved |
| `SessionTimerComponent.SessionTimer.Toggle` | src/app/components/SessionTimer.tsx:56 | negates `isRunning` with no check on `seconds`; the invariant is preserved |
| `SessionTimerComponent.SessionTimer.HandleReset` | src/app/components/SessionTimer.tsx:39-42 | from any state: stopped, `seconds = 1500`, the invariant preserved |
| `TimeFormat.Decimal` | src/app/components/NowPlayingCard.tsx:47 | `toString()` of a non-negative integer: non-empty, digits only, one digit iff below 10, no leading zero |
| `TimeFormat.DecimalRoundTrip` | src/app/components/NowPlayingCard.tsx:47 | reading the printed digits back gives the number |
| `TimeFormat.DecimalWidth` | src/app/components/NowPlayingCard.tsx:47 | a number is printed in at most two digits iff it is below 100 |
| `TimeFormat.PadStart` | src/app/components/NowPlayingCard.tsx:47 | `padStart`: length is the larger of the input length and `width`, the input is a suffix, every added character is the fill |
| `TimeFormat.ZeroPaddingValue` | src/app/components/NowPlayingCard.tsx:47 | padding a digit string with '0' keeps it a digit string of the same value |
| `TimeFormat.FieldDigits` | src/app/components/NowPlayingCard.tsx:47 | a padded field is at least two digits and denotes its number |
| `TimeFormat.FormatTimeRoundTrip` | src/app/components/NowPlayingCard.tsx:44-48 | parsing `formatTime(t)` gives `(floor(t/60), t mod 60)`, so `ss < 60` and `mm*60 + ss = t` (`SessionTimer.tsx:33-37` is the same function) |
| `TimeFormat.FormatTimeShape` | src/app/components/NowPlayingCard.tsx:44-48 | for `t < 6000` the display has length 5, ':' at index 2 and digits elsewhere |
| `TimeFormat.FormatTimeLong` | src/app/components/NowPlayingCard.tsx:45-47 | for `t >= 6000` the minutes field is the full decimal of `floor(t/60)`, more than two digits: padding never truncates |
| `TimerConfig.ClampMinutes` | src/app/components/SessionTimerConfig.tsx:40 | `max(1, min(120, v))` is in 1..120; in-range values pass through; values below go to 1 and values above go to 120 |
| `TimerConfig.DisplayedMinutes` | src/app/components/SessionTimerConfig.tsx:13 | `m = floor(s/60)`: `m*60 <= s < m*60 + 60` |
| `TimerConfig.MinutesRoundTrip` | src/app/components/SessionTimerConfig.tsx:16-18 | the emitted `mins*60` is a multiple of 60 and is displayed again as `mins` |
| `TimerConfig.EmittedSecondsInRange` | src/app/components/SessionTimerConfig.tsx:36-66 | number input, slider and presets emit a multiple of 60 in 60..7200, displayed as the chosen minutes |
| `TimerConfig.Highlighted` | src/app/components/SessionTimerConfig.tsx:63-74 | one flag per preset, set iff the displayed minutes equal that preset |
| `TimerConfig.AtMostOneHighlighted` | src/app/components/SessionTimerConfig.tsx:63-74 | the presets are distinct, so at most one preset is highlighted |
| `TimerConfig.PresetClickHighlightsItself` | src/app/components/SessionTimerConfig.tsx:63-74 | after clicking preset `i`, exactly preset `i` is highlighted |
| `NowPlaying.TrackName` | src/app/components/NowPlayingCard.tsx:28-41 | the table entry for a key of the table, "Theta Focus" for every other key; never empty |
| `NowPlaying.KnownTrackNames` | src/app/components/NowPlayingCard.tsx:29-39 | each of the seven keys gives its name (rain → Rain … none → Theta Focus), and "" gives "Theta Focus" |
| `TrackCatalogue.LastSegmentShape` | src/app/App.tsx:23 | `split("/").pop()` is a suffix of the path with no '/', and it is the whole path or follows a '/' |
| `TrackCatalogue.SuffixSegment` | src/app/App.tsx:23 | the last segment of `dir + "/" + file` is `file` when `file` has no '/' |
| `TrackCatalogue.NameOfFile` | src/app/App.tsx:23 | the track name of `dir/base.mp3` (any case of `.mp3`) is exactly `base`: the directory and the extension are both removed |
| `TrackCatalogue.DeriveEach` | src/app/App.tsx:21-25 | track `i` of the mapped list is named after module path `i` and plays its url |
| `TrackCatalogue.DeriveMembers` | src/app/App.tsx:21-25 | the mapped list holds exactly one track per module entry |
| `TrackCatalogue.Insert` | src/app/App.tsx:26 | an insertion step adds exactly the inserted track |
| `TrackCatalogue.InsertSorted` | src/app/App.tsx:26 | under a total preorder, inserting into a sorted list keeps it sorted |
| `TrackCatalogue.SortByName` | src/app/App.tsx:26 | the sort is a permutation of its input |
| `TrackCatalogue.SortSorted` | src/app/App.tsx:26 | under a total preorder, the sort's result is sorted by name |
| `TrackCatalogue.Catalogue` | src/app/App.tsx:15-27 | `ambientTracks` has one entry per module path and is a permutation of the mapped list |
| `TrackCatalogue.CatalogueSorted` | src/app/App.tsx:21-26 | `ambientTracks` is sorted by name |
| `TrackCatalogue.CatalogueEntries` | src/app/App.tsx:21-26 | a track is in `ambientTracks` iff some module path yields it |
| `TrackCatalogue.FirstIndexOf` | src/app/App.tsx:196-198 | the index of the first track with that name, or the length when there is none |
| `TrackCatalogue.FindTrack` | src/app/App.tsx:196-198 | `find` succeeds iff some track has the name, and then returns the first track with that name |
| `TrackCatalogue.InitialSelection` | src/app/App.tsx:30-32 | the initial `ambientType` is "" for an empty catalogue; otherwise it is the least name and it resolves to a track |
| `AudioGraph.DisconnectSilences` | src/app/App.tsx:98 | `disconnect()` on a node that is not running silences it |
| `AudioGraph.AddLiveNodes` | src/app/App.tsx:117-164 | adding nodes to a silent layer leaves only the added nodes possibly audible |
| `AudioGraph.SilentLayer` | src/app/App.tsx:95-115 | a layer of silent nodes has no audible node |
| `Binaural.CreateNodes` | src/app/App.tsx:121-130 | two oscillators, two gains and two panners, fresh and at their defaults |
| `Binaural.ConfigureNodes` | src/app/App.tsx:133-143 | left oscillator at `baseFreq`, right at `baseFreq + beatFreq`, both gains at `binauralVolume/100`, pans −1 and +1 |
| `Binaural.WireNodes` | src/app/App.tsx:146-152 | exactly `osc → gain → panner → master` on each side, oscillators not yet started |
| `Binaural.StartOscillators` | src/app/App.tsx:155-156 | called only on a fully wired set (requires), it starts both oscillators: no oscillator starts before all six connections exist |
| `Binaural.BuiltSetRuns` | src/app/App.tsx:117-164 | a build on a silent layer with fresh ids gives a consistent layer running as configured, with the refs naming exactly the new nodes |
| `Binaural.StopBothKeepsLayer` | src/app/App.tsx:167-176 | the cleanup stops and disconnects both oscillators, keeps the layer consistent and leaves no node running |
| `Binaural.DisconnectRestSilences` | src/app/App.tsx:104-115 | once the oscillators are stopped, disconnecting gains and panners leaves every node silent |
| `Binaural.RunningSetIsAudible` | src/app/App.tsx:117-165 | a running set is exactly the audible part of the layer |
| `Ambient.BuildChain` | src/app/App.tsx:202-223 | a looping element for the url, its source feeding a gain at `ambientVolume/100`, the gain feeding master, playback requested |
| `Ambient.ChainAddedIsLive` | src/app/App.tsx:200-215 | a chain built on a silent layer with fresh ids is the one live chain, and the refs name exactly its nodes |
| `Ambient.LiveChainIsAudible` | src/app/App.tsx:200-224 | a live chain is exactly the audible part of the layer |
| `Ambient.OneConnectedSource` | src/app/App.tsx:184-215 | while a chain is live, no other element source is connected |
| `Ambient.ReleaseSilences` | src/app/App.tsx:226-240 | after the cleanup every node is silent and the element's `src` is "" |
| `Ambient.QuietSilences` | src/app/App.tsx:184-194 | after the body's teardown every node is silent |
| `App.WantedTrack` | src/app/App.tsx:196-200 | a track is wanted iff ambient is enabled, the session plays and a track has the selected name; it is then that catalogue track |
| `App.BinauralEffect.constructor` | src/app/App.tsx:51-59 | all six refs null, no nodes |
| `App.BinauralEffect.Cleanup` | src/app/App.tsx:167-176 | no node left running, the gains and panners untouched, the layer invariant kept |
| `App.BinauralEffect.Teardown` | src/app/App.tsx:95-115 | every node silent and the refs kept, as the body's teardown leaves them |
| `App.BinauralEffect.Build` | src/app/App.tsx:117-164 | adds exactly the configured six-node set under fresh ids, refs to it, older nodes unchanged, running as configured |
| `App.BinauralEffect.Body` | src/app/App.tsx:91-165 | every older node is silent; a fresh running set iff enabled and playing, otherwise no new node and the refs unchanged |
| `App.BinauralEffect.Rerun` | src/app/App.tsx:91-177 | with a changed dependency: cleanup, then body; without one: nothing changes |
| `App.BuildEstablishes` | src/app/App.tsx:158-164 | refs pointed at a fresh set make a valid, running layer |
| `App.AmbientEffect.constructor` | src/app/App.tsx:61-65 | all three refs null, no nodes |
| `App.AmbientEffect.Cleanup` | src/app/App.tsx:226-240 | all refs null, every node silent, the old element's `src` emptied |
| `App.AmbientEffect.Teardown` | src/app/App.tsx:184-194 | the element ref null, every node silent |
| `App.AmbientEffect.Build` | src/app/App.tsx:200-224 | adds exactly the chain for the track under fresh ids, refs to it, older nodes unchanged |
| `App.AmbientEffect.Body` | src/app/App.tsx:180-224 | every older node silent; the layer plays the wanted track, or is silent with no new node when none is wanted |
| `App.AmbientEffect.VolumeEffect` | src/app/App.tsx:244-248 | only the referenced gain's value changes, to `ambientVolume/100`; no rebuild |
| `App.AmbientEffect.Rerun` | src/app/App.tsx:180-248 | the chain reruns only on a changed dependency, the volume effect only on a changed volume; afterwards the layer plays the wanted track at the current volume |
| `App.ChainEstablishes` | src/app/App.tsx:213-215 | refs pointed at a fresh chain make it the one live chain |
| `App.AudioApp.constructor` | src/app/App.tsx:9-81 | the default state (200, 40, 10, on, first track name, 30, on, 70; stopped; 1500 s), the catalogue, the master gain wired to the output at 0.7, the invariant, and fresh effect objects, so any event can follow the mount |
| `App.AudioApp.MountLayers` | src/app/App.tsx:90-248 | the first runs leave both layers as the settings require |
| `App.AudioApp.MasterVolumeEffect` | src/app/App.tsx:84-88 | the master gain's value becomes `masterVolume/100` and nothing else changes |
| `App.AudioApp.RerunMaster` | src/app/App.tsx:83-88 | the master gain is assigned only when the master volume changed |
| `App.AudioApp.TimerCleanup` | src/app/App.tsx:269-274 | the interval is cleared |
| `App.AudioApp.TimerBody` | src/app/App.tsx:251-267 | an interval is registered iff playing |
| `App.AudioApp.RerunTimer` | src/app/App.tsx:251-275 | the timer effect reruns only when `isPlaying` changed, and then leaves an interval iff playing |
| `App.AudioApp.RerunLayers` | src/app/App.tsx:90-248 | both layers end as the settings require; a layer effect with a changed dependency silences every older node of its layer, and one without leaves its refs and node set alone |
| `App.AudioApp.Update` | src/app/App.tsx:84-275 | after a render the invariant holds for the new state; a change to any of the five binaural dependencies (even the volume alone) silences every older binaural node, and no change leaves the binaural layer untouched; likewise the ambient chain is torn down iff one of its dependencies changed |
| `App.AudioApp.Tick` | src/app/App.tsx:253-261 | at `seconds <= 0`: 0 and stopped, with every layer silenced; otherwise one second less and still playing, and, since `seconds` is in no effect's dependency list, both layers, the master gain and the interval unchanged; the invariant preserved |
| `App.AudioApp.TogglePlayPause` | src/app/App.tsx:347 | negates `isPlaying` with no check on `seconds`; every older node of both layers is silenced and the graph follows the new state |
| `App.AudioApp.ResetTimer` | src/app/App.tsx:285-288 | from any state, `seconds = configuredDuration` and stopped |
| `App.AudioApp.HandleTimerDurationChange` | src/app/App.tsx:291-295 | `configuredDuration = seconds = d` and stopped |
| `App.AudioApp.ChangeSettings` | src/app/App.tsx:177-248 | a control change keeps the invariant; a changed binaural dependency (a frequency, the volume, the flag) silences every older binaural node, otherwise the binaural nodes are untouched; likewise for the ambient chain |
| `App.AudioApp.Unmount` | src/app/App.tsx:76-80 | the context closes, the interval is cleared, no binaural oscillator runs and every ambient node is silent |
| `App.BinauralSoundsIff` | src/app/App.tsx:117-165 | between events, binaural nodes are audible iff binaural is enabled and the session plays, and then exactly the six referenced nodes are |
| `App.AmbientSoundsIff` | src/app/App.tsx:196-224 | between events, ambient nodes are audible iff ambient is enabled, the session plays and the selected track exists; then exactly the three referenced nodes are, looping that track's url |
| `App.AtMostOneAmbientSource` | src/app/App.tsx:184-215 | between events at most one ambient element source is connected |

## Behaviour of the code worth knowing

- **Playback start.** Play/pause negates `isPlaying` whatever `seconds` is, 0 included (`App.tsx:347`). The timer component's toggle is the same (`SessionTimer.tsx:56`).
- **End of countdown.** The counter is checked before it is decremented. From `n` seconds, `n` ticks reach 0 with playback still on, and the next tick stops it (`App.tsx:254-259`).
- **Binaural parameter changes.** A change to `baseFreq`, `beatFreq` or `binauralVolume` alone tears down the whole set (`App.tsx:177`) and, while binaural is enabled and the session plays, builds a fresh one; no node parameter is adjusted in place.
- **Ambient cleanup order.** The ambient cleanup disconnects the source and the gain before it pauses the element (`App.tsx:226-240`). The body's own teardown pauses first (`App.tsx:185-194`).
- **Binaural refs.** They are never cleared. "Live" is therefore decided by node status.
- **Duration values.** `handleTimerDurationChange` stores whatever number it receives (`App.tsx:291-295`); only the panel's widgets decide what is sent.
- **Ambient source.** The ambient layer only streams bundled tracks.

## Left out

- The JSX layout and styling, the headphone-notice timeout (`App.tsx:298-304`) and the card's `Math.sin` bar visualisation: these are presentation only.
- Real Web Audio and `HTMLAudioElement` behaviour. Nodes are abstract records. `ctx.resume()` changes nothing in the model. A `play()` request is recorded as the element's `Started` phase; rejected promises are ignored by the code.
- `import.meta.glob`: the module map is the constructor's `entries` parameter.
- `localeCompare`: the ordering is an abstract `leq` parameter. Sortedness is proved for any total preorder, and permutation for any `leq`.
- `setInterval` timing and React batching. A tick is a method that requires the interval to be registered.
- React's cleanup order. `AudioApp.Update` runs each effect's cleanup immediately before its body. React runs all cleanups first, but the effects change disjoint state, so the final state is the same.
- Floating point. Gain values are `percent / 100` as reals; `NaN` from `Number(...)` is outside `int`; frequencies, volumes, the duration input and the counters are integers. The number input passes fractions through the clamp (`SessionTimerConfig.tsx:40`), so "1.01" minutes emits 60.6 s (`SessionTimerConfig.tsx:17`); such a fractional duration is not modelled.
- The "context or master gain missing" guard at the top of both layer effects (`App.tsx:92-93`, `181-182`). Both exist from mount until unmount, so the early return is unreachable between mount and unmount.
- Prototype-chain keys in the card's name table: only the table's own keys are modelled.
- `App`'s own `formatTime` (`App.tsx:278-282`) is unused. It is the same formula as `TimeFormat.FormatTime`.
- `BinauralControlPanel.tsx` and `AmbientSoundController.tsx`: they only present values that `App` computes.
- TimeFormat.FormatTimeRoundTrip: stated for non-negative integer seconds only. Integer counters are a modelling choice: with a fractional duration from the number input the source counter can become briefly negative (60.6 s reaches about −0.4 on the 61st tick, `App.tsx:255-259`), and `formatTime` then prints negative fields; the model does not cover that case, and `Countdown.TickUpdate`'s "never negative" holds for integer counters only.
- App.AudioApp.Unmount: does not promise a silent binaural layer. The unmount cleanup stops and disconnects only the oscillators, so the gains and panners of the last build stay connected, as in the code.
