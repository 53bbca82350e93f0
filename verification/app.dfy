/**
 * The app component: configuration and transport state, the one-second session
 * countdown, and the Web Audio graph it keeps in step with that state.
 *
 * React is modelled as follows. A state change (`Update`) assigns the new state,
 * then reruns, in declaration order, every effect one of whose dependencies
 * changed: each such effect runs the cleanup of its previous run and then its
 * body before the next effect is considered. The mount (`constructor`) runs
 * every body once. An effect body reads
 * the values of the render that scheduled it; they are passed as arguments.
 * Node handles kept in refs are `Option<NodeId>` fields. The binaural and the
 * ambient effect each own their refs and the nodes they created (a `Layer`),
 * held in an object of their own; both layers feed the single master gain,
 * which feeds the output device.
 */
module App {
  import opened Wrappers
  import opened AudioGraph
  import opened Countdown
  import opened TrackCatalogue
  import Binaural
  import Ambient

  /** The configuration state the controls edit. */
  datatype Settings = Settings(
    baseFreq: int,
    beatFreq: int,
    binauralVolume: int,
    binauralEnabled: bool,
    ambientType: string,
    ambientVolume: int,
    ambientEnabled: bool,
    masterVolume: int)

  /** The binaural effect's dependency list: enabled flag, both frequencies, volume, playing. */
  predicate BinauralDepsChanged(s: Settings, playing: bool, s': Settings, playing': bool)
  {
    s.binauralEnabled != s'.binauralEnabled || s.baseFreq != s'.baseFreq || s.beatFreq != s'.beatFreq
    || s.binauralVolume != s'.binauralVolume || playing != playing'
  }

  /** The ambient effect's dependency list: enabled flag, selected track, playing (the catalogue is fixed). */
  predicate AmbientDepsChanged(s: Settings, playing: bool, s': Settings, playing': bool)
  {
    s.ambientEnabled != s'.ambientEnabled || s.ambientType != s'.ambientType || playing != playing'
  }

  /** The six binaural refs as one value, when all are set. */
  function BinauralIdsOf(l: Option<NodeId>, r: Option<NodeId>, lg: Option<NodeId>, rg: Option<NodeId>,
    pl: Option<NodeId>, pr: Option<NodeId>): Option<Binaural.BinauralIds>
  {
    if l.Some? && r.Some? && lg.Some? && rg.Some? && pl.Some? && pr.Some? then
      Some(Binaural.BinauralIds(l.value, r.value, lg.value, rg.value, pl.value, pr.value))
    else None
  }

  /** The six binaural refs are assigned together: all set or none. */
  predicate AllOrNone(l: Option<NodeId>, r: Option<NodeId>, lg: Option<NodeId>, rg: Option<NodeId>,
    pl: Option<NodeId>, pr: Option<NodeId>)
  {
    (l.None? && r.None? && lg.None? && rg.None? && pl.None? && pr.None?) ||
    (l.Some? && r.Some? && lg.Some? && rg.Some? && pl.Some? && pr.Some?)
  }

  /**
   * Lifecycle invariant of the binaural layer: ids are below the allocation
   * counter and the layer is consistent with the refs.
   */
  ghost predicate BinauralLayerOk(g: Layer, next: NodeId, refs: Option<Binaural.BinauralIds>)
  {
    (forall id :: id in g ==> id < next) && Binaural.Consistent(g, refs)
  }

  /**
   * The binaural layer as the effect leaves it: when `on`, the referenced set
   * runs with the given frequencies and volume; otherwise every node is silent.
   */
  ghost predicate BinauralLayerMatches(g: Layer, refs: Option<Binaural.BinauralIds>, on: bool,
    baseFreq: int, beatFreq: int, volume: int)
  {
    if on then refs.Some? && Binaural.RunningAs(g, refs.value, baseFreq, beatFreq, volume)
    else SilentExcept(g, {})
  }

  /** The three ambient refs as one value, when all are set. */
  function AmbientIdsOf(audio: Option<NodeId>, source: Option<NodeId>, gain: Option<NodeId>): Option<Ambient.AmbientIds>
  {
    if audio.Some? && source.Some? && gain.Some? then Some(Ambient.AmbientIds(audio.value, source.value, gain.value))
    else None
  }

  /** The referenced chain is the one live chain of the layer. */
  ghost predicate AmbientLive(g: Layer, refs: Option<Ambient.AmbientIds>)
  {
    refs.Some? && Ambient.ChainLive(g, refs.value)
  }

  /**
   * Lifecycle invariant of the ambient layer: ids are below the allocation
   * counter, each ref that is set names a node of its kind, and the layer holds
   * either the one live chain or nothing audible.
   */
  ghost predicate AmbientLayerOk(g: Layer, next: NodeId, audio: Option<NodeId>, source: Option<NodeId>,
    gain: Option<NodeId>)
  {
    (forall id :: id in g ==> id < next) &&
    Ambient.RefsIn(g, audio, source, gain) &&
    (source.Some? ==> g[source.value].kind.MediaElementSource?) &&
    (gain.Some? ==> g[gain.value].kind == Gain) &&
    (AmbientLive(g, AmbientIdsOf(audio, source, gain)) || SilentExcept(g, {}))
  }

  /**
   * The ambient layer as the effects leave it: with a wanted track, the live
   * chain loops that track's file at the given volume; otherwise every node is
   * silent.
   */
  ghost predicate AmbientLayerMatches(g: Layer, refs: Option<Ambient.AmbientIds>, track: Option<Track>, volume: int)
  {
    match track
    case Some(t) =>
      AmbientLive(g, refs) &&
      g[refs.value.audio].kind == MediaElement(t.url, true) && g[refs.value.gain].value == Level(volume)
    case None => SilentExcept(g, {})
  }


  /** The track the ambient effect should be playing: the selected one, if enabled, playing and found. */
  function WantedTrack(tracks: seq<Track>, enabled: bool, ambientType: string, playing: bool): (r: Option<Track>)
    ensures r.Some? <==> enabled && playing && exists i :: 0 <= i < |tracks| && tracks[i].name == ambientType
    ensures r.Some? ==> r.value in tracks && r.value.name == ambientType
  {
    if enabled && playing then FindTrack(tracks, ambientType) else None
  }

  /**
   * What the binaural effect owns: the refs to the six nodes of its latest build
   * and every node it has created, with the next fresh id.
   */
  class BinauralEffect {
    var nodes: Layer
    var nextId: NodeId
    var leftOscillatorRef: Option<NodeId>
    var rightOscillatorRef: Option<NodeId>
    var leftGainRef: Option<NodeId>
    var rightGainRef: Option<NodeId>
    var pannerLeftRef: Option<NodeId>
    var pannerRightRef: Option<NodeId>

    /** The six refs as one value, when they are set. */
    ghost function Refs(): Option<Binaural.BinauralIds>
      reads this
    {
      BinauralIdsOf(leftOscillatorRef, rightOscillatorRef, leftGainRef, rightGainRef, pannerLeftRef, pannerRightRef)
    }

    /** Lifecycle invariant: the refs are set together and the layer is consistent with them. */
    ghost predicate Valid()
      reads this
    {
      AllOrNone(leftOscillatorRef, rightOscillatorRef, leftGainRef, rightGainRef, pannerLeftRef, pannerRightRef) &&
      BinauralLayerOk(nodes, nextId,
        BinauralIdsOf(leftOscillatorRef, rightOscillatorRef, leftGainRef, rightGainRef, pannerLeftRef, pannerRightRef))
    }

    /** The layer as the effect leaves it (see `BinauralLayerMatches`). */
    ghost predicate Matches(on: bool, baseFreq: int, beatFreq: int, volume: int)
      reads this
    {
      BinauralLayerMatches(nodes,
        BinauralIdsOf(leftOscillatorRef, rightOscillatorRef, leftGainRef, rightGainRef, pannerLeftRef, pannerRightRef),
        on, baseFreq, beatFreq, volume)
    }

    /** The refs as `useRef(null)` creates them, and no nodes yet. */
    constructor ()
      ensures Valid() && nodes == map[] && nextId == 0 && Refs() == None
    {
      nodes, nextId := map[], 0;
      leftOscillatorRef, rightOscillatorRef := None, None;
      leftGainRef, rightGainRef := None, None;
      pannerLeftRef, pannerRightRef := None, None;
    }

    /** The effect's cleanup: stop and disconnect both oscillators, if any. */
    method Cleanup()
      requires Valid()
      modifies this`nodes
      ensures Valid()
      ensures nodes.Keys == old(nodes).Keys
      ensures forall id :: id in nodes ==> nodes[id].phase != Started
      ensures forall id :: id in nodes && nodes[id].kind != Oscillator ==> nodes[id] == old(nodes)[id]
    {
      if Refs().Some? {
        Binaural.StopBothKeepsLayer(nodes, Refs().value);
      }
      var g := nodes;
      if leftOscillatorRef.Some? {
        g := Disconnect(Stop(g, leftOscillatorRef.value), leftOscillatorRef.value);
      }
      if rightOscillatorRef.Some? {
        g := Disconnect(Stop(g, rightOscillatorRef.value), rightOscillatorRef.value);
      }
      nodes := g;
    }

    /**
     * The first half of the body: the cleanup's two steps on the oscillators,
     * then the referenced gains and panners disconnected. The refs stay set.
     */
    method Teardown()
      requires Valid()
      modifies this`nodes
      ensures Valid()
      ensures nodes.Keys == old(nodes).Keys
      ensures SilentExcept(nodes, {})
    {
      Cleanup();
      if Refs().Some? {
        Binaural.DisconnectRestSilences(nodes, Refs().value);
      }
      var g := nodes;
      if leftGainRef.Some? {
        g := Disconnect(g, leftGainRef.value);
      }
      if rightGainRef.Some? {
        g := Disconnect(g, rightGainRef.value);
      }
      if pannerLeftRef.Some? {
        g := Disconnect(g, pannerLeftRef.value);
      }
      if pannerRightRef.Some? {
        g := Disconnect(g, pannerRightRef.value);
      }
      nodes := g;
    }

    /**
     * The second half of the body: six fresh nodes created, configured, wired
     * and started in the source's order, then the refs pointed at them.
     */
    method Build(baseFreq: int, beatFreq: int, volume: int)
      requires forall id :: id in nodes ==> id < nextId
      requires SilentExcept(nodes, {})
      modifies this
      ensures nodes == old(nodes) + Binaural.BinauralSet(old(nextId), baseFreq, beatFreq, volume)
      ensures nextId == old(nextId) + 6
      ensures Refs() == Some(Binaural.IdsFrom(old(nextId)))
      ensures forall id :: id in old(nodes) ==> id in nodes && nodes[id] == old(nodes)[id]
      ensures Valid() && Matches(true, baseFreq, beatFreq, volume)
    {
      var n := nextId;
      var created := Binaural.CreateNodes(n);
      var configured := Binaural.ConfigureNodes(created, n, baseFreq, beatFreq, volume);
      var wired := Binaural.WireNodes(configured, n, baseFreq, beatFreq, volume);
      var started := Binaural.StartOscillators(wired, n, baseFreq, beatFreq, volume);
      nodes, nextId := nodes + started, n + 6;
      leftOscillatorRef, rightOscillatorRef, leftGainRef, rightGainRef, pannerLeftRef, pannerRightRef :=
        Some(n), Some(n + 1), Some(n + 2), Some(n + 3), Some(n + 4), Some(n + 5);
      BuildEstablishes(this, old(nodes), n, baseFreq, beatFreq, volume);
    }

    /**
     * The effect body, with the render's values: tear down whatever the refs
     * hold, then build a fresh set iff binaural is enabled and the session plays.
     */
    method Body(enabled: bool, playing: bool, baseFreq: int, beatFreq: int, volume: int)
      requires Valid()
      modifies this
      ensures Valid() && Matches(enabled && playing, baseFreq, beatFreq, volume)
      ensures forall id :: id in old(nodes) ==> id in nodes && Silent(nodes[id])
      ensures enabled && playing ==> Refs() == Some(Binaural.IdsFrom(old(nextId)))
      ensures !(enabled && playing) ==> nodes.Keys == old(nodes).Keys && Refs() == old(Refs())
    {
      Teardown();
      if enabled && playing {
        Build(baseFreq, beatFreq, volume);
      }
    }

    /**
     * The effect's part in one render: when one of its dependencies changed, the
     * previous run's cleanup, then the body with the render's values.
     */
    method Rerun(changed: bool, enabled: bool, playing: bool, baseFreq: int, beatFreq: int, volume: int)
      requires Valid()
      requires !changed ==> Matches(enabled && playing, baseFreq, beatFreq, volume)
      modifies this
      ensures Valid() && Matches(enabled && playing, baseFreq, beatFreq, volume)
      ensures changed ==> forall id :: id in old(nodes) ==> id in nodes && Silent(nodes[id])
      ensures !changed ==> unchanged(this)
    {
      if changed {
        Cleanup();
        Body(enabled, playing, baseFreq, beatFreq, volume);
      }
    }
  }

  /** A fresh set added to a silent layer, with the refs pointed at it, is a well-formed running layer. */
  lemma BuildEstablishes(e: BinauralEffect, g0: Layer, n: NodeId, baseFreq: int, beatFreq: int, volume: int)
    requires forall id :: id in g0 ==> id < n
    requires SilentExcept(g0, {})
    requires e.nodes == g0 + Binaural.BinauralSet(n, baseFreq, beatFreq, volume)
    requires e.nextId == n + 6
    requires e.leftOscillatorRef == Some(n) && e.rightOscillatorRef == Some(n + 1)
    requires e.leftGainRef == Some(n + 2) && e.rightGainRef == Some(n + 3)
    requires e.pannerLeftRef == Some(n + 4) && e.pannerRightRef == Some(n + 5)
    ensures e.Refs() == Some(Binaural.IdsFrom(n))
    ensures e.Valid() && e.Matches(true, baseFreq, beatFreq, volume)
    ensures forall id :: id in g0 ==> id in e.nodes && e.nodes[id] == g0[id]
  {
    Binaural.BuiltSetRuns(g0, n, baseFreq, beatFreq, volume);
    assert e.Refs() == Some(Binaural.IdsFrom(n));
  }

  /**
   * What the ambient effects own: the refs to the element, its graph source and
   * its gain, and every node they have created, with the next fresh id.
   */
  class AmbientEffect {
    var nodes: Layer
    var nextId: NodeId
    var audioRef: Option<NodeId>
    var sourceRef: Option<NodeId>
    var gainRef: Option<NodeId>

    /** The three refs as one value, when all are set. */
    ghost function Refs(): Option<Ambient.AmbientIds>
      reads this
    {
      AmbientIdsOf(audioRef, sourceRef, gainRef)
    }

    /** Lifecycle invariant (see `AmbientLayerOk`). */
    ghost predicate Valid()
      reads this
    {
      AmbientLayerOk(nodes, nextId, audioRef, sourceRef, gainRef)
    }

    /** The layer as the effects leave it (see `AmbientLayerMatches`). */
    ghost predicate Matches(track: Option<Track>, volume: int)
      reads this
    {
      AmbientLayerMatches(nodes, AmbientIdsOf(audioRef, sourceRef, gainRef), track, volume)
    }

    /** The refs as `useRef(null)` creates them, and no nodes yet. */
    constructor ()
      ensures Valid() && nodes == map[] && nextId == 0 && Refs() == None
    {
      nodes, nextId := map[], 0;
      audioRef, sourceRef, gainRef := None, None, None;
    }

    /** The chain effect's cleanup: disconnect source and gain, pause and empty the element, clear the refs. */
    method Cleanup()
      requires Valid()
      modifies this`nodes, this`audioRef, this`sourceRef, this`gainRef
      ensures Valid()
      ensures audioRef.None? && sourceRef.None? && gainRef.None?
      ensures nodes.Keys == old(nodes).Keys
      ensures SilentExcept(nodes, {})
      ensures old(audioRef).Some? ==>
        nodes[old(audioRef).value].kind.MediaElement? && nodes[old(audioRef).value].kind.src == ""
    {
      ghost var live := if AmbientLive(nodes, Refs()) then Refs().value.Ids() else {};
      Ambient.ReleaseSilences(nodes, audioRef, sourceRef, gainRef, live);
      nodes := Ambient.Release(nodes, audioRef, sourceRef, gainRef);
      audioRef, sourceRef, gainRef := None, None, None;
    }

    /** The first half of the chain effect's body: pause and drop the element, disconnect source and gain. */
    method Teardown()
      requires Valid()
      modifies this`nodes, this`audioRef
      ensures Valid()
      ensures audioRef.None?
      ensures nodes.Keys == old(nodes).Keys
      ensures SilentExcept(nodes, {})
    {
      ghost var live := if AmbientLive(nodes, Refs()) then Refs().value.Ids() else {};
      Ambient.QuietSilences(nodes, audioRef, sourceRef, gainRef, live);
      nodes := Ambient.Quiet(nodes, audioRef, sourceRef, gainRef);
      audioRef := None;
    }

    /**
     * The second half of the chain effect's body: a looping element for the
     * track, its graph source and a gain at the ambient volume, wired `source ->
     * gain -> master`, the refs pointed at them, and playback requested.
     */
    method Build(track: Track, volume: int)
      requires forall id :: id in nodes ==> id < nextId
      requires SilentExcept(nodes, {})
      modifies this
      ensures nodes == old(nodes) + Ambient.Chain(old(nextId), track.url, volume)
      ensures nextId == old(nextId) + 3
      ensures Refs() == Some(Ambient.IdsFrom(old(nextId)))
      ensures forall id :: id in old(nodes) ==> id in nodes && nodes[id] == old(nodes)[id]
      ensures Valid() && Matches(Some(track), volume)
    {
      var n := nextId;
      // `ctx.resume()` changes nothing in the graph.
      var chain := Ambient.BuildChain(n, track.url, volume);
      nodes, nextId := nodes + chain, n + 3;
      audioRef, sourceRef, gainRef := Some(n), Some(n + 1), Some(n + 2);
      ChainEstablishes(this, old(nodes), n, track, volume);
    }

    /**
     * The chain effect's body, with the render's values: tear down, then build
     * one chain iff ambient is enabled, the session plays and a track of the
     * selected name exists.
     */
    method Body(tracks: seq<Track>, enabled: bool, ambientType: string, playing: bool, volume: int)
      requires Valid()
      modifies this
      ensures Valid() && Matches(WantedTrack(tracks, enabled, ambientType, playing), volume)
      ensures forall id :: id in old(nodes) ==> id in nodes && Silent(nodes[id])
      ensures WantedTrack(tracks, enabled, ambientType, playing).None? ==> nodes.Keys == old(nodes).Keys
    {
      Teardown();
      var selectedTrack := FindTrack(tracks, ambientType);
      if enabled && playing && selectedTrack.Some? {
        Build(selectedTrack.value, volume);
      }
    }

    /**
     * The ambient-volume effect: assigns the referenced gain in place, if there
     * is one. Whatever chain the layer holds now plays at the new volume.
     */
    method VolumeEffect(volume: int, ghost track: Option<Track>, ghost previous: int)
      requires Valid() && Matches(track, previous)
      modifies this`nodes
      ensures Valid() && Matches(track, volume)
      ensures gainRef.Some? ==> nodes == SetValue(old(nodes), gainRef.value, Level(volume))
      ensures gainRef.None? ==> nodes == old(nodes)
    {
      if gainRef.Some? {
        nodes := SetValue(nodes, gainRef.value, Level(volume));
      }
    }

    /**
     * The two ambient effects' part in one render: when the chain's dependencies
     * changed, its previous cleanup and then its body; then, when the ambient
     * volume changed, the volume effect. `previous` is the volume the current
     * chain was built or last set with.
     */
    method Rerun(changed: bool, volumeChanged: bool, tracks: seq<Track>, enabled: bool, ambientType: string,
      playing: bool, volume: int, ghost previous: int)
      requires Valid()
      requires !changed ==> Matches(WantedTrack(tracks, enabled, ambientType, playing), previous)
      requires !volumeChanged ==> previous == volume
      modifies this
      ensures Valid() && Matches(WantedTrack(tracks, enabled, ambientType, playing), volume)
      ensures changed ==> forall id :: id in old(nodes) ==> id in nodes && Silent(nodes[id])
      ensures !changed ==> nodes.Keys == old(nodes).Keys && Refs() == old(Refs())
    {
      ghost var current := previous;
      if changed {
        Cleanup();
        Body(tracks, enabled, ambientType, playing, volume);
        current := volume;
      }
      if volumeChanged {
        VolumeEffect(volume, WantedTrack(tracks, enabled, ambientType, playing), current);
      }
    }
  }

  /** A fresh chain added to a silent layer, with the refs pointed at it, is the one live chain. */
  lemma ChainEstablishes(e: AmbientEffect, g0: Layer, n: NodeId, track: Track, volume: int)
    requires forall id :: id in g0 ==> id < n
    requires SilentExcept(g0, {})
    requires e.nodes == g0 + Ambient.Chain(n, track.url, volume)
    requires e.nextId == n + 3
    requires e.audioRef == Some(n) && e.sourceRef == Some(n + 1) && e.gainRef == Some(n + 2)
    ensures e.Refs() == Some(Ambient.IdsFrom(n))
    ensures e.Valid() && e.Matches(Some(track), volume)
    ensures forall id :: id in g0 ==> id in e.nodes && e.nodes[id] == g0[id]
  {
    Ambient.ChainAddedIsLive(g0, n, track.url, volume);
    assert e.Refs() == Some(Ambient.IdsFrom(n));
  }

  class AudioApp {
    // React state
    var settings: Settings
    var isPlaying: bool
    var seconds: int
    var configuredDuration: int
    /** True while the one-second interval is registered (`timerIntervalRef` holds a live id). */
    var timerActive: bool
    /** `ambientTracks`, computed once. */
    const ambientTracks: seq<Track>

    // The audio context and its master gain, created on mount
    var contextOpen: bool
    var master: Node

    // The refs and nodes of the binaural and of the ambient effects
    const binaural: BinauralEffect
    const ambient: AmbientEffect

    /**
     * The state between events: the graph is exactly what the settings and the
     * transport call for, the master gain is at the master volume, and the
     * countdown interval is registered exactly while playing.
     */
    ghost predicate Valid()
      reads this, binaural, ambient
    {
      contextOpen && master.kind == Gain && master.outputs == {ToDestination} &&
      binaural.Valid() && ambient.Valid() &&
      binaural.Matches(settings.binauralEnabled && isPlaying, settings.baseFreq, settings.beatFreq,
        settings.binauralVolume) &&
      ambient.Matches(WantedTrack(ambientTracks, settings.ambientEnabled, settings.ambientType, isPlaying),
        settings.ambientVolume) &&
      master.value == Level(settings.masterVolume) &&
      timerActive == isPlaying
    }

    /**
     * Mount: the default state, the track catalogue, a fresh audio context whose
     * master gain is connected to the output, then every effect body once.
     */
    constructor (entries: seq<(string, string)>, leq: (string, string) -> bool)
      ensures Valid()
      ensures fresh(binaural) && fresh(ambient)
      ensures ambientTracks == Catalogue(entries, leq)
      ensures settings == Settings(200, 40, 10, true, InitialAmbientType(ambientTracks), 30, true, 70)
      ensures !isPlaying && seconds == 1500 && configuredDuration == 1500
      ensures master == Node(Gain, Level(70), Unstarted, {ToDestination})
    {
      var tracks := Catalogue(entries, leq);
      var s := Settings(200, 40, 10, true, InitialAmbientType(tracks), 30, true, 70);
      ambientTracks := tracks;
      settings := s;
      isPlaying := false;
      seconds := 1500;
      configuredDuration := 1500;
      timerActive := false;
      contextOpen := true;
      master := Fresh(Gain, DefaultGain).(outputs := {ToDestination});
      binaural := new BinauralEffect();
      ambient := new AmbientEffect();
      new;
      MasterVolumeEffect();
      MountLayers();
      TimerBody();
    }

    /** The first run of the binaural, the ambient and the ambient-volume effect bodies. */
    method MountLayers()
      requires binaural.Valid() && ambient.Valid()
      modifies binaural, ambient
      ensures binaural.Valid() && ambient.Valid()
      ensures binaural.Matches(settings.binauralEnabled && isPlaying, settings.baseFreq, settings.beatFreq, settings.binauralVolume)
      ensures ambient.Matches(WantedTrack(ambientTracks, settings.ambientEnabled, settings.ambientType, isPlaying),
        settings.ambientVolume)
    {
      binaural.Body(settings.binauralEnabled, isPlaying, settings.baseFreq, settings.beatFreq, settings.binauralVolume);
      var wanted := WantedTrack(ambientTracks, settings.ambientEnabled, settings.ambientType, isPlaying);
      ambient.Body(ambientTracks, settings.ambientEnabled, settings.ambientType, isPlaying, settings.ambientVolume);
      ambient.VolumeEffect(settings.ambientVolume, wanted, settings.ambientVolume);
    }

    /** The master-volume effect: assigns the master gain in place. */
    method MasterVolumeEffect()
      modifies this`master
      ensures master == old(master).(value := Level(settings.masterVolume))
    {
      master := master.(value := Level(settings.masterVolume));
    }

    /** The timer effect's cleanup: clear the interval. */
    method TimerCleanup()
      modifies this`timerActive
      ensures !timerActive
    {
      timerActive := false;
    }

    /** The timer effect body: register the interval while playing, clear it otherwise. */
    method TimerBody()
      modifies this`timerActive
      ensures timerActive == isPlaying
    {
      if isPlaying {
        timerActive := true;
      } else {
        timerActive := false;
      }
    }

    /** The master-volume effect's part in one render: it runs when the master volume changed. */
    method RerunMaster(changed: bool)
      modifies this`master
      ensures changed ==> master == old(master).(value := Level(settings.masterVolume))
      ensures !changed ==> master == old(master)
    {
      if changed {
        MasterVolumeEffect();
      }
    }

    /** The timer effect's part in one render: cleanup and body run when `isPlaying` changed. */
    method RerunTimer(changed: bool)
      modifies this`timerActive
      ensures changed ==> timerActive == isPlaying
      ensures !changed ==> timerActive == old(timerActive)
    {
      if changed {
        TimerCleanup();
        TimerBody();
      }
    }

    /** The binaural and the two ambient effects' part in one render. */
    method RerunLayers(binauralChanged: bool, ambientChanged: bool, ambientVolumeChanged: bool, ghost previousVolume: int)
      requires binaural.Valid() && ambient.Valid()
      requires !binauralChanged ==>
        binaural.Matches(settings.binauralEnabled && isPlaying, settings.baseFreq, settings.beatFreq, settings.binauralVolume)
      requires !ambientChanged ==>
        ambient.Matches(WantedTrack(ambientTracks, settings.ambientEnabled, settings.ambientType, isPlaying), previousVolume)
      requires !ambientVolumeChanged ==> previousVolume == settings.ambientVolume
      modifies binaural, ambient
      ensures binaural.Valid() && ambient.Valid()
      ensures binaural.Matches(settings.binauralEnabled && isPlaying, settings.baseFreq, settings.beatFreq, settings.binauralVolume)
      ensures ambient.Matches(WantedTrack(ambientTracks, settings.ambientEnabled, settings.ambientType, isPlaying),
        settings.ambientVolume)
      ensures !binauralChanged ==> unchanged(binaural)
      ensures binauralChanged ==>
        forall id :: id in old(binaural.nodes) ==> id in binaural.nodes && Silent(binaural.nodes[id])
      ensures !ambientChanged ==> ambient.nodes.Keys == old(ambient.nodes).Keys && ambient.Refs() == old(ambient.Refs())
      ensures ambientChanged ==>
        forall id :: id in old(ambient.nodes) ==> id in ambient.nodes && Silent(ambient.nodes[id])
    {
      binaural.Rerun(binauralChanged, settings.binauralEnabled, isPlaying, settings.baseFreq, settings.beatFreq,
        settings.binauralVolume);
      ambient.Rerun(ambientChanged, ambientVolumeChanged, ambientTracks, settings.ambientEnabled, settings.ambientType,
        isPlaying, settings.ambientVolume, previousVolume);
    }

    /**
     * A render with new settings and playing flag: every effect one of whose
     * dependencies changed reruns, its previous cleanup, then its body. Each
     * effect's cleanup and body are taken together; the effects touch disjoint
     * state, so this ends in the same state as all cleanups before all bodies.
     * An effect whose dependencies did not change leaves its layer alone.
     */
    method Update(next: Settings, playing: bool)
      requires Valid()
      modifies this, binaural, ambient
      ensures Valid()
      ensures settings == next && isPlaying == playing
      ensures seconds == old(seconds) && configuredDuration == old(configuredDuration)
      ensures !BinauralDepsChanged(old(settings), old(isPlaying), next, playing) ==> unchanged(binaural)
      ensures BinauralDepsChanged(old(settings), old(isPlaying), next, playing) ==>
        forall id :: id in old(binaural.nodes) ==> id in binaural.nodes && Silent(binaural.nodes[id])
      ensures !AmbientDepsChanged(old(settings), old(isPlaying), next, playing) ==>
        ambient.nodes.Keys == old(ambient.nodes).Keys && ambient.Refs() == old(ambient.Refs())
      ensures AmbientDepsChanged(old(settings), old(isPlaying), next, playing) ==>
        forall id :: id in old(ambient.nodes) ==> id in ambient.nodes && Silent(ambient.nodes[id])
    {
      var binauralChanged := BinauralDepsChanged(settings, isPlaying, next, playing);
      var ambientChanged := AmbientDepsChanged(settings, isPlaying, next, playing);
      var masterChanged := settings.masterVolume != next.masterVolume;
      var ambientVolumeChanged := settings.ambientVolume != next.ambientVolume;
      var timerChanged := isPlaying != playing;
      ghost var previousVolume := settings.ambientVolume;
      settings, isPlaying := next, playing;
      RerunMaster(masterChanged);
      RerunLayers(binauralChanged, ambientChanged, ambientVolumeChanged, previousVolume);
      RerunTimer(timerChanged);
    }

    /** One firing of the countdown interval, which exists only while playing. */
    method Tick()
      requires Valid() && timerActive
      modifies this, binaural, ambient
      ensures Valid()
      ensures old(seconds) <= 0 ==> seconds == 0 && !isPlaying
      ensures old(seconds) > 0 ==> seconds == old(seconds) - 1 && isPlaying == old(isPlaying)
      ensures old(seconds) > 0 ==>
        unchanged(binaural) && unchanged(ambient) && master == old(master) && timerActive == old(timerActive)
      ensures settings == old(settings) && configuredDuration == old(configuredDuration)
    {
      var t := TickUpdate(seconds);
      seconds := t.next;
      if t.stop {
        Update(settings, false);
      }
    }

    /** The play/pause button: negates `isPlaying`, with no check on `seconds`. */
    method TogglePlayPause()
      requires Valid()
      modifies this, binaural, ambient
      ensures Valid()
      ensures isPlaying == !old(isPlaying)
      ensures seconds == old(seconds) && configuredDuration == old(configuredDuration) && settings == old(settings)
      ensures forall id :: id in old(binaural.nodes) ==> id in binaural.nodes && Silent(binaural.nodes[id])
      ensures forall id :: id in old(ambient.nodes) ==> id in ambient.nodes && Silent(ambient.nodes[id])
    {
      Update(settings, !isPlaying);
    }

    /** `resetTimer`: back to the configured duration, stopped, from any state. */
    method ResetTimer()
      requires Valid()
      modifies this, binaural, ambient
      ensures Valid()
      ensures seconds == configuredDuration && !isPlaying
      ensures configuredDuration == old(configuredDuration) && settings == old(settings)
    {
      seconds := configuredDuration;
      Update(settings, false);
    }

    /** `handleTimerDurationChange`: a new duration re-arms the counter and stops playback. */
    method HandleTimerDurationChange(newSeconds: int)
      requires Valid()
      modifies this, binaural, ambient
      ensures Valid()
      ensures configuredDuration == newSeconds && seconds == newSeconds && !isPlaying
      ensures settings == old(settings)
    {
      configuredDuration := newSeconds;
      seconds := newSeconds;
      Update(settings, false);
    }

    /** A control changed the settings (a frequency, a volume, an enabled flag, the selected track). */
    method ChangeSettings(next: Settings)
      requires Valid()
      modifies this, binaural, ambient
      ensures Valid()
      ensures settings == next
      ensures isPlaying == old(isPlaying) && seconds == old(seconds) && configuredDuration == old(configuredDuration)
      ensures !BinauralDepsChanged(old(settings), isPlaying, next, isPlaying) ==> binaural.nodes == old(binaural.nodes)
      ensures BinauralDepsChanged(old(settings), isPlaying, next, isPlaying) ==>
        forall id :: id in old(binaural.nodes) ==> id in binaural.nodes && Silent(binaural.nodes[id])
      ensures !AmbientDepsChanged(old(settings), isPlaying, next, isPlaying) ==>
        ambient.nodes.Keys == old(ambient.nodes).Keys && ambient.Refs() == old(ambient.Refs())
      ensures AmbientDepsChanged(old(settings), isPlaying, next, isPlaying) ==>
        forall id :: id in old(ambient.nodes) ==> id in ambient.nodes && Silent(ambient.nodes[id])
    {
      Update(next, isPlaying);
    }

    /** Unmount: close the context, then run the remaining cleanups in declaration order. */
    method Unmount()
      requires Valid()
      modifies this, binaural, ambient
      ensures !contextOpen && !timerActive
      ensures forall id :: id in binaural.nodes ==> binaural.nodes[id].phase != Started
      ensures SilentExcept(ambient.nodes, {})
    {
      contextOpen := false;
      binaural.Cleanup();
      ambient.Cleanup();
      TimerCleanup();
    }
  }

  /** Binaural nodes are audible iff binaural is enabled and the session plays, and then exactly the six referenced ones. */
  lemma BinauralSoundsIff(app: AudioApp)
    requires app.Valid()
    ensures Audible(app.binaural.nodes) != {} <==> app.settings.binauralEnabled && app.isPlaying
    ensures app.settings.binauralEnabled && app.isPlaying ==>
      Audible(app.binaural.nodes) == app.binaural.Refs().value.Ids()
  {
    var e := app.binaural;
    if app.settings.binauralEnabled && app.isPlaying {
      var r := e.Refs().value;
      Binaural.RunningSetIsAudible(e.nodes, r, app.settings.baseFreq, app.settings.beatFreq, app.settings.binauralVolume);
      assert r.leftOsc in r.Ids();
    } else {
      SilentLayer(e.nodes);
    }
  }

  /**
   * Ambient nodes are audible iff ambient is enabled, the session plays and the
   * selected name is a catalogue track; then exactly the three referenced nodes
   * are, and the element plays that track's file in a loop.
   */
  lemma AmbientSoundsIff(app: AudioApp)
    requires app.Valid()
    ensures var track := FindTrack(app.ambientTracks, app.settings.ambientType);
      (Audible(app.ambient.nodes) != {} <==> app.settings.ambientEnabled && app.isPlaying && track.Some?) &&
      (app.settings.ambientEnabled && app.isPlaying && track.Some? ==>
        Audible(app.ambient.nodes) == app.ambient.Refs().value.Ids() &&
        app.ambient.nodes[app.ambient.Refs().value.audio].kind == MediaElement(track.value.url, true))
  {
    var e := app.ambient;
    var track := FindTrack(app.ambientTracks, app.settings.ambientType);
    if app.settings.ambientEnabled && app.isPlaying && track.Some? {
      var a := e.Refs().value;
      Ambient.LiveChainIsAudible(e.nodes, a);
      assert a.audio in a.Ids();
    } else {
      SilentLayer(e.nodes);
    }
  }

  /** Between events at most one ambient element source is connected. */
  lemma AtMostOneAmbientSource(app: AudioApp)
    requires app.Valid()
    ensures forall s, t ::
      (s in app.ambient.nodes && t in app.ambient.nodes &&
       app.ambient.nodes[s].kind.MediaElementSource? && app.ambient.nodes[s].outputs != {} &&
       app.ambient.nodes[t].kind.MediaElementSource? && app.ambient.nodes[t].outputs != {}) ==> s == t
  {
    var e := app.ambient;
    if AmbientLive(e.nodes, e.Refs()) {
      Ambient.OneConnectedSource(e.nodes, e.Refs().value);
    }
  }
}
