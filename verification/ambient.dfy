/**
 * The ambient layer: one looping audio element for the selected track, wrapped
 * as a graph source and played through its own gain into master. This module
 * holds the shape of a playing chain, the build in its source order, and the
 * facts the effect relies on.
 */
module Ambient {
  import opened Wrappers
  import opened AudioGraph

  /** The ids held by the three ambient refs when a chain is playing. */
  datatype AmbientIds = AmbientIds(audio: NodeId, source: NodeId, gain: NodeId)
  {
    function Ids(): set<NodeId>
    {
      {audio, source, gain}
    }
  }

  /**
   * One chain is playing: the element was asked to play, its graph source feeds
   * the gain, the gain feeds master, and every other node of the layer is silent.
   */
  ghost predicate ChainLive(g: Layer, a: AmbientIds)
  {
    a.audio in g && a.source in g && a.gain in g &&
    g[a.audio].kind.MediaElement? && g[a.source].kind == MediaElementSource(a.audio) &&
    g[a.gain].kind == Gain &&
    g[a.audio].phase == Started && g[a.audio].outputs == {} &&
    g[a.source].phase == Unstarted && g[a.source].outputs == {ToNode(a.gain)} &&
    g[a.gain].phase == Unstarted && g[a.gain].outputs == {ToMaster} &&
    SilentExcept(g, a.Ids())
  }

  /** The ids one build allocates from `n`, in creation order. */
  function IdsFrom(n: NodeId): AmbientIds
  {
    AmbientIds(n, n + 1, n + 2)
  }

  /**
   * The three nodes one build leaves behind, allocated from id `n`: a looping
   * element for `url` asked to play, its source feeding a gain at the ambient
   * volume, the gain feeding master.
   */
  function Chain(n: NodeId, url: string, volume: int): Layer
  {
    map[n := Node(MediaElement(url, true), 0.0, Started, {}),
        n + 1 := Node(MediaElementSource(n), 0.0, Unstarted, {ToNode(n + 2)}),
        n + 2 := Node(Gain, Level(volume), Unstarted, {ToMaster})]
  }

  /**
   * The build: a looping element for the track, its graph source, a gain at the
   * ambient volume, `source -> gain -> master`, then `play()` requested.
   */
  method BuildChain(n: NodeId, url: string, ambientVolume: int) returns (g: Layer)
    ensures g == Chain(n, url, ambientVolume)
  {
    var audio, source, ambientGain := n, n + 1, n + 2;
    g := map[];
    g := Create(g, audio, MediaElement(url, false), 0.0);
    g := SetLoop(g, audio);
    g := Create(g, source, MediaElementSource(audio), 0.0);
    g := Create(g, ambientGain, Gain, DefaultGain);
    g := SetValue(g, ambientGain, Level(ambientVolume));
    g := Connect(g, source, ToNode(ambientGain));
    g := Connect(g, ambientGain, ToMaster);
    g := Start(g, audio);
    var target := Chain(n, url, ambientVolume);
    assert g.Keys == target.Keys;
    forall id | id in g
      ensures g[id] == target[id]
    {
      assert g[id].outputs == target[id].outputs;
    }
  }

  /** A chain added to a silent layer with fresh ids is the one live chain of the layer. */
  lemma {:induction false} ChainAddedIsLive(g0: Layer, n: NodeId, url: string, volume: int)
    requires forall id :: id in g0 ==> id < n
    requires SilentExcept(g0, {})
    ensures ChainLive(g0 + Chain(n, url, volume), IdsFrom(n))
    ensures IdsFrom(n).Ids() == Chain(n, url, volume).Keys
    ensures forall id :: id in Chain(n, url, volume) ==> n <= id < n + 3
  {
    var added := Chain(n, url, volume);
    assert added.Keys == {n, n + 1, n + 2};
    AddLiveNodes(g0, added);
  }

  /** A live chain is exactly the audible part of the layer. */
  lemma {:induction false} LiveChainIsAudible(g: Layer, a: AmbientIds)
    requires ChainLive(g, a)
    ensures Audible(g) == a.Ids()
  {
    forall id | id in a.Ids()
      ensures id in Audible(g)
    {
      assert !Silent(g[id]);
    }
  }

  /**
   * While a chain is live no other element source is connected: two tracks never
   * play into master at once.
   */
  lemma {:induction false} OneConnectedSource(g: Layer, a: AmbientIds)
    requires ChainLive(g, a)
    ensures forall s :: s in g && g[s].kind.MediaElementSource? && g[s].outputs != {} ==> s == a.source
  {
  }

  /** Each ref that is set names a node of the layer, the element ref an element. */
  predicate RefsIn(g: Layer, audio: Option<NodeId>, source: Option<NodeId>, gain: Option<NodeId>)
  {
    (audio.Some? ==> audio.value in g && g[audio.value].kind.MediaElement?) &&
    (source.Some? ==> source.value in g) &&
    (gain.Some? ==> gain.value in g)
  }

  /**
   * Nodes that may still sound before a teardown: only referenced ones, the
   * element without outgoing connections, source and gain not started.
   */
  ghost predicate Releasable(g: Layer, audio: Option<NodeId>, source: Option<NodeId>, gain: Option<NodeId>,
    live: set<NodeId>)
  {
    SilentExcept(g, live) &&
    forall id :: id in live ==>
      id in g &&
      ((audio == Some(id) && g[id].outputs == {}) ||
       (source == Some(id) && g[id].phase != Started) ||
       (gain == Some(id) && g[id].phase != Started))
  }

  /**
   * The effect cleanup on the layer: disconnect the source, disconnect the gain,
   * then pause the element and empty its `src`, each only when its ref is set.
   */
  function Release(g: Layer, audio: Option<NodeId>, source: Option<NodeId>, gain: Option<NodeId>): (r: Layer)
    requires RefsIn(g, audio, source, gain)
    ensures r.Keys == g.Keys
  {
    var g1 := if source.Some? then Disconnect(g, source.value) else g;
    var g2 := if gain.Some? then Disconnect(g1, gain.value) else g1;
    if audio.Some? then ClearSource(Pause(g2, audio.value), audio.value) else g2
  }

  /**
   * The teardown at the start of the effect body: pause the element, then
   * disconnect the source and the gain, each only when its ref is set.
   */
  function Quiet(g: Layer, audio: Option<NodeId>, source: Option<NodeId>, gain: Option<NodeId>): (r: Layer)
    requires RefsIn(g, audio, source, gain)
    ensures r.Keys == g.Keys
  {
    var g1 := if audio.Some? then Pause(g, audio.value) else g;
    var g2 := if source.Some? then Disconnect(g1, source.value) else g1;
    if gain.Some? then Disconnect(g2, gain.value) else g2
  }

  /** After the cleanup every node is silent, and the element has let go of its media. */
  lemma {:induction false} ReleaseSilences(g: Layer, audio: Option<NodeId>, source: Option<NodeId>,
    gain: Option<NodeId>, live: set<NodeId>)
    requires RefsIn(g, audio, source, gain) && Releasable(g, audio, source, gain, live)
    ensures SilentExcept(Release(g, audio, source, gain), {})
    ensures audio.Some? ==> Release(g, audio, source, gain)[audio.value].kind == MediaElement("", g[audio.value].kind.loop)
  {
  }

  /** After the teardown every node is silent. */
  lemma {:induction false} QuietSilences(g: Layer, audio: Option<NodeId>, source: Option<NodeId>,
    gain: Option<NodeId>, live: set<NodeId>)
    requires RefsIn(g, audio, source, gain) && Releasable(g, audio, source, gain, live)
    ensures SilentExcept(Quiet(g, audio, source, gain), {})
  {
  }
}
