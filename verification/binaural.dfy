/**
 * The binaural layer: two oscillators a beat frequency apart, each through its
 * own gain and a hard-panned stereo panner into master. This module holds the
 * shape a layer may have between effect runs, the build in its source order, and
 * what the cleanup and the teardown leave behind.
 */
module Binaural {
  import opened Wrappers
  import opened AudioGraph

  /** Pan positions of the two channels: full left and full right. */
  const PanLeft: real := -1.0
  const PanRight: real := 1.0

  /** The ids held by the six binaural refs. */
  datatype BinauralIds = BinauralIds(
    leftOsc: NodeId, rightOsc: NodeId,
    leftGain: NodeId, rightGain: NodeId,
    pannerLeft: NodeId, pannerRight: NodeId)
  {
    function Ids(): set<NodeId>
    {
      {leftOsc, rightOsc, leftGain, rightGain, pannerLeft, pannerRight}
    }
  }

  /** Exactly the chain `osc -> gain -> panner -> master`. */
  ghost predicate ChainWired(g: Layer, o: NodeId, gain: NodeId, p: NodeId)
  {
    o in g && gain in g && p in g &&
    g[o].outputs == {ToNode(gain)} && g[gain].outputs == {ToNode(p)} && g[p].outputs == {ToMaster}
  }

  /**
   * The referenced six nodes: two oscillators, two gains, two panners. The
   * oscillators have been started (so `stop()` on them is legal); they run
   * together, a running oscillator has its whole chain wired, and a stopped one
   * is disconnected.
   */
  ghost predicate SetShape(g: Layer, r: BinauralIds)
  {
    r.leftOsc in g && r.rightOsc in g && r.leftGain in g &&
    r.rightGain in g && r.pannerLeft in g && r.pannerRight in g &&
    g[r.leftOsc].kind == Oscillator && g[r.rightOsc].kind == Oscillator &&
    g[r.leftGain].kind == Gain && g[r.rightGain].kind == Gain &&
    g[r.pannerLeft].kind == StereoPanner && g[r.pannerRight].kind == StereoPanner &&
    r.leftOsc != r.rightOsc && r.leftGain != r.rightGain && r.pannerLeft != r.pannerRight &&
    g[r.leftGain].phase == Unstarted && g[r.rightGain].phase == Unstarted &&
    g[r.pannerLeft].phase == Unstarted && g[r.pannerRight].phase == Unstarted &&
    g[r.leftOsc].phase != Unstarted && g[r.rightOsc].phase != Unstarted &&
    (g[r.leftOsc].phase == Started <==> g[r.rightOsc].phase == Started) &&
    (g[r.leftOsc].phase == Started ==>
      ChainWired(g, r.leftOsc, r.leftGain, r.pannerLeft) && ChainWired(g, r.rightOsc, r.rightGain, r.pannerRight)) &&
    (g[r.leftOsc].phase != Started ==> g[r.leftOsc].outputs == {} && g[r.rightOsc].outputs == {})
  }

  /**
   * The layer between effect runs: with no refs every node is silent; with refs,
   * the referenced set has its shape and every other node is silent.
   */
  ghost predicate Consistent(g: Layer, refs: Option<BinauralIds>)
  {
    match refs
    case None => SilentExcept(g, {})
    case Some(r) => SetShape(g, r) && SilentExcept(g, r.Ids())
  }

  /** The referenced set is running with the given frequencies and volume, panned hard left and right. */
  ghost predicate RunningAs(g: Layer, r: BinauralIds, baseFreq: int, beatFreq: int, volume: int)
  {
    SetShape(g, r) &&
    g[r.leftOsc].phase == Started &&
    g[r.leftOsc].value == baseFreq as real &&
    g[r.rightOsc].value == (baseFreq + beatFreq) as real &&
    g[r.leftGain].value == Level(volume) && g[r.rightGain].value == Level(volume) &&
    g[r.pannerLeft].value == PanLeft && g[r.pannerRight].value == PanRight
  }

  /** The ids one build allocates from `n`, in creation order. */
  function IdsFrom(n: NodeId): BinauralIds
  {
    BinauralIds(n, n + 1, n + 2, n + 3, n + 4, n + 5)
  }

  /** Six nodes under the consecutive ids `n` .. `n + 5`. */
  function Six(n: NodeId, a: Node, b: Node, c: Node, d: Node, e: Node, f: Node): Layer
  {
    map[n := a, n + 1 := b, n + 2 := c, n + 3 := d, n + 4 := e, n + 5 := f]
  }

  /**
   * The six nodes of one wired set allocated from id `n`: two oscillators (in
   * phase `oscillators`) at the base and the base-plus-beat frequency, each
   * feeding a gain at the binaural volume, each feeding a panner hard left or hard
   * right, each panner feeding master.
   */
  function WiredSet(n: NodeId, baseFreq: int, beatFreq: int, volume: int, oscillators: Phase): Layer
  {
    Six(n,
      Node(Oscillator, baseFreq as real, oscillators, {ToNode(n + 2)}),
      Node(Oscillator, (baseFreq + beatFreq) as real, oscillators, {ToNode(n + 3)}),
      Node(Gain, Level(volume), Unstarted, {ToNode(n + 4)}),
      Node(Gain, Level(volume), Unstarted, {ToNode(n + 5)}),
      Node(StereoPanner, PanLeft, Unstarted, {ToMaster}),
      Node(StereoPanner, PanRight, Unstarted, {ToMaster}))
  }

  /** What one build leaves behind: the wired set with both oscillators started. */
  function BinauralSet(n: NodeId, baseFreq: int, beatFreq: int, volume: int): Layer
  {
    WiredSet(n, baseFreq, beatFreq, volume, Started)
  }

  /** The build's first step: both oscillators, both gains, both panners, at their defaults. */
  method CreateNodes(n: NodeId) returns (g: Layer)
    ensures g == Six(n, Fresh(Oscillator, DefaultFrequency), Fresh(Oscillator, DefaultFrequency),
      Fresh(Gain, DefaultGain), Fresh(Gain, DefaultGain),
      Fresh(StereoPanner, DefaultPan), Fresh(StereoPanner, DefaultPan))
  {
    var leftOsc, rightOsc, leftGain, rightGain, pannerLeft, pannerRight := n, n + 1, n + 2, n + 3, n + 4, n + 5;
    g := map[];
    g := Create(g, leftOsc, Oscillator, DefaultFrequency);
    g := Create(g, rightOsc, Oscillator, DefaultFrequency);
    g := Create(g, leftGain, Gain, DefaultGain);
    g := Create(g, rightGain, Gain, DefaultGain);
    g := Create(g, pannerLeft, StereoPanner, DefaultPan);
    g := Create(g, pannerRight, StereoPanner, DefaultPan);
  }

  /** The build's second step: frequencies, then volumes, then pans. */
  method ConfigureNodes(g0: Layer, n: NodeId, baseFreq: int, beatFreq: int, binauralVolume: int) returns (g: Layer)
    requires g0 == Six(n, Fresh(Oscillator, DefaultFrequency), Fresh(Oscillator, DefaultFrequency),
      Fresh(Gain, DefaultGain), Fresh(Gain, DefaultGain),
      Fresh(StereoPanner, DefaultPan), Fresh(StereoPanner, DefaultPan))
    ensures g == Six(n, Fresh(Oscillator, baseFreq as real), Fresh(Oscillator, (baseFreq + beatFreq) as real),
      Fresh(Gain, Level(binauralVolume)), Fresh(Gain, Level(binauralVolume)),
      Fresh(StereoPanner, PanLeft), Fresh(StereoPanner, PanRight))
  {
    var leftOsc, rightOsc, leftGain, rightGain, pannerLeft, pannerRight := n, n + 1, n + 2, n + 3, n + 4, n + 5;
    g := g0;
    g := SetValue(g, leftOsc, baseFreq as real);
    g := SetValue(g, rightOsc, (baseFreq + beatFreq) as real);
    var volume := Level(binauralVolume);
    g := SetValue(g, leftGain, volume);
    g := SetValue(g, rightGain, volume);
    g := SetValue(g, pannerLeft, PanLeft);
    g := SetValue(g, pannerRight, PanRight);
  }

  /** The build's third step: `osc -> gain -> panner -> master` on the left, then on the right. */
  method WireNodes(g0: Layer, n: NodeId, baseFreq: int, beatFreq: int, binauralVolume: int) returns (g: Layer)
    requires g0 == Six(n, Fresh(Oscillator, baseFreq as real), Fresh(Oscillator, (baseFreq + beatFreq) as real),
      Fresh(Gain, Level(binauralVolume)), Fresh(Gain, Level(binauralVolume)),
      Fresh(StereoPanner, PanLeft), Fresh(StereoPanner, PanRight))
    ensures g == WiredSet(n, baseFreq, beatFreq, binauralVolume, Unstarted)
  {
    var leftOsc, rightOsc, leftGain, rightGain, pannerLeft, pannerRight := n, n + 1, n + 2, n + 3, n + 4, n + 5;
    g := g0;
    g := Connect(g, leftOsc, ToNode(leftGain));
    g := Connect(g, leftGain, ToNode(pannerLeft));
    g := Connect(g, pannerLeft, ToMaster);
    g := Connect(g, rightOsc, ToNode(rightGain));
    g := Connect(g, rightGain, ToNode(pannerRight));
    g := Connect(g, pannerRight, ToMaster);
    var target := WiredSet(n, baseFreq, beatFreq, binauralVolume, Unstarted);
    assert g.Keys == target.Keys;
    forall id | id in g
      ensures g[id] == target[id]
    {
      assert g[id].outputs == target[id].outputs;
    }
  }

  /** The build's last step, once every connection exists: start the left, then the right oscillator. */
  method StartOscillators(g0: Layer, n: NodeId, baseFreq: int, beatFreq: int, binauralVolume: int) returns (g: Layer)
    requires g0 == WiredSet(n, baseFreq, beatFreq, binauralVolume, Unstarted)
    ensures g == BinauralSet(n, baseFreq, beatFreq, binauralVolume)
  {
    g := Start(g0, n);
    g := Start(g, n + 1);
  }

  /**
   * A build added to a silent layer with fresh ids yields a consistent layer whose
   * referenced set runs as configured, and the new refs are exactly the new nodes.
   */
  lemma {:induction false} BuiltSetRuns(g0: Layer, n: NodeId, baseFreq: int, beatFreq: int, volume: int)
    requires forall id :: id in g0 ==> id < n
    requires SilentExcept(g0, {})
    ensures var g := g0 + BinauralSet(n, baseFreq, beatFreq, volume);
      Consistent(g, Some(IdsFrom(n))) && RunningAs(g, IdsFrom(n), baseFreq, beatFreq, volume)
    ensures IdsFrom(n).Ids() == BinauralSet(n, baseFreq, beatFreq, volume).Keys
    ensures forall id :: id in BinauralSet(n, baseFreq, beatFreq, volume) ==> n <= id < n + 6
  {
    var added := BinauralSet(n, baseFreq, beatFreq, volume);
    var g := g0 + added;
    assert added.Keys == {n, n + 1, n + 2, n + 3, n + 4, n + 5};
    AddLiveNodes(g0, added);
    assert ChainWired(g, n, n + 2, n + 4) && ChainWired(g, n + 1, n + 3, n + 5);
  }

  /** The effect's cleanup on a referenced set: stop and disconnect the left, then the right oscillator. */
  function StopBoth(g: Layer, r: BinauralIds): Layer
    requires SetShape(g, r)
  {
    var g1 := Disconnect(Stop(g, r.leftOsc), r.leftOsc);
    Disconnect(Stop(g1, r.rightOsc), r.rightOsc)
  }

  /**
   * The cleanup keeps the layer consistent, leaves no node running and changes
   * nothing but the two oscillators.
   */
  lemma {:induction false} StopBothKeepsLayer(g: Layer, r: BinauralIds)
    requires Consistent(g, Some(r))
    ensures var g' := StopBoth(g, r);
      Consistent(g', Some(r)) && g'.Keys == g.Keys &&
      (forall id :: id in g' ==> g'[id].phase != Started) &&
      (forall id :: id in g' && id != r.leftOsc && id != r.rightOsc ==> g'[id] == g[id])
  {
    var g' := StopBoth(g, r);
    assert g'[r.leftOsc].phase == Stopped && g'[r.rightOsc].phase == Stopped;
    assert g'[r.leftOsc].outputs == {} && g'[r.rightOsc].outputs == {};
    forall id | id in g'
      ensures g'[id].phase != Started
    {
      if id !in r.Ids() {
        assert Silent(g[id]);
      }
    }
  }

  /** The rest of the body's teardown on a referenced set: disconnect both gains, then both panners. */
  function DisconnectRest(g: Layer, r: BinauralIds): Layer
    requires SetShape(g, r)
  {
    var g1 := Disconnect(Disconnect(g, r.leftGain), r.rightGain);
    Disconnect(Disconnect(g1, r.pannerLeft), r.pannerRight)
  }

  /** Disconnecting a gain or panner of a stopped set keeps the set's shape. */
  lemma {:induction false} DisconnectKeepsShape(g: Layer, r: BinauralIds, a: NodeId)
    requires SetShape(g, r) && g[r.leftOsc].phase != Started
    requires a in g && a != r.leftOsc && a != r.rightOsc
    ensures SetShape(Disconnect(g, a), r)
    ensures Disconnect(g, a)[r.leftOsc] == g[r.leftOsc]
  {
  }

  /**
   * Once the oscillators are stopped, disconnecting the gains and panners keeps
   * the set's shape and leaves every node of the layer silent.
   */
  lemma {:induction false} DisconnectRestSilences(g: Layer, r: BinauralIds)
    requires Consistent(g, Some(r)) && g[r.leftOsc].phase != Started
    ensures Consistent(DisconnectRest(g, r), Some(r))
    ensures SilentExcept(DisconnectRest(g, r), {})
  {
    var g1 := Disconnect(g, r.leftGain);
    var g2 := Disconnect(g1, r.rightGain);
    var g3 := Disconnect(g2, r.pannerLeft);
    DisconnectKeepsShape(g, r, r.leftGain);
    DisconnectKeepsShape(g1, r, r.rightGain);
    DisconnectKeepsShape(g2, r, r.pannerLeft);
    DisconnectKeepsShape(g3, r, r.pannerRight);
    var live := {r.leftGain, r.rightGain, r.pannerLeft, r.pannerRight};
    assert SilentExcept(g, live) by {
      assert Silent(g[r.leftOsc]) && Silent(g[r.rightOsc]);
    }
    DisconnectSilences(g, live, r.leftGain);
    DisconnectSilences(g1, live - {r.leftGain}, r.rightGain);
    DisconnectSilences(g2, live - {r.leftGain} - {r.rightGain}, r.pannerLeft);
    DisconnectSilences(g3, live - {r.leftGain} - {r.rightGain} - {r.pannerLeft}, r.pannerRight);
    assert live - {r.leftGain} - {r.rightGain} - {r.pannerLeft} - {r.pannerRight} == {};
  }

  /** A running, consistent set is exactly the audible part of the layer. */
  lemma {:induction false} RunningSetIsAudible(g: Layer, r: BinauralIds, baseFreq: int, beatFreq: int, volume: int)
    requires Consistent(g, Some(r)) && RunningAs(g, r, baseFreq, beatFreq, volume)
    ensures Audible(g) == r.Ids()
  {
    assert ChainWired(g, r.leftOsc, r.leftGain, r.pannerLeft);
    assert ChainWired(g, r.rightOsc, r.rightGain, r.pannerRight);
    forall id | id in r.Ids()
      ensures id in Audible(g)
    {
      assert !Silent(g[id]);
    }
  }
}
