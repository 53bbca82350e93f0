/**
 * Web Audio nodes as abstract records. A node has a kind, one adjustable
 * parameter (an oscillator's frequency, a gain's gain, a panner's pan), a
 * playback phase and the set of places its output is connected to. The nodes of
 * one sound layer live in a map from node ids; edges lead to another node of the
 * same layer, to the master gain, or to the output device.
 */
module AudioGraph {

  type NodeId = nat

  /** Where a node's output is connected. */
  datatype Endpoint = ToNode(id: NodeId) | ToMaster | ToDestination

  datatype Kind =
    | Oscillator
    | Gain
    | StereoPanner
    /** The graph source wrapping an audio element. */
    | MediaElementSource(element: NodeId)
    /** An `Audio` element playing `src`, looping when `loop` is set. */
    | MediaElement(src: string, loop: bool)

  /**
   * For an oscillator: before `start()`, after `start()`, after `stop()`.
   * For an audio element: before `play()`, after `play()`, after `pause()`.
   * Gains and panners stay `Unstarted`.
   */
  datatype Phase = Unstarted | Started | Stopped

  datatype Node = Node(kind: Kind, value: real, phase: Phase, outputs: set<Endpoint>)

  /** The nodes of one sound layer. */
  type Layer = map<NodeId, Node>

  /** Default parameter values of freshly created nodes. */
  const DefaultFrequency: real := 440.0
  const DefaultGain: real := 1.0
  const DefaultPan: real := 0.0

  /** A percentage control value as a gain: `percent / 100`. */
  function Level(percent: int): real
  {
    percent as real / 100.0
  }

  /** A node as `ctx.createX()` returns it: unconnected, not started. */
  function Fresh(kind: Kind, value: real): Node
  {
    Node(kind, value, Unstarted, {})
  }

  /** A node that produces nothing and feeds nothing. */
  predicate Silent(n: Node)
  {
    n.outputs == {} && n.phase != Started
  }

  /** Every node outside `live` is silent. */
  ghost predicate SilentExcept(g: Layer, live: set<NodeId>)
  {
    forall id :: id in g && id !in live ==> Silent(g[id])
  }

  /** The nodes of a layer that are playing or connected. */
  ghost function Audible(g: Layer): set<NodeId>
  {
    set id | id in g && !Silent(g[id])
  }

  /** `ctx.createX()` / `new Audio(src)`: a new, unconnected, unstarted node. */
  function Create(g: Layer, id: NodeId, kind: Kind, value: real): Layer
    requires id !in g
  {
    g[id := Node(kind, value, Unstarted, {})]
  }

  /** Assigning the node's parameter (`frequency.value`, `gain.value`, `pan.value`). */
  function SetValue(g: Layer, id: NodeId, value: real): (r: Layer)
    requires id in g
    ensures r.Keys == g.Keys
  {
    g[id := g[id].(value := value)]
  }

  /** `a.connect(e)`: adds an outgoing connection. */
  function Connect(g: Layer, a: NodeId, e: Endpoint): (r: Layer)
    requires a in g
    ensures r.Keys == g.Keys
  {
    g[a := g[a].(outputs := g[a].outputs + {e})]
  }

  /** `a.disconnect()` without arguments: drops every outgoing connection. */
  function Disconnect(g: Layer, a: NodeId): (r: Layer)
    requires a in g
    ensures r.Keys == g.Keys
  {
    g[a := g[a].(outputs := {})]
  }

  /** `osc.start()` / `audio.play()`; an oscillator may be started only once. */
  function Start(g: Layer, a: NodeId): (r: Layer)
    requires a in g && g[a].phase == Unstarted
    ensures r.Keys == g.Keys
  {
    g[a := g[a].(phase := Started)]
  }

  /** `osc.stop()`, legal once the oscillator has been started (repeating it is harmless). */
  function Stop(g: Layer, a: NodeId): (r: Layer)
    requires a in g && g[a].phase != Unstarted
    ensures r.Keys == g.Keys
  {
    g[a := g[a].(phase := Stopped)]
  }

  /** `audio.pause()`. */
  function Pause(g: Layer, a: NodeId): (r: Layer)
    requires a in g
    ensures r.Keys == g.Keys
  {
    g[a := g[a].(phase := Stopped)]
  }

  /** `audio.loop = true`. */
  function SetLoop(g: Layer, a: NodeId): (r: Layer)
    requires a in g && g[a].kind.MediaElement?
    ensures r.Keys == g.Keys
  {
    g[a := g[a].(kind := MediaElement(g[a].kind.src, true))]
  }

  /** `audio.src = ""`: the element lets go of its media. */
  function ClearSource(g: Layer, a: NodeId): (r: Layer)
    requires a in g && g[a].kind.MediaElement?
    ensures r.Keys == g.Keys
  {
    g[a := g[a].(kind := MediaElement("", g[a].kind.loop))]
  }

  /** Adding nodes to a silent layer: only the added nodes can be audible. */
  lemma AddLiveNodes(g: Layer, added: Layer)
    requires SilentExcept(g, {})
    ensures SilentExcept(g + added, added.Keys)
  {
  }

  /** A layer in which every node is silent has no audible node. */
  lemma SilentLayer(g: Layer)
    requires SilentExcept(g, {})
    ensures Audible(g) == {}
  {
  }

  /** Disconnecting a node that is not running silences it and leaves every other node as it was. */
  lemma DisconnectSilences(g: Layer, live: set<NodeId>, a: NodeId)
    requires SilentExcept(g, live) && a in g
    requires a in live ==> g[a].phase != Started
    ensures SilentExcept(Disconnect(g, a), live - {a})
  {
  }
}
