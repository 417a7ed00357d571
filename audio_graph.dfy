/**
 * The audio-graph bookkeeping of src/resources/audio/AudioGraph.ts. A graph
 * node wraps one Web Audio unit (an opaque id here) and keeps two association
 * lists, `inbounds` and `outbounds`, which `connect` pushes to and
 * `disconnect` filters in place with lodash `remove`. The calls forwarded to
 * the underlying unit are recorded in a ghost log on the node that makes them.
 */
module AudioGraphs {

  /** An opaque Web Audio unit (`AudioNode`). */
  type UnitId = nat

  /** A call forwarded to the underlying unit: `node.connect(x)` or `node.disconnect(x)`. */
  datatype UnitCall = UnitConnect(target: UnitId) | UnitDisconnect(target: UnitId)

  /** lodash `remove(s, y => y === x)`: every occurrence of `x` goes, the rest keep their order. */
  function Without<T(==)>(s: seq<T>, x: T): (r: seq<T>)
    ensures |r| <= |s| && x !in r
    ensures forall i :: 0 <= i < |r| ==> r[i] in s
  {
    if s == [] then [] else if s[0] == x then Without(s[1..], x) else [s[0]] + Without(s[1..], x)
  }

  /** Every element other than `x` survives the removal. */
  lemma {:induction false} WithoutKeeps<T>(s: seq<T>, x: T, y: T)
    requires y in s && y != x
    ensures y in Without(s, x)
  {
    if s[0] != y {
      WithoutKeeps(s[1..], x, y);
    }
  }

  /** Removing an element that is not there changes nothing. */
  lemma {:induction false} WithoutAbsent<T>(s: seq<T>, x: T)
    requires x !in s
    ensures Without(s, x) == s
  {
    if s != [] {
      WithoutAbsent(s[1..], x);
    }
  }

  /** Removing `x` from `s + t` removes it from both parts. */
  lemma {:induction false} WithoutAppend<T>(s: seq<T>, t: seq<T>, x: T)
    ensures Without(s + t, x) == Without(s, x) + Without(t, x)
  {
    if s == [] {
      assert s + t == t;
    } else {
      assert (s + t)[1..] == s[1..] + t;
      WithoutAppend(s[1..], t, x);
    }
  }

  class AudioGraphNode {
    const node: UnitId
    var inbounds: seq<AudioGraphNode>
    var outbounds: seq<AudioGraphNode>
    ghost var unitCalls: seq<UnitCall>
    /**
     * How many `undefined` entries a `connect(undefined)` that then threw has
     * pushed onto `outbounds`; they are counted here, not stored in the list.
     */
    ghost var strays: nat

    /** A new node has no neighbours and has made no calls. */
    constructor (node: UnitId)
      ensures this.node == node
      ensures inbounds == [] && outbounds == [] && unitCalls == [] && strays == 0
    {
      this.node := node;
      inbounds := [];
      outbounds := [];
      unitCalls := [];
      strays := 0;
    }

    /**
     * `connect(graphNode)`: one entry is appended to each list, without
     * looking for an existing edge, and the unit is connected.
     */
    method Connect(graphNode: AudioGraphNode)
      modifies this, graphNode
      ensures outbounds == old(outbounds) + [graphNode]
      ensures graphNode.inbounds == old(graphNode.inbounds) + [this]
      ensures unitCalls == old(unitCalls) + [UnitConnect(graphNode.node)]
      ensures strays == old(strays) && graphNode.strays == old(graphNode.strays)
      ensures graphNode != this ==>
        inbounds == old(inbounds) && graphNode.outbounds == old(graphNode.outbounds) &&
        graphNode.unitCalls == old(graphNode.unitCalls)
    {
      outbounds := outbounds + [graphNode];
      graphNode.inbounds := graphNode.inbounds + [this];
      unitCalls := unitCalls + [UnitConnect(graphNode.node)];
    }

    /**
     * `disconnect(graphNode)`: every occurrence of `graphNode` leaves
     * `outbounds`, but the target's `inbounds` is filtered for entries equal
     * to the target itself, not to this node.
     */
    method Disconnect(graphNode: AudioGraphNode)
      modifies this, graphNode
      ensures outbounds == Without(old(outbounds), graphNode)
      ensures graphNode.inbounds == Without(old(graphNode.inbounds), graphNode)
      ensures unitCalls == old(unitCalls) + [UnitDisconnect(graphNode.node)]
      ensures strays == old(strays) && graphNode.strays == old(graphNode.strays)
      ensures graphNode != this ==>
        inbounds == old(inbounds) && graphNode.outbounds == old(graphNode.outbounds) &&
        graphNode.unitCalls == old(graphNode.unitCalls)
    {
      outbounds := Without(outbounds, graphNode);
      graphNode.inbounds := Without(graphNode.inbounds, graphNode);
      unitCalls := unitCalls + [UnitDisconnect(graphNode.node)];
    }

    /**
     * `connect(undefined)`: `outbounds.push(undefined)` runs, then reading
     * `undefined.inbounds` throws, so one stray entry is left behind and
     * nothing else happens.
     */
    method ConnectUndefined()
      modifies this
      ensures strays == old(strays) + 1
      ensures inbounds == old(inbounds) && outbounds == old(outbounds) && unitCalls == old(unitCalls)
    {
      strays := strays + 1;
    }
  }

  /**
   * Connecting then disconnecting two distinct nodes restores `a.outbounds`
   * but leaves `a` listed in `b.inbounds`.
   */
  method ConnectThenDisconnect(a: AudioGraphNode, b: AudioGraphNode)
    requires a != b && b !in a.outbounds && b !in b.inbounds
    modifies a, b
    ensures a.outbounds == old(a.outbounds) && a.inbounds == old(a.inbounds)
    ensures b.inbounds == old(b.inbounds) + [a] && b.outbounds == old(b.outbounds)
  {
    a.Connect(b);
    a.Disconnect(b);
    WithoutAppend(old(a.outbounds), [b], b);
    WithoutAbsent(old(a.outbounds), b);
    WithoutAbsent(old(b.inbounds) + [a], b);
  }

  /** `AudioGraph`: an input (source) node connected directly to an output (destination) node. */
  class AudioGraph {
    const inputNode: AudioGraphNode
    const outputNode: AudioGraphNode

    constructor (input: UnitId, output: UnitId)
      ensures fresh(inputNode) && fresh(outputNode) && inputNode != outputNode
      ensures inputNode.node == input && outputNode.node == output
      ensures inputNode.outbounds == [outputNode] && inputNode.inbounds == []
      ensures outputNode.inbounds == [inputNode] && outputNode.outbounds == []
      ensures inputNode.unitCalls == [UnitConnect(output)] && outputNode.unitCalls == []
      ensures inputNode.strays == 0 && outputNode.strays == 0
    {
      var i := new AudioGraphNode(input);
      var o := new AudioGraphNode(output);
      i.Connect(o);
      inputNode, outputNode := i, o;
    }

    /** The `input` getter. */
    function Input(): AudioGraphNode {
      inputNode
    }

    /** The `output` getter. */
    function Output(): AudioGraphNode {
      outputNode
    }
  }

  /**
   * The getters of a new graph return the nodes its constructor created:
   * two distinct nodes for the given units, the input feeding the output.
   */
  method NewAudioGraph(input: UnitId, output: UnitId) returns (g: AudioGraph)
    ensures g.Input() != g.Output()
    ensures g.Input().node == input && g.Output().node == output
    ensures g.Input().outbounds == [g.Output()] && g.Input().inbounds == []
    ensures g.Output().inbounds == [g.Input()] && g.Output().outbounds == []
  {
    g := new AudioGraph(input, output);
  }
}
