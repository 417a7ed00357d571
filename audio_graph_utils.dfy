/**
 * The graph rewiring helpers of src/resources/audio/AudioGraphUtils.ts,
 * built on `AudioGraphNode.Connect`/`Disconnect`. `removeNode` walks
 * `node.inbounds` and `node.outbounds` with `forEach` while the callbacks
 * filter those very arrays in place; the loops below follow `forEach`'s
 * rule that the length is fixed up front and an index past the current end
 * is skipped.
 */
module AudioGraphUtils {
  import opened Wrappers
  import opened AudioGraphs

  /** The optional `newConnection` argument of `removeNode`: indices into `inbounds` and `outbounds`. */
  datatype NewConnection = NewConnection(inbound: int, outbound: int)

  /** `insertNodeBetween(node, a, b)`: disconnect a from b, then connect a to node and node to b. */
  method InsertNodeBetween(node: AudioGraphNode, a: AudioGraphNode, b: AudioGraphNode) returns (r: AudioGraphNode)
    modifies node, a, b
    ensures r == node
    ensures |node.outbounds| > 0 && node.outbounds[|node.outbounds| - 1] == b
    ensures |b.inbounds| > 0 && b.inbounds[|b.inbounds| - 1] == node
    ensures b != node ==> |node.inbounds| > 0 && node.inbounds[|node.inbounds| - 1] == a
    ensures node != a && node != b && a != b ==>
      a.outbounds == Without(old(a.outbounds), b) + [node] && a.inbounds == old(a.inbounds) &&
      node.inbounds == old(node.inbounds) + [a] && node.outbounds == old(node.outbounds) + [b] &&
      b.inbounds == Without(old(b.inbounds), b) + [node] && b.outbounds == old(b.outbounds)
    // the units: `a` is disconnected from `b` and connected to `node`, which is connected to `b`
    ensures node != a && node != b && a != b ==>
      a.unitCalls == old(a.unitCalls) + [UnitDisconnect(b.node), UnitConnect(node.node)] &&
      node.unitCalls == old(node.unitCalls) + [UnitConnect(b.node)] && b.unitCalls == old(b.unitCalls)
    ensures a.strays == old(a.strays) && node.strays == old(node.strays) && b.strays == old(b.strays)
  {
    a.Disconnect(b);
    a.Connect(node);
    node.Connect(b);
    r := node;
  }

  /**
   * What `s.forEach(x => remove(s, y => y === x))` leaves in `s`, from index
   * `k` on, when `forEach` was started on an array of length `len`.
   */
  function ForEachDisconnect<T(==)>(s: seq<T>, k: nat, len: nat): seq<T>
    decreases len - k
  {
    if k < len && k < |s| then ForEachDisconnect(Without(s, s[k]), k + 1, len) else s
  }

  /**
   * The elements the callback of that same `forEach` is called with, in
   * order: the entry found at each index while the array shrinks.
   */
  function ForEachVisited<T(==)>(s: seq<T>, k: nat, len: nat): (r: seq<T>)
    ensures forall i :: 0 <= i < |r| ==> r[i] in s
    decreases len - k
  {
    if k < len && k < |s| then [s[k]] + ForEachVisited(Without(s, s[k]), k + 1, len) else []
  }

  /** The elements at even positions: s[0], s[2], ... */
  function Evens<T>(s: seq<T>): (r: seq<T>)
    ensures |r| == (|s| + 1) / 2
    ensures forall i :: 0 <= i < |r| ==> r[i] == s[2 * i]
  {
    seq((|s| + 1) / 2, i requires 0 <= i < (|s| + 1) / 2 => s[2 * i])
  }

  /** The elements at odd positions: s[1], s[3], ... */
  function Odds<T>(s: seq<T>): (r: seq<T>)
    ensures |r| == |s| / 2
    ensures forall i :: 0 <= i < |r| ==> r[i] == s[2 * i + 1]
  {
    seq(|s| / 2, i requires 0 <= i < |s| / 2 => s[2 * i + 1])
  }

  ghost predicate Distinct<T>(s: seq<T>) {
    forall i, j :: 0 <= i < j < |s| ==> s[i] != s[j]
  }

  /** Removing `x` from the one-element sequence `[x]` leaves nothing. */
  lemma WithoutSingleton<T>(x: T)
    ensures Without([x], x) == []
  {
  }

  /** Removing the only occurrence of `x` from `a + [x] + b`. */
  lemma WithoutMiddle<T>(a: seq<T>, x: T, b: seq<T>)
    requires x !in a && x !in b
    ensures Without(a + [x] + b, x) == a + b
  {
    WithoutAppend(a + [x], b, x);
    var left := Without(a + [x], x);
    assert left == a by {
      WithoutAppend(a, [x], x);
      WithoutAbsent(a, x);
      WithoutSingleton(x);
    }
    WithoutAbsent(b, x);
  }

  /** Two more elements of the prefix add one odd element. */
  lemma OddsPrefixGrows<T>(s: seq<T>, k: nat)
    requires 2 * k + 2 <= |s|
    ensures Odds(s[..2 * (k + 1)]) == Odds(s[..2 * k]) + [s[2 * k + 1]]
  {
  }

  /** A prefix that misses at most the last element has all the odd elements. */
  lemma OddsPrefixFull<T>(s: seq<T>, k: nat)
    requires 2 * k == |s| || 2 * k + 1 == |s|
    ensures Odds(s[..2 * k]) == Odds(s)
  {
  }

  /** With distinct elements, `s[2k]` occurs neither among the earlier odd elements nor later. */
  lemma EvenElementUnique<T>(s: seq<T>, k: nat)
    requires Distinct(s) && 2 * k < |s|
    ensures s[2 * k] !in Odds(s[..2 * k]) && s[2 * k] !in s[2 * k + 1..]
  {
    var x := s[2 * k];
    forall i | 0 <= i < k ensures Odds(s[..2 * k])[i] != x {
      assert Odds(s[..2 * k])[i] == s[2 * i + 1];
    }
    forall i | 2 * k + 1 <= i < |s| ensures s[i] != x {
    }
  }

  /** Visiting position `k` of the walk removes `s[2k]`, the element found there. */
  lemma ForEachSkip<T>(s: seq<T>, k: nat)
    requires Distinct(s) && 2 * k < |s|
    ensures ForEachDisconnect(Odds(s[..2 * k]) + s[2 * k..], k, |s|) == ForEachDisconnect(Odds(s[..2 * k]) + s[2 * k + 1..], k + 1, |s|)
  {
    var done := Odds(s[..2 * k]);
    var x, rest := s[2 * k], s[2 * k + 1..];
    var cur := done + s[2 * k..];
    assert cur == done + [x] + rest;
    assert cur[k] == x;
    EvenElementUnique(s, k);
    WithoutMiddle(done, x, rest);
  }

  /** After visiting position `k`, the walk is at the same point for `k + 1`. */
  lemma ForEachRegroup<T>(s: seq<T>, k: nat)
    requires 2 * k + 2 <= |s|
    ensures Odds(s[..2 * k]) + s[2 * k + 1..] == Odds(s[..2 * (k + 1)]) + s[2 * (k + 1)..]
  {
    OddsPrefixGrows(s, k);
    assert s[2 * k + 1..] == [s[2 * k + 1]] + s[2 * (k + 1)..];
  }

  /** The step of the removal walk: after `k` steps the odd elements seen so far are followed by the untouched rest. */
  lemma {:induction false} ForEachDisconnectStep<T>(s: seq<T>, k: nat)
    requires Distinct(s) && 2 * k <= |s|
    ensures ForEachDisconnect(Odds(s[..2 * k]) + s[2 * k..], k, |s|) == Odds(s)
    decreases |s| - 2 * k
  {
    if 2 * k == |s| {
      assert Odds(s[..2 * k]) + s[2 * k..] == Odds(s) by {
        OddsPrefixFull(s, k);
      }
    } else {
      ForEachSkip(s, k);
      if 2 * k + 1 == |s| {
        assert Odds(s[..2 * k]) + s[2 * k + 1..] == Odds(s) by {
          OddsPrefixFull(s, k);
        }
      } else {
        ForEachRegroup(s, k);
        ForEachDisconnectStep(s, k + 1);
      }
    }
  }

  /**
   * Removing entries of `node.outbounds` inside its own `forEach` skips every
   * other neighbour: with distinct neighbours only those at even positions
   * are disconnected and those at odd positions stay.
   */
  lemma ForEachDisconnectKeepsOdds<T>(s: seq<T>)
    requires Distinct(s)
    ensures ForEachDisconnect(s, 0, |s|) == Odds(s)
  {
    assert Odds(s[..0]) + s[0..] == s;
    ForEachDisconnectStep(s, 0);
  }

  /** At step `k` the walk finds `s[2k]` and removing it leaves the odd elements seen so far and the rest. */
  lemma VisitRemoves<T>(s: seq<T>, k: nat)
    requires Distinct(s) && 2 * k < |s|
    ensures (Odds(s[..2 * k]) + s[2 * k..])[k] == s[2 * k]
    ensures Without(Odds(s[..2 * k]) + s[2 * k..], s[2 * k]) == Odds(s[..2 * k]) + s[2 * k + 1..]
  {
    var done := Odds(s[..2 * k]);
    assert done + s[2 * k..] == done + [s[2 * k]] + s[2 * k + 1..];
    EvenElementUnique(s, k);
    WithoutMiddle(done, s[2 * k], s[2 * k + 1..]);
  }

  /** The even elements from position `2k` on start with `s[2k]`. */
  lemma EvensStep<T>(s: seq<T>, k: nat)
    requires 2 * k + 2 <= |s|
    ensures Evens(s[2 * k..]) == [s[2 * k]] + Evens(s[2 * (k + 1)..])
  {
  }

  /** The walk from step `k` on visits the even elements from position `2k` on. */
  lemma {:induction false} ForEachVisitedStep<T>(s: seq<T>, k: nat)
    requires Distinct(s) && 2 * k <= |s|
    ensures ForEachVisited(Odds(s[..2 * k]) + s[2 * k..], k, |s|) == Evens(s[2 * k..])
    decreases |s| - 2 * k
  {
    if 2 * k < |s| {
      VisitRemoves(s, k);
      var next := Odds(s[..2 * k]) + s[2 * k + 1..];
      assert ForEachVisited(Odds(s[..2 * k]) + s[2 * k..], k, |s|) == [s[2 * k]] + ForEachVisited(next, k + 1, |s|);
      if 2 * k + 1 == |s| {
        assert ForEachVisited(next, k + 1, |s|) == [];
        assert Evens(s[2 * k..]) == [s[2 * k]];
      } else {
        ForEachRegroup(s, k);
        ForEachVisitedStep(s, k + 1);
        EvensStep(s, k);
      }
    }
  }

  /**
   * The callback of `node.outbounds.forEach((outbound) =>
   * node.disconnect(outbound))` runs only for the neighbours at even
   * positions: only those units are disconnected.
   */
  lemma ForEachVisitsEvens<T>(s: seq<T>)
    requires Distinct(s)
    ensures ForEachVisited(s, 0, |s|) == Evens(s)
  {
    assert Odds(s[..0]) + s[0..] == s;
    ForEachVisitedStep(s, 0);
  }

  /** The unit disconnects forwarded for the graph nodes `s`, in order. */
  function DisconnectCalls(s: seq<AudioGraphNode>): seq<UnitCall>
  {
    seq(|s|, i requires 0 <= i < |s| => UnitDisconnect(s[i].node))
  }

  /** The fields of one graph node at some moment. */
  datatype NodeState = NodeState(inbounds: seq<AudioGraphNode>, outbounds: seq<AudioGraphNode>, unitCalls: seq<UnitCall>, strays: nat)

  /** The current fields of every node listed in `s`. */
  ghost function Snapshot(s: seq<AudioGraphNode>): (m: map<AudioGraphNode, NodeState>)
    reads s
    ensures forall x :: x in s ==> x in m && m[x] == NodeState(x.inbounds, x.outbounds, x.unitCalls, x.strays)
  {
    map x | x in s :: NodeState(x.inbounds, x.outbounds, x.unitCalls, x.strays)
  }

  /** No node listed in `s` has gained a stray entry since `m` was taken. */
  ghost predicate Unstrayed(s: seq<AudioGraphNode>, m: map<AudioGraphNode, NodeState>)
    reads s
  {
    forall x :: x in s ==> x in m && x.strays == m[x].strays
  }

  /**
   * The inbound walk of `node` after `k` callbacks, with `cur` holding the
   * fields of the inbounds now and `m` the fields they had before the walk:
   * each inbound has dropped `node` from its outbounds once it was reached,
   * and its unit was disconnected once per visit.
   */
  ghost predicate Walked(node: AudioGraphNode, in0: seq<AudioGraphNode>, k: nat, m: map<AudioGraphNode, NodeState>, cur: map<AudioGraphNode, NodeState>)
    requires k <= |in0|
  {
    forall x :: x in in0 ==>
      x in m && x in cur &&
      cur[x].inbounds == m[x].inbounds &&
      cur[x].outbounds == (if CountBefore(in0, k, x) > 0 then Without(m[x].outbounds, node) else m[x].outbounds) &&
      cur[x].unitCalls == m[x].unitCalls + Repeat(UnitDisconnect(node.node), CountBefore(in0, k, x))
  }

  /** After the whole walk, each inbound was visited once per listing. */
  lemma WalkedAll(node: AudioGraphNode, in0: seq<AudioGraphNode>, m: map<AudioGraphNode, NodeState>, cur: map<AudioGraphNode, NodeState>, x: AudioGraphNode)
    requires Walked(node, in0, |in0|, m, cur) && x in in0
    ensures x in m && x in cur
    ensures cur[x].inbounds == m[x].inbounds && cur[x].outbounds == Without(m[x].outbounds, node)
    ensures cur[x].unitCalls == m[x].unitCalls + Repeat(UnitDisconnect(node.node), multiset(in0)[x])
  {
    CountBeforeMultiset(in0, |in0|, x);
    assert in0[..|in0|] == in0;
  }

  /** The visit at `k` changes only the entry of the inbound found there. */
  lemma WalkedStep(node: AudioGraphNode, in0: seq<AudioGraphNode>, k: nat, m: map<AudioGraphNode, NodeState>, cur: map<AudioGraphNode, NodeState>, next: map<AudioGraphNode, NodeState>)
    requires k < |in0| && Walked(node, in0, k, m, cur)
    requires forall x :: x in in0 && x != in0[k] ==> x in next && next[x] == cur[x]
    requires in0[k] in next
    requires next[in0[k]].inbounds == cur[in0[k]].inbounds
    requires next[in0[k]].outbounds == Without(cur[in0[k]].outbounds, node)
    requires next[in0[k]].unitCalls == cur[in0[k]].unitCalls + [UnitDisconnect(node.node)]
    ensures Walked(node, in0, k + 1, m, next)
  {
    forall x | x in in0
      ensures x in m && x in next && next[x].inbounds == m[x].inbounds
      ensures next[x].outbounds == (if CountBefore(in0, k + 1, x) > 0 then Without(m[x].outbounds, node) else m[x].outbounds)
      ensures next[x].unitCalls == m[x].unitCalls + Repeat(UnitDisconnect(node.node), CountBefore(in0, k + 1, x))
    {
      RepeatStep(UnitDisconnect(node.node), CountBefore(in0, k, x));
      if x == in0[k] && CountBefore(in0, k, x) > 0 {
        WithoutTwice(m[x].outbounds, node);
      }
    }
  }

  /** Removal only drops elements. */
  lemma WithoutSubset<T>(s: seq<T>, x: T)
    ensures forall y :: y in Without(s, x) ==> y in s
  {
  }

  /** Every element of `s` is one of `t`. */
  ghost predicate Within<T>(s: seq<T>, t: seq<T>) {
    forall y :: y in s ==> y in t
  }

  /** Removal keeps a list within any list that held it. */
  lemma WithinWithout<T>(s: seq<T>, x: T, t: seq<T>)
    requires Within(s, t)
    ensures Within(Without(s, x), t)
  {
    WithoutSubset(s, x);
  }

  /**
   * The outbound walk after the targets `visited` were disconnected, with
   * `cur` holding the fields of the targets now and `m` the fields they had
   * before the walk: a visited target has filtered its inbounds for itself,
   * and nothing else about a target has changed.
   */
  ghost predicate OutboundsWalked(out0: seq<AudioGraphNode>, visited: seq<AudioGraphNode>, m: map<AudioGraphNode, NodeState>, cur: map<AudioGraphNode, NodeState>)
  {
    forall x :: x in out0 ==>
      x in m && x in cur &&
      cur[x].inbounds == (if x in visited then Without(m[x].inbounds, x) else m[x].inbounds) &&
      cur[x].outbounds == m[x].outbounds && cur[x].unitCalls == m[x].unitCalls
  }

  /** Disconnecting the target `y` changes only the entry of `y`. */
  lemma OutboundsWalkedStep(out0: seq<AudioGraphNode>, visited: seq<AudioGraphNode>, m: map<AudioGraphNode, NodeState>, cur: map<AudioGraphNode, NodeState>, next: map<AudioGraphNode, NodeState>, y: AudioGraphNode)
    requires OutboundsWalked(out0, visited, m, cur)
    requires forall x :: x in out0 && x != y ==> x in next && next[x] == cur[x]
    requires y in out0 && y in next
    requires next[y] == cur[y].(inbounds := Without(cur[y].inbounds, y))
    ensures OutboundsWalked(out0, visited + [y], m, next)
  {
    if y in visited {
      WithoutTwice(m[y].inbounds, y);
    }
  }

  /** How often `x` occurs among the first `k` elements of `s`. */
  function CountBefore<T(==)>(s: seq<T>, k: nat, x: T): (n: nat)
    requires k <= |s|
    ensures n <= k
  {
    if k == 0 then 0 else CountBefore(s, k - 1, x) + (if s[k - 1] == x then 1 else 0)
  }

  lemma {:induction false} CountBeforeMultiset<T>(s: seq<T>, k: nat, x: T)
    requires k <= |s|
    ensures CountBefore(s, k, x) == multiset(s[..k])[x]
  {
    if k > 0 {
      CountBeforeMultiset(s, k - 1, x);
      assert s[..k] == s[..k - 1] + [s[k - 1]];
    }
  }

  lemma RepeatStep(c: UnitCall, n: nat)
    ensures Repeat(c, n + 1) == Repeat(c, n) + [c]
  {
    assert |Repeat(c, n + 1)| == |Repeat(c, n) + [c]|;
    forall i | 0 <= i < n + 1
      ensures Repeat(c, n + 1)[i] == (Repeat(c, n) + [c])[i]
    {
    }
  }

  /** One visit of the walk moves the element found at `k` to the visited ones. */
  lemma VisitedStep<T>(visited: seq<T>, cur: seq<T>, k: nat, len: nat)
    requires k < len && k < |cur|
    ensures visited + ForEachVisited(cur, k, len) == (visited + [cur[k]]) + ForEachVisited(Without(cur, cur[k]), k + 1, len)
  {
    assert ForEachVisited(cur, k, len) == [cur[k]] + ForEachVisited(Without(cur, cur[k]), k + 1, len);
  }

  /** An index past the current end visits nothing, now or later. */
  lemma VisitedPast<T>(cur: seq<T>, k: nat, len: nat)
    requires k >= |cur|
    ensures ForEachVisited(cur, k, len) == [] && ForEachVisited(cur, k + 1, len) == []
  {
  }

  lemma DisconnectCallsAppend(s: seq<AudioGraphNode>, x: AudioGraphNode)
    ensures DisconnectCalls(s + [x]) == DisconnectCalls(s) + [UnitDisconnect(x.node)]
  {
  }

  /** The unit connects forwarded for the graph nodes `s`, in order. */
  function ConnectCalls(s: seq<AudioGraphNode>): seq<UnitCall>
  {
    seq(|s|, i requires 0 <= i < |s| => UnitConnect(s[i].node))
  }

  /** `n` copies of the call `c`. */
  function Repeat(c: UnitCall, n: nat): seq<UnitCall>
  {
    seq(n, _ => c)
  }

  /** Removing the same element twice is removing it once. */
  lemma {:induction false} WithoutTwice<T>(s: seq<T>, x: T)
    ensures Without(Without(s, x), x) == Without(s, x)
  {
    WithoutAbsent(Without(s, x), x);
  }

  /**
   * The entry `removeNode` appends to `x.outbounds` when its `newConnection`
   * names `x` among the inbounds `ins`: the chosen entry of the outbounds `outs`.
   */
  function Added(x: AudioGraphNode, newConnection: Option<NewConnection>, ins: seq<AudioGraphNode>, outs: seq<AudioGraphNode>): seq<AudioGraphNode> {
    match newConnection
    case Some(NewConnection(i, j)) =>
      if 0 <= i < |ins| && 0 <= j < |outs| && x == ins[i] then [outs[j]] else []
    case None => []
  }

  /**
   * The entry `removeNode` appends to `x.inbounds` when its `newConnection`
   * names `x` among the outbounds `outs`: the chosen entry of the inbounds `ins`.
   */
  function AddedIn(x: AudioGraphNode, newConnection: Option<NewConnection>, ins: seq<AudioGraphNode>, outs: seq<AudioGraphNode>): seq<AudioGraphNode> {
    match newConnection
    case Some(NewConnection(i, j)) =>
      if 0 <= i < |ins| && 0 <= j < |outs| && x == outs[j] then [ins[i]] else []
    case None => []
  }

  /**
   * The stray `undefined` a failing `removeNode` leaves in `x.outbounds`:
   * one when `x` is the chosen inbound and the chosen outbound does not exist.
   */
  function StrayAt(x: AudioGraphNode, newConnection: Option<NewConnection>, ins: seq<AudioGraphNode>, outs: seq<AudioGraphNode>): nat {
    match newConnection
    case Some(NewConnection(i, j)) =>
      if 0 <= i < |ins| && !(0 <= j < |outs|) && x == ins[i] then 1 else 0
    case None => 0
  }

  /**
   * The state of the inbound walk of `DisconnectInbounds` after `k` steps, given the
   * inbounds `in0`, outbounds `out0`, calls `calls0` and strays `strays0` it started from;
   * `cur` is the snapshot of the inbounds' fields now, `m` the one taken before the walk.
   */
  ghost predicate InboundWalk(node: AudioGraphNode, k: nat, in0: seq<AudioGraphNode>, out0: seq<AudioGraphNode>,
                              calls0: seq<UnitCall>, strays0: nat, m: map<AudioGraphNode, NodeState>, cur: map<AudioGraphNode, NodeState>)
    reads node, in0
  {
    k <= |in0| && Within(node.inbounds, in0) && Within(node.outbounds, out0) &&
    node.strays == strays0 && Unstrayed(in0, m) &&
    (node !in in0 ==>
      node.inbounds == in0 && node.outbounds == out0 && node.unitCalls == calls0 &&
      Snapshot(in0) == cur && Walked(node, in0, k, m, cur))
  }

  /** Before the first step, no inbound has been walked. */
  lemma InboundWalkStart(node: AudioGraphNode, in0: seq<AudioGraphNode>, m: map<AudioGraphNode, NodeState>)
    requires in0 == node.inbounds && m == Snapshot(in0)
    ensures InboundWalk(node, 0, in0, node.outbounds, node.unitCalls, node.strays, m, m)
  {
    forall x | x in in0
      ensures Repeat(UnitDisconnect(node.node), CountBefore(in0, 0, x)) == []
    {
    }
  }

  /**
   * One call of the callback in `node.inbounds.forEach((inbound) =>
   * inbound.disconnect(node))`: the entry at index `k` of the list `in0` the
   * walk started from, if the list still reaches that far. When `node` is
   * not its own inbound the list does not change, and the call advances the
   * walk by one visit against the fields `m` the inbounds had before it.
   */
  method DisconnectInboundAt(node: AudioGraphNode, k: nat, ghost in0: seq<AudioGraphNode>, ghost out0: seq<AudioGraphNode>,
                             ghost calls0: seq<UnitCall>, ghost strays0: nat, ghost m: map<AudioGraphNode, NodeState>,
                             ghost cur: map<AudioGraphNode, NodeState>)
      returns (k': nat, ghost next: map<AudioGraphNode, NodeState>)
    requires k < |in0| && InboundWalk(node, k, in0, out0, calls0, strays0, m, cur)
    modifies node, in0
    // `node` filters its own inbounds for itself, and its outbounds too when it is the entry at `k`
    ensures node.inbounds == old(node.inbounds) || node.inbounds == Without(old(node.inbounds), node)
    ensures node.outbounds == old(node.outbounds) || node.outbounds == Without(old(node.outbounds), node)
    // otherwise the inbound at `k` drops `node` from its outbounds and its unit is
    // disconnected from `node`'s unit; `node` itself does not change
    ensures k' == k + 1 && InboundWalk(node, k', in0, out0, calls0, strays0, m, next)
  {
    k' := k + 1;
    next := cur;
    if k < |node.inbounds| {
      var inbound := node.inbounds[k];
      assert inbound in node.inbounds;
      ghost var before := Snapshot(in0);
      inbound.Disconnect(node);
      WithinWithout(old(node.inbounds), node, in0);
      if inbound == node {
        WithinWithout(old(node.outbounds), node, out0);
      }
      if node !in in0 {
        WithoutAbsent(in0, node);
        next := Snapshot(in0);
        WalkedStep(node, in0, k, m, before, next);
      }
    }
  }

  /** The loop of `DisconnectInbounds`: walks the inbound list once, from the front. */
  method DisconnectInboundsWalk(node: AudioGraphNode, ghost in0: seq<AudioGraphNode>, ghost walk0: map<AudioGraphNode, NodeState>)
      returns (ghost cur: map<AudioGraphNode, NodeState>)
    requires in0 == node.inbounds && walk0 == Snapshot(in0)
    modifies node, in0
    ensures InboundWalk(node, |in0|, in0, old(node.outbounds), old(node.unitCalls), old(node.strays), walk0, cur)
  {
    InboundWalkStart(node, in0, walk0);
    cur := walk0;
    var k := 0;
    var len := |node.inbounds|;
    while k < len
      invariant 0 <= k <= len == |in0|
      invariant InboundWalk(node, k, in0, old(node.outbounds), old(node.unitCalls), old(node.strays), walk0, cur)
    {
      k, cur := DisconnectInboundAt(node, k, in0, old(node.outbounds), old(node.unitCalls), old(node.strays), walk0, cur);
    }
  }

  /**
   * `node.inbounds.forEach((inbound) => inbound.disconnect(node))`. When
   * `node` is not its own inbound, each inbound neighbour drops `node` from
   * its outbounds, while `node.inbounds` itself is left as it was.
   */
  method DisconnectInbounds(node: AudioGraphNode)
    modifies node, node.inbounds
    ensures forall x :: x in node.inbounds ==> x in old(node.inbounds)
    ensures forall x :: x in node.outbounds ==> x in old(node.outbounds)
    ensures node !in old(node.inbounds) ==> node.inbounds == old(node.inbounds) && node.outbounds == old(node.outbounds)
    ensures node !in old(node.inbounds) ==> forall x :: x in old(node.inbounds) ==>
      x.outbounds == Without(old(x.outbounds), node) && x.inbounds == old(x.inbounds)
    // each inbound unit is disconnected from `node`'s unit once per time it is listed
    ensures node !in old(node.inbounds) ==> forall x :: x in old(node.inbounds) ==>
      x.unitCalls == old(x.unitCalls) + Repeat(UnitDisconnect(node.node), multiset(old(node.inbounds))[x])
    ensures node !in old(node.inbounds) ==> node.unitCalls == old(node.unitCalls)
    ensures node.strays == old(node.strays) && forall x :: x in old(node.inbounds) ==> x.strays == old(x.strays)
  {
    ghost var in0 := node.inbounds;
    ghost var noSelf := node !in in0;
    ghost var walk0 := Snapshot(in0);
    ghost var cur := DisconnectInboundsWalk(node, in0, walk0);
    if noSelf {
      forall x | x in in0
        ensures x.inbounds == old(x.inbounds) && x.outbounds == Without(old(x.outbounds), node)
        ensures x.unitCalls == old(x.unitCalls) + Repeat(UnitDisconnect(node.node), multiset(in0)[x])
      {
        WalkedAll(node, in0, walk0, cur, x);
      }
    }
  }

  /**
   * One call of the callback in `node.outbounds.forEach((outbound) =>
   * node.disconnect(outbound))`, started on the list `out0` of length `len`:
   * the entry at index `k`, if the shrinking list still reaches that far.
   * It advances the walk by one visit: `visited` grows by the entry found,
   * `node`'s unit is disconnected from it, and that target filters its
   * inbounds for itself.
   */
  method DisconnectOutboundAt(node: AudioGraphNode, k: nat, len: nat, ghost out0: seq<AudioGraphNode>,
                              ghost visited: seq<AudioGraphNode>, ghost m: map<AudioGraphNode, NodeState>,
                              ghost calls0: seq<UnitCall>, ghost outs: seq<AudioGraphNode>)
      returns (k': nat, ghost visited': seq<AudioGraphNode>)
    requires k < len == |out0|
    requires forall x :: x in node.outbounds ==> x in out0
    requires forall x :: x in out0 ==> x in outs
    requires ForEachDisconnect(node.outbounds, k, len) == ForEachDisconnect(out0, 0, len)
    requires visited + ForEachVisited(node.outbounds, k, len) == ForEachVisited(out0, 0, len)
    requires node.unitCalls == calls0 + DisconnectCalls(visited)
    requires node !in out0 ==> OutboundsWalked(out0, visited, m, Snapshot(out0))
    modifies node, outs
    ensures forall x :: x in node.outbounds ==> x in out0
    ensures forall x :: x in node.inbounds ==> x in old(node.inbounds)
    ensures k' == k + 1 && ForEachDisconnect(node.outbounds, k', len) == ForEachDisconnect(out0, 0, len)
    ensures visited' + ForEachVisited(node.outbounds, k', len) == ForEachVisited(out0, 0, len)
    ensures node.unitCalls == calls0 + DisconnectCalls(visited')
    ensures node !in out0 ==> node.inbounds == old(node.inbounds) && OutboundsWalked(out0, visited', m, Snapshot(out0))
    ensures node.strays == old(node.strays) && forall x :: x in out0 ==> x.strays == old(x.strays)
  {
    k' := k + 1;
    visited' := visited;
    if k < |node.outbounds| {
      var outbound := node.outbounds[k];
      ghost var cur := node.outbounds;
      ghost var before := Snapshot(out0);
      ghost var ins := node.inbounds;
      assert outbound in node.outbounds;
      node.Disconnect(outbound);
      VisitedStep(visited, cur, k, len);
      DisconnectCallsAppend(visited, outbound);
      if node !in out0 {
        OutboundsWalkedStep(out0, visited, m, before, Snapshot(out0), outbound);
      } else if outbound == node {
        WithoutSubset(ins, node);
      }
      visited' := visited + [outbound];
    } else {
      VisitedPast(node.outbounds, k, len);
    }
  }

  /**
   * `node.outbounds.forEach((outbound) => node.disconnect(outbound))`: the
   * in-place removal makes the walk skip entries, so what is left is
   * `ForEachDisconnect` of the old list. The targets' inbounds are filtered
   * for the targets themselves, so `node` stays listed there. `outs` names
   * the nodes the walk may touch.
   */
  method DisconnectOutbounds(node: AudioGraphNode, ghost outs: seq<AudioGraphNode>)
    requires forall x :: x in node.outbounds ==> x in outs
    modifies node, outs
    ensures node.outbounds == ForEachDisconnect(old(node.outbounds), 0, |old(node.outbounds)|)
    ensures forall x :: x in node.inbounds ==> x in old(node.inbounds)
    ensures node !in old(node.outbounds) ==> node.inbounds == old(node.inbounds)
    ensures node !in old(node.outbounds) ==> forall x :: x in old(node.outbounds) ==> x.outbounds == old(x.outbounds)
    ensures node !in old(node.outbounds) ==>
      forall x :: x in old(node.outbounds) && node in old(x.inbounds) ==> node in x.inbounds
    // `node`'s unit is disconnected from exactly the units the walk visits, in order
    ensures node.unitCalls == old(node.unitCalls) + DisconnectCalls(ForEachVisited(old(node.outbounds), 0, |old(node.outbounds)|))
    // a visited target filters its inbounds for itself; the others are untouched
    ensures node !in old(node.outbounds) ==> forall x :: x in old(node.outbounds) ==>
      x.inbounds == (if x in ForEachVisited(old(node.outbounds), 0, |old(node.outbounds)|) then Without(old(x.inbounds), x) else old(x.inbounds)) &&
      x.unitCalls == old(x.unitCalls)
    ensures node.strays == old(node.strays) && forall x :: x in old(node.outbounds) ==> x.strays == old(x.strays)
  {
    ghost var out0 := node.outbounds;
    ghost var noSelf := node !in out0;
    ghost var walk0 := Snapshot(out0);
    ghost var visited: seq<AudioGraphNode> := [];
    var k := 0;
    var len := |node.outbounds|;
    while k < len
      invariant 0 <= k <= len == |out0|
      invariant forall x :: x in out0 ==> x in outs
      invariant forall x :: x in node.outbounds ==> x in out0
      invariant !noSelf ==> forall x :: x in node.inbounds ==> x in old(node.inbounds)
      invariant ForEachDisconnect(node.outbounds, k, len) == ForEachDisconnect(out0, 0, len)
      invariant visited + ForEachVisited(node.outbounds, k, len) == ForEachVisited(out0, 0, len)
      invariant node.unitCalls == old(node.unitCalls) + DisconnectCalls(visited)
      invariant noSelf ==> node.inbounds == old(node.inbounds) && OutboundsWalked(out0, visited, walk0, Snapshot(out0))
      invariant node.strays == old(node.strays) && Unstrayed(out0, walk0)
    {
      k, visited := DisconnectOutboundAt(node, k, len, out0, visited, walk0, old(node.unitCalls), outs);
    }
    if noSelf {
      forall x | x in out0
        ensures x.outbounds == old(x.outbounds) && x.unitCalls == old(x.unitCalls)
        ensures x.inbounds == (if x in visited then Without(old(x.inbounds), x) else old(x.inbounds))
        ensures node in old(x.inbounds) ==> node in x.inbounds
      {
        if node in old(x.inbounds) && x in visited {
          WithoutKeeps(old(x.inbounds), x, node);
        }
      }
    }
  }

  /**
   * `if (newConnection) node.inbounds[i].connect(node.outbounds[j])`, the
   * first step of `removeNode`. It throws (`ok` is false) when an index names
   * no entry: reading `connect` of a missing inbound throws before anything
   * happens, while a missing outbound is first pushed onto the inbound's
   * outbounds as `undefined` (its stray) before the throw. Otherwise the
   * chosen inbound is connected to the chosen outbound.
   */
  method Reconnect(node: AudioGraphNode, newConnection: Option<NewConnection>) returns (ok: bool)
    modifies node.inbounds, node.outbounds
    ensures ok <==> (newConnection.None? ||
      (0 <= newConnection.value.inbound < |old(node.inbounds)| && 0 <= newConnection.value.outbound < |old(node.outbounds)|))
    ensures forall x :: x == node || x in old(node.inbounds) || x in old(node.outbounds) ==>
      x.inbounds == old(x.inbounds) + AddedIn(x, newConnection, old(node.inbounds), old(node.outbounds)) &&
      x.outbounds == old(x.outbounds) + Added(x, newConnection, old(node.inbounds), old(node.outbounds)) &&
      x.unitCalls == old(x.unitCalls) + ConnectCalls(Added(x, newConnection, old(node.inbounds), old(node.outbounds))) &&
      x.strays == old(x.strays) + StrayAt(x, newConnection, old(node.inbounds), old(node.outbounds))
    // in particular a throw changes no list and makes no call
    ensures !ok ==> forall x :: x == node || x in old(node.inbounds) || x in old(node.outbounds) ==>
      x.inbounds == old(x.inbounds) && x.outbounds == old(x.outbounds) && x.unitCalls == old(x.unitCalls)
    // and a completed call leaves no stray
    ensures ok ==> forall x :: x == node || x in old(node.inbounds) || x in old(node.outbounds) ==> x.strays == old(x.strays)
  {
    ok := true;
    if newConnection.Some? {
      var i, j := newConnection.value.inbound, newConnection.value.outbound;
      if 0 <= i < |node.inbounds| {
        var inbound := node.inbounds[i];
        assert inbound in node.inbounds;
        if 0 <= j < |node.outbounds| {
          var outbound := node.outbounds[j];
          assert outbound in node.outbounds;
          inbound.Connect(outbound);
        } else {
          inbound.ConnectUndefined();
          ok := false;
        }
      } else {
        ok := false;
      }
    }
  }

  /**
   * The two walks of `removeNode`: every inbound disconnects from `node`,
   * then `node` disconnects from every outbound it still reaches. The
   * postconditions assume that `node` is not its own neighbour.
   */
  method DisconnectNeighbours(node: AudioGraphNode)
    modifies node, node.inbounds, node.outbounds
    ensures node !in old(node.inbounds) && node !in old(node.outbounds) ==>
      node.inbounds == old(node.inbounds) &&
      node.outbounds == ForEachDisconnect(old(node.outbounds), 0, |old(node.outbounds)|) &&
      node.unitCalls == old(node.unitCalls) + DisconnectCalls(ForEachVisited(old(node.outbounds), 0, |old(node.outbounds)|)) &&
      node.strays == old(node.strays)
    ensures node !in old(node.inbounds) && node !in old(node.outbounds) ==>
      var visited := ForEachVisited(old(node.outbounds), 0, |old(node.outbounds)|);
      forall x :: x in old(node.inbounds) || x in old(node.outbounds) ==>
        x.inbounds == (if x in old(node.outbounds) && x in visited then Without(old(x.inbounds), x) else old(x.inbounds)) &&
        x.outbounds == (if x in old(node.inbounds) then Without(old(x.outbounds), node) else old(x.outbounds)) &&
        x.unitCalls == old(x.unitCalls) + Repeat(UnitDisconnect(node.node), multiset(old(node.inbounds))[x]) &&
        x.strays == old(x.strays)
    // so an outbound neighbour that listed `node` in its inbounds still does
    ensures node !in old(node.inbounds) && node !in old(node.outbounds) ==>
      forall x :: x in old(node.outbounds) && node in old(x.inbounds) ==> node in x.inbounds
  {
    ghost var in0, out0 := node.inbounds, node.outbounds;
    DisconnectInbounds(node);
    DisconnectOutbounds(node, out0);
    if node !in in0 && node !in out0 {
      forall x | x in in0 || x in out0
        ensures multiset(in0)[x] == 0 ==> Repeat(UnitDisconnect(node.node), multiset(in0)[x]) == []
      {
      }
    }
  }

  /**
   * `removeNode(node, newConnection)`: the optional rewiring, then the walk
   * over the inbounds, then the walk over the outbounds. A throw in the
   * rewiring (`ok` false) stops it there. The postconditions of a completed
   * call assume that `node` is not its own neighbour; otherwise the inbound
   * walk skips entries as well.
   */
  method RemoveNode(node: AudioGraphNode, newConnection: Option<NewConnection>) returns (ok: bool, r: AudioGraphNode)
    modifies node, node.inbounds, node.outbounds
    ensures r == node
    ensures ok <==> (newConnection.None? ||
      (0 <= newConnection.value.inbound < |old(node.inbounds)| && 0 <= newConnection.value.outbound < |old(node.outbounds)|))
    // a throw changes no list and makes no call; only the stray `undefined` is left behind
    ensures !ok ==> forall x :: x == node || x in old(node.inbounds) || x in old(node.outbounds) ==>
      x.inbounds == old(x.inbounds) && x.outbounds == old(x.outbounds) && x.unitCalls == old(x.unitCalls) &&
      x.strays == old(x.strays) + StrayAt(x, newConnection, old(node.inbounds), old(node.outbounds))
    // `node.inbounds` never shrinks; the outbound walk disconnects only the neighbours the in-place removal does not skip
    ensures ok && node !in old(node.inbounds) && node !in old(node.outbounds) ==>
      node.inbounds == old(node.inbounds) &&
      node.outbounds == ForEachDisconnect(old(node.outbounds), 0, |old(node.outbounds)|) &&
      node.unitCalls == old(node.unitCalls) + DisconnectCalls(ForEachVisited(old(node.outbounds), 0, |old(node.outbounds)|)) &&
      node.strays == old(node.strays)
    // every inbound neighbour forgets `node` (keeping the rewired edge if it made one) and its
    // unit is disconnected from `node`'s once per listing; a visited outbound neighbour filters
    // its inbounds for itself, after the rewired edge was added; nothing else changes
    ensures ok && node !in old(node.inbounds) && node !in old(node.outbounds) ==>
      var visited := ForEachVisited(old(node.outbounds), 0, |old(node.outbounds)|);
      forall x :: x in old(node.inbounds) || x in old(node.outbounds) ==>
        var addedIn := AddedIn(x, newConnection, old(node.inbounds), old(node.outbounds));
        var added := Added(x, newConnection, old(node.inbounds), old(node.outbounds));
        x.inbounds == (if x in old(node.outbounds) && x in visited then Without(old(x.inbounds) + addedIn, x) else old(x.inbounds) + addedIn) &&
        x.outbounds == (if x in old(node.inbounds) then Without(old(x.outbounds) + added, node) else old(x.outbounds) + added) &&
        x.unitCalls == old(x.unitCalls) + ConnectCalls(added) + Repeat(UnitDisconnect(node.node), multiset(old(node.inbounds))[x]) &&
        x.strays == old(x.strays)
    // an outbound neighbour that listed `node` in its inbounds still does
    ensures ok && node !in old(node.inbounds) && node !in old(node.outbounds) ==>
      forall x :: x in old(node.outbounds) && node in old(x.inbounds) ==> node in x.inbounds
  {
    r := node;
    ghost var in0, out0 := node.inbounds, node.outbounds;
    ghost var noSelf := node !in in0 && node !in out0;
    ok := Reconnect(node, newConnection);
    if !ok {
      return;
    }
    assert noSelf ==> node.inbounds == in0 && node.outbounds == out0;
    label rewired:
    DisconnectNeighbours(node);
    if noSelf {
      forall x | x in out0 && node in old(x.inbounds)
        ensures node in x.inbounds
      {
        assert node in old@rewired(x.inbounds);
      }
    }
  }
}

module AudioGraphScenarios {
  import opened Wrappers
  import opened AudioGraphs
  import opened AudioGraphUtils

  /** The units behind a list of graph nodes. */
  function Units(s: seq<AudioGraphNode>): (r: seq<UnitId>)
    ensures |r| == |s| && forall i :: 0 <= i < |s| ==> r[i] == s[i].node
  {
    seq(|s|, i requires 0 <= i < |s| => s[i].node)
  }

  /** `a` (unit 1) connected to `b` (unit 2), with `n` (unit 3) inserted between them. */
  method InsertedBetween() returns (a: AudioGraphNode, b: AudioGraphNode, n: AudioGraphNode)
    ensures fresh(a) && fresh(b) && fresh(n)
    ensures a.node == 1 && b.node == 2 && n.node == 3
    ensures a.outbounds == [n] && n.inbounds == [a] && n.outbounds == [b] && b.inbounds == [a, n]
  {
    a := new AudioGraphNode(1);
    b := new AudioGraphNode(2);
    a.Connect(b);
    n := new AudioGraphNode(3);
    var _ := InsertNodeBetween(n, a, b);
  }

  /**
   * Inserting a node `n` (unit 3) between `a` (unit 1) and `b` (unit 2) and
   * removing it again with `newConnection` {0, 0} restores `a`'s outbounds
   * and leaves `n` its inbound `a`, but `b` still lists `n` as an inbound.
   */
  method InsertThenRemove() returns (aOut: seq<UnitId>, bIn: seq<UnitId>, nIn: seq<UnitId>)
    ensures aOut == [2]
    ensures nIn == [1]
    ensures 3 in bIn
  {
    var a, b, n := InsertedBetween();
    assert Added(a, Some(NewConnection(0, 0)), [a], [b]) == [b];
    assert Without([n] + [b], n) == [b];
    var ok, _ := RemoveNode(n, Some(NewConnection(0, 0)));
    aOut, bIn, nIn := Units(a.outbounds), Units(b.inbounds), Units(n.inbounds);
    assert n in b.inbounds;
  }

}
