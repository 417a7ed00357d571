/**
 * src/resources/judgement/JudgementService.ts: the single service every
 * column reports its judgements to. Callbacks registered with `onAdd` are
 * kept in registration order and `add` calls each of them once, in that
 * order, with the judgement. Callbacks are identified by an id; the calls
 * they receive are recorded in `calls`.
 */
module JudgementService {
  import opened JudgementStore
  import opened Arrays

  /** A registered `OnAddJudgementFunction`. */
  type CallbackId = nat

  /** One invocation `cb(judgement)`. */
  datatype Call = Call(callback: CallbackId, judgement: Judgement)

  /** The calls `cbs.forEach(cb => cb(j))` makes. */
  function Deliveries(cbs: seq<CallbackId>, j: Judgement): (r: seq<Call>)
    ensures |r| == |cbs|
    ensures forall i :: 0 <= i < |cbs| ==> r[i] == Call(cbs[i], j)
  {
    seq(|cbs|, i requires 0 <= i < |cbs| => Call(cbs[i], j))
  }

  /** Registering more callbacks only adds calls after those of the earlier ones. */
  lemma DeliveriesAppend(a: seq<CallbackId>, b: seq<CallbackId>, j: Judgement)
    ensures Deliveries(a + b, j) == Deliveries(a, j) + Deliveries(b, j)
  {
    assert |Deliveries(a + b, j)| == |Deliveries(a, j) + Deliveries(b, j)|;
    forall i | 0 <= i < |a| + |b|
      ensures Deliveries(a + b, j)[i] == (Deliveries(a, j) + Deliveries(b, j))[i]
    {
    }
  }

  /** Each registered callback is called as many times as it was registered, with the judgement. */
  lemma {:induction false} DeliveryCount(cbs: seq<CallbackId>, j: Judgement, cb: CallbackId)
    ensures multiset(Deliveries(cbs, j))[Call(cb, j)] == multiset(cbs)[cb]
  {
    if cbs != [] {
      var n := |cbs| - 1;
      assert cbs == cbs[..n] + [cbs[n]];
      DeliveriesAppend(cbs[..n], [cbs[n]], j);
      DeliveryCount(cbs[..n], j, cb);
    }
  }

  class Service {
    /** `cbs`, in registration order. */
    var cbs: seq<CallbackId>
    /** Every callback invocation so far, oldest first. */
    var calls: seq<Call>

    constructor ()
      ensures cbs == [] && calls == []
    {
      cbs := [];
      calls := [];
    }

    /** `add(judgement)`: every registered callback is called once, in registration order. */
    method Add(judgement: Judgement)
      modifies this
      ensures cbs == old(cbs)
      ensures calls == old(calls) + Deliveries(cbs, judgement)
    {
      for i := 0 to |cbs|
        invariant cbs == old(cbs)
        invariant calls == old(calls) + Deliveries(cbs[..i], judgement)
      {
        calls := calls + [Call(cbs[i], judgement)];
        assert cbs[..i + 1] == cbs[..i] + [cbs[i]];
        DeliveriesAppend(cbs[..i], [cbs[i]], judgement);
      }
      assert cbs[..|cbs|] == cbs;
    }

    /** `onAdd(cbs)`: one callback or an array of them is appended. */
    method OnAdd(callbacks: MaybeArray<CallbackId>)
      modifies this
      ensures cbs == old(cbs) + ToArray(callbacks)
      ensures calls == old(calls)
    {
      cbs := cbs + ToArray(callbacks);
    }
  }
}
