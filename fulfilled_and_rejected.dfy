/**
 * src/utils/functions/fulfilledAndRejected.ts: settle a list of promises and
 * split the outcomes, by a `reduce` that pushes each fulfilled value onto
 * `fulfilled` and each rejection reason onto `rejected`. The model receives
 * the outcomes `Promise.allSettled` produced, in input order; a value that is
 * not a promise settles as fulfilled with itself (`Settle`).
 */
module Settlement {

  datatype Settled<T> = Fulfilled(value: T) | Rejected(reason: string)

  /** The fulfilled values, in input order. */
  function FulfilledValues<T>(results: seq<Settled<T>>): seq<T> {
    if results == [] then []
    else
      var last := results[|results| - 1];
      FulfilledValues(results[..|results| - 1]) + (if last.Fulfilled? then [last.value] else [])
  }

  /** The rejection reasons, in input order. */
  function RejectedReasons<T>(results: seq<Settled<T>>): seq<string> {
    if results == [] then []
    else
      var last := results[|results| - 1];
      RejectedReasons(results[..|results| - 1]) + (if last.Rejected? then [last.reason] else [])
  }

  /** `fulfilledAndRejected(promises)`, given what the promises settled to. */
  method FulfilledAndRejected<T>(results: seq<Settled<T>>) returns (fulfilled: seq<T>, rejected: seq<string>)
    ensures fulfilled == FulfilledValues(results)
    ensures rejected == RejectedReasons(results)
  {
    fulfilled, rejected := [], [];
    for i := 0 to |results|
      invariant fulfilled == FulfilledValues(results[..i])
      invariant rejected == RejectedReasons(results[..i])
    {
      assert results[..i + 1][..i] == results[..i];
      if results[i].Fulfilled? {
        fulfilled := fulfilled + [results[i].value];
      } else {
        rejected := rejected + [results[i].reason];
      }
    }
    assert results[..|results|] == results;
  }

  /** Every input lands in exactly one of the two lists. */
  lemma {:induction false} EveryOutcomeCounted<T>(results: seq<Settled<T>>)
    ensures |FulfilledValues(results)| + |RejectedReasons(results)| == |results|
  {
    if results != [] {
      EveryOutcomeCounted(results[..|results| - 1]);
    }
  }

  /** A fulfilled input's value is among the fulfilled values, a rejected input's reason among the reasons. */
  lemma {:induction false} OutcomeKept<T>(results: seq<Settled<T>>, i: nat)
    requires i < |results|
    ensures results[i].Fulfilled? ==> results[i].value in FulfilledValues(results)
    ensures results[i].Rejected? ==> results[i].reason in RejectedReasons(results)
  {
    if i < |results| - 1 {
      OutcomeKept(results[..|results| - 1], i);
    }
  }

  /** With no rejection among the inputs, `rejected` is empty and `fulfilled` is every value in order. */
  lemma {:induction false} NoRejections<T>(results: seq<Settled<T>>)
    requires forall i :: 0 <= i < |results| ==> results[i].Fulfilled?
    ensures RejectedReasons(results) == []
    ensures |FulfilledValues(results)| == |results|
    ensures forall i :: 0 <= i < |results| ==> FulfilledValues(results)[i] == results[i].value
  {
    if results != [] {
      NoRejections(results[..|results| - 1]);
    }
  }

  /** `Promise.allSettled` over values that are not promises: each settles as fulfilled with itself. */
  function Settle<T>(values: seq<T>): (r: seq<Settled<T>>)
    ensures |r| == |values| && forall i :: 0 <= i < |values| ==> r[i] == Fulfilled(values[i])
  {
    seq(|values|, i requires 0 <= i < |values| => Fulfilled(values[i]))
  }

  /**
   * Passing already-settled outcomes where promises are expected: every
   * outcome, rejected ones included, comes back as a fulfilled value, and
   * nothing is reported as rejected.
   */
  lemma SettledTwice<T>(results: seq<Settled<T>>)
    ensures RejectedReasons(Settle(results)) == []
    ensures FulfilledValues(Settle(results)) == results
  {
    NoRejections(Settle(results));
  }
}
