/**
 * The object-store wrapper of src/utils/SuperchargedIndexedDB/SCIDBObjectStore.ts:
 * `get` (one record or all of them) and the `where` generator, which walks a
 * key range one transaction at a time by re-opening a cursor on
 * `IDBKeyRange.bound(lastKey, query.upper, true)` after every record.
 *
 * The store is a snapshot: a sequence of records sorted strictly by key, as
 * an IndexedDB object store keeps them. A record's value is `None` when the
 * stored value is `null` or `undefined`.
 */
module ObjectStore {
  import opened Wrappers
  import opened IdbKeys

  datatype Record<V> = Record(key: Key, value: Option<V>)

  /** The records at `i` and `j` are in key order. */
  predicate OrderedAt<V>(store: seq<Record<V>>, i: int, j: int) {
    0 <= i < j < |store| ==> Less(store[i].key, store[j].key)
  }

  /** Records are kept in strictly increasing key order. */
  ghost predicate Sorted<V>(store: seq<Record<V>>) {
    forall i, j :: OrderedAt(store, i, j)
  }

  /**
   * The first record at index `i` or later whose key lies in `r`;
   * `openCursor(r)` lands on `FirstFrom(store, r, 0)`.
   */
  function FirstFrom<V>(store: seq<Record<V>>, r: KeyRange, i: nat): (f: Option<nat>)
    decreases |store| - i
    ensures f.Some? ==> i <= f.value < |store| && InRange(store[f.value].key, r)
  {
    if i >= |store| then None
    else if InRange(store[i].key, r) then Some(i)
    else FirstFrom(store, r, i + 1)
  }

  /** `FirstFrom` passes over only records outside the range: it finds the first match, or shows there is none. */
  lemma {:induction false} FirstFromIsFirst<V>(store: seq<Record<V>>, r: KeyRange, i: nat)
    ensures var f := FirstFrom(store, r, i);
      && (f.Some? ==> forall j :: i <= j < f.value ==> !InRange(store[j].key, r))
      && (f.None? ==> forall j :: i <= j < |store| ==> !InRange(store[j].key, r))
    decreases |store| - i
  {
    if i < |store| && !InRange(store[i].key, r) {
      FirstFromIsFirst(store, r, i + 1);
    }
  }

  /** Starting the search later changes nothing when the skipped records are out of range. */
  lemma {:induction false} FirstFromSkip<V>(store: seq<Record<V>>, r: KeyRange, k: nat, i: nat)
    requires k <= i <= |store|
    requires forall j :: k <= j < i ==> !InRange(store[j].key, r)
    ensures FirstFrom(store, r, k) == FirstFrom(store, r, i)
    decreases i - k
  {
    if k < i {
      FirstFromSkip(store, r, k + 1, i);
    }
  }

  /**
   * The range `_query` after the cursor landed on key `k`:
   * `IDBKeyRange.bound(k, query.upper, true)`, which throws (`None`) when
   * `query.upper` is undefined or is not above `k`. Any `upperOpen` of the
   * original query is dropped.
   */
  function Advance(k: Key, query: KeyRange): (r: Option<KeyRange>)
    ensures r.Some? <==> query.upper.Some? && Less(k, query.upper.value)
    ensures r.Some? ==> r.value == KeyRange(Some(k), query.upper, true, false)
  {
    if query.upper.None? then None else Bound(k, query.upper.value, true, false)
  }

  /** What one resumption of the generator produces. */
  datatype Step<V> = Yield(value: V) | Done | Hang

  /**
   * A suspended `where(query)` generator. `finished` and `current` are the
   * source's `finished` and `_query`; `returned` records that the generator
   * function has returned; `hung` that a success listener threw before
   * settling its promise, so the generator never resumes.
   */
  class WhereCursor<V> {
    const store: seq<Record<V>>
    const query: KeyRange
    var current: KeyRange
    var finished: bool
    var returned: bool
    var hung: bool

    constructor (store: seq<Record<V>>, query: KeyRange)
      ensures this.store == store && this.query == query
      ensures current == query && !finished && !returned && !hung
    {
      this.store := store;
      this.query := query;
      current := query;
      finished := false;
      returned := false;
      hung := false;
    }

    /**
     * One pass of the `while (!finished)` loop: open a cursor on `current`;
     * with no record, set `finished` and return; otherwise move `current`
     * past the record and yield its value, or return if the value is null.
     */
    method Next() returns (step: Step<V>)
      modifies this
      ensures old(returned) ==> step == Done && unchanged(this)
      ensures !old(returned) && old(hung) ==> step == Hang && unchanged(this)
      ensures !old(returned) && !old(hung) ==>
        && step == StepOf(store, query, old(current))
        && current == NextRange(store, query, old(current))
        && finished == (old(finished) || FirstFrom(store, old(current), 0).None?)
        && returned == step.Done? && hung == step.Hang?
    {
      if returned {
        return Done;
      }
      if hung {
        return Hang;
      }
      var f := FirstFrom(store, current, 0);
      if f.None? {
        finished := true;
        returned := true;
        step := Done;
      } else {
        var next := Advance(store[f.value].key, query);
        if next.None? {
          hung := true;
          step := Hang;
        } else {
          current := next.value;
          if store[f.value].value.None? {
            returned := true;
            step := Done;
          } else {
            step := Yield(store[f.value].value.value);
          }
        }
      }
    }
  }

  /**
   * What a live generator produces when its cursor is opened on `r`: it
   * returns when no record is in `r`, hangs when `bound` throws on the
   * record found, returns on a null value and yields any other value.
   */
  function StepOf<V>(store: seq<Record<V>>, query: KeyRange, r: KeyRange): Step<V> {
    match FirstFrom(store, r, 0)
    case None => Done
    case Some(i) =>
      if Advance(store[i].key, query).None? then Hang
      else if store[i].value.None? then Done
      else Yield(store[i].value.value)
  }

  /** `_query` after that pass: unchanged unless `bound` succeeded. */
  function NextRange<V>(store: seq<Record<V>>, query: KeyRange, r: KeyRange): KeyRange {
    match FirstFrom(store, r, 0)
    case None => r
    case Some(i) => if Advance(store[i].key, query).None? then r else Advance(store[i].key, query).value
  }

  /** The yielded values, and whether the generator hung instead of returning. */
  datatype WhereRun<V> = WhereRun(values: seq<V>, hung: bool)

  /** `_query` once the record at index `p - 1` has been yielded (`query` itself before any). */
  function Cur<V>(store: seq<Record<V>>, query: KeyRange, p: nat): KeyRange
    requires p <= |store|
  {
    if p == 0 then query else KeyRange(Some(store[p - 1].key), query.upper, true, false)
  }

  /** The rest of a `where` run once the records before index `p` have been passed. */
  function WhereFrom<V>(store: seq<Record<V>>, query: KeyRange, p: nat): WhereRun<V>
    requires p <= |store|
    decreases |store| - p
  {
    match FirstFrom(store, Cur(store, query, p), p)
    case None => WhereRun([], false)
    case Some(i) =>
      if Advance(store[i].key, query).None? then WhereRun([], true)
      else if store[i].value.None? then WhereRun([], false)
      else
        var rest := WhereFrom(store, query, i + 1);
        WhereRun([store[i].value.value] + rest.values, rest.hung)
  }

  /**
   * The values of the in-range records from index `p` on, in key order, up to
   * the first in-range record whose value is null.
   */
  function Expected<V>(store: seq<Record<V>>, query: KeyRange, p: nat): seq<V>
    requires p <= |store|
    decreases |store| - p
  {
    if p == |store| then []
    else if !InRange(store[p].key, query) then Expected(store, query, p + 1)
    else if store[p].value.None? then []
    else [store[p].value.value] + Expected(store, query, p + 1)
  }

  /** No record sits exactly on the query's upper bound. */
  predicate NothingAtUpper<V>(store: seq<Record<V>>, query: KeyRange) {
    query.upper.Some? && forall j :: 0 <= j < |store| ==> store[j].key != query.upper.value
  }

  /** In a sorted store nothing before index `p` lies above the record at `p - 1`. */
  lemma NoneBefore<V>(store: seq<Record<V>>, query: KeyRange, p: nat)
    requires Sorted(store) && 0 < p <= |store|
    ensures forall j :: 0 <= j < p ==> !InRange(store[j].key, Cur(store, query, p))
  {
    forall j | 0 <= j < p
      ensures !Less(store[p - 1].key, store[j].key)
    {
      if j < p - 1 {
        assert OrderedAt(store, j, p - 1);
        LessAsymmetric(store[j].key, store[p - 1].key);
      } else {
        LessIrreflexive(store[j].key);
      }
    }
  }

  /**
   * Past the last yielded record, the re-opened range and the original query
   * agree on every record not at the upper bound.
   */
  lemma InCurIff<V>(store: seq<Record<V>>, query: KeyRange, p: nat, j: nat)
    requires Sorted(store) && NothingAtUpper(store, query)
    requires 0 < p <= j < |store| && InRange(store[p - 1].key, query)
    ensures InRange(store[j].key, Cur(store, query, p)) <==> InRange(store[j].key, query)
  {
    var a, b := store[p - 1].key, store[j].key;
    assert OrderedAt(store, p - 1, j);
    if query.lower.Some? {
      assert LessEq(query.lower.value, a);
      LessEqTransitive(query.lower.value, a, b);
      if query.lowerOpen {
        LessTransitive(query.lower.value, a, b);
      }
    }
  }

  /** Out-of-range records contribute nothing to `Expected`. */
  lemma {:induction false} ExpectedSkip<V>(store: seq<Record<V>>, query: KeyRange, k: nat, i: nat)
    requires k <= i <= |store|
    requires forall j :: k <= j < i ==> !InRange(store[j].key, query)
    ensures Expected(store, query, k) == Expected(store, query, i)
    decreases i - k
  {
    if k < i {
      ExpectedSkip(store, query, k + 1, i);
    }
  }

  lemma {:induction false} WhereFromExpected<V>(store: seq<Record<V>>, query: KeyRange, p: nat)
    requires Sorted(store) && NothingAtUpper(store, query)
    requires p <= |store| && (p > 0 ==> InRange(store[p - 1].key, query))
    ensures WhereFrom(store, query, p) == WhereRun(Expected(store, query, p), false)
    decreases |store| - p
  {
    var cur := Cur(store, query, p);
    CurAgrees(store, query, p);
    var f := FirstFrom(store, cur, p);
    FirstFromIsFirst(store, cur, p);
    if f.None? {
      ExpectedSkip(store, query, p, |store|);
    } else {
      var i := f.value;
      ExpectedSkip(store, query, p, i);
      assert InRange(store[i].key, query);
      assert LessEq(store[i].key, query.upper.value) && store[i].key != query.upper.value;
      if store[i].value.Some? {
        WhereFromExpected(store, query, i + 1);
        WhereFromYield(store, query, p, i);
      }
    }
  }

  /** From index `p` on, `Cur(p)` and the query select the same records. */
  lemma CurAgrees<V>(store: seq<Record<V>>, query: KeyRange, p: nat)
    requires Sorted(store) && NothingAtUpper(store, query)
    requires p <= |store| && (p > 0 ==> InRange(store[p - 1].key, query))
    ensures forall j :: p <= j < |store| ==>
      (InRange(store[j].key, Cur(store, query, p)) <==> InRange(store[j].key, query))
  {
    forall j | p <= j < |store|
      ensures InRange(store[j].key, Cur(store, query, p)) <==> InRange(store[j].key, query)
    {
      if p > 0 {
        InCurIff(store, query, p, j);
      }
    }
  }

  /** Unfolding `WhereFrom` at a record whose value is yielded. */
  lemma WhereFromYield<V>(store: seq<Record<V>>, query: KeyRange, p: nat, i: nat)
    requires p <= i < |store| && FirstFrom(store, Cur(store, query, p), p) == Some(i)
    requires Advance(store[i].key, query).Some? && store[i].value.Some?
    ensures WhereFrom(store, query, p).values == [store[i].value.value] + WhereFrom(store, query, i + 1).values
    ensures WhereFrom(store, query, p).hung == WhereFrom(store, query, i + 1).hung
  {
  }

  /**
   * With nothing stored exactly at the upper bound, `where` yields the value
   * of every record in the range, once each and in increasing key order,
   * stopping early only at a record whose value is null, and returns.
   */
  lemma WhereYieldsRange<V>(store: seq<Record<V>>, query: KeyRange)
    requires Sorted(store) && NothingAtUpper(store, query)
    ensures WhereFrom(store, query, 0) == WhereRun(Expected(store, query, 0), false)
  {
    WhereFromExpected(store, query, 0);
  }

  /** An unbounded upper side makes `bound` throw on the first record found. */
  lemma NoUpperHangs<V>(store: seq<Record<V>>, query: KeyRange, j: nat)
    requires query.upper.None? && j < |store| && InRange(store[j].key, query)
    ensures WhereFrom(store, query, 0) == WhereRun([], true)
  {
    FirstFromIsFirst(store, query, 0);
  }

  /**
   * Landing on a record at the upper bound makes `bound(k, k, true)` throw:
   * with records at 1 and 2 and the closed range [1, 2], the value at 1 is
   * yielded and the generator then hangs instead of yielding the value at 2.
   */
  lemma RecordAtUpperHangs<V>(a: V, b: V)
    ensures var store := [Record(Num(1.0), Some(a)), Record(Num(2.0), Some(b))];
      WhereFrom(store, KeyRange(Some(Num(1.0)), Some(Num(2.0)), false, false), 0) == WhereRun([a], true)
  {
    var store := [Record(Num(1.0), Some(a)), Record(Num(2.0), Some(b))];
    var query := KeyRange(Some(Num(1.0)), Some(Num(2.0)), false, false);
    assert FirstFrom(store, query, 0) == Some(0);
    assert FirstFrom(store, Cur(store, query, 1), 1) == Some(1);
  }

  /**
   * The re-opened range is closed at the top whatever `upperOpen` said: for
   * the half-open range [1, 2) the record at 2 is out of range, yet after the
   * record at 1 the cursor lands on it and the generator hangs.
   */
  lemma UpperOpenDropped<V>(a: V, b: V)
    ensures var store := [Record(Num(1.0), Some(a)), Record(Num(2.0), Some(b))];
      && !InRange(Num(2.0), KeyRange(Some(Num(1.0)), Some(Num(2.0)), false, true))
      && WhereFrom(store, KeyRange(Some(Num(1.0)), Some(Num(2.0)), false, true), 0) == WhereRun([a], true)
  {
    var store := [Record(Num(1.0), Some(a)), Record(Num(2.0), Some(b))];
    var query := KeyRange(Some(Num(1.0)), Some(Num(2.0)), false, true);
    assert FirstFrom(store, query, 0) == Some(0);
    assert FirstFrom(store, Cur(store, query, 1), 1) == Some(1);
  }

  /**
   * In a sorted store, one pass from `Cur(p)` is the first step of
   * `WhereFrom(p)`, and a yield moves the cursor to `Cur(i + 1)`.
   */
  lemma StepAt<V>(store: seq<Record<V>>, query: KeyRange, p: nat)
    requires Sorted(store) && p <= |store|
    ensures var step := StepOf(store, query, Cur(store, query, p));
      && (step.Done? ==> WhereFrom(store, query, p) == WhereRun([], false))
      && (step.Hang? ==> WhereFrom(store, query, p) == WhereRun([], true))
      && (step.Yield? ==>
            var i := FirstFrom(store, Cur(store, query, p), 0).value;
            && p <= i < |store|
            && NextRange(store, query, Cur(store, query, p)) == Cur(store, query, i + 1)
            && WhereFrom(store, query, p) ==
               WhereRun([step.value] + WhereFrom(store, query, i + 1).values, WhereFrom(store, query, i + 1).hung))
  {
    if p > 0 {
      NoneBefore(store, query, p);
      FirstFromSkip(store, Cur(store, query, p), 0, p);
    }
  }

  /** What `get` resolves to: one value (undefined when absent) or every value. */
  datatype GetResult<V> = One(value: Option<V>) | All(values: seq<Option<V>>)

  /** JavaScript truthiness of a key: 0 and "" are falsy, every array is truthy. */
  predicate Truthy(k: Key) {
    match k
    case Num(n) => n != 0.0
    case Str(s) => s != ""
    case Arr(_) => true
  }

  /** `objectStore.get(k)`: the value stored under `k`, undefined when there is none. */
  function Lookup<V>(store: seq<Record<V>>, k: Key): (r: Option<V>)
    ensures r.Some? ==> exists j :: 0 <= j < |store| && store[j].key == k && store[j].value == r
    ensures (forall j :: 0 <= j < |store| ==> store[j].key != k) ==> r.None?
  {
    if store == [] then None
    else if store[0].key == k then store[0].value
    else Lookup(store[1..], k)
  }

  /** In a sorted store, `Lookup` finds the record stored under the key. */
  lemma {:induction false} LookupFinds<V>(store: seq<Record<V>>, j: nat)
    requires Sorted(store) && j < |store|
    ensures Lookup(store, store[j].key) == store[j].value
  {
    if j > 0 {
      assert OrderedAt(store, 0, j);
      LessIrreflexive(store[0].key);
      assert store[0].key != store[j].key;
      forall a, b
        ensures OrderedAt(store[1..], a, b)
      {
        assert OrderedAt(store, a + 1, b + 1);
      }
      assert store[1..][j - 1] == store[j];
      LookupFinds(store[1..], j - 1);
    }
  }

  /**
   * `get(key)`: a truthy key reads one record; a missing or falsy key, 0 and
   * "" included, reads the whole store in key order.
   */
  function Get<V>(store: seq<Record<V>>, key: Option<Key>): (r: GetResult<V>)
    ensures r.One? <==> key.Some? && Truthy(key.value)
    ensures r.One? ==> r.value == Lookup(store, key.value)
    ensures r.All? ==> |r.values| == |store| && forall j :: 0 <= j < |store| ==> r.values[j] == store[j].value
  {
    if key.Some? && Truthy(key.value) then One(Lookup(store, key.value))
    else All(seq(|store|, j requires 0 <= j < |store| => store[j].value))
  }
}
