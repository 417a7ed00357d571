/**
 * The keys an IndexedDB object store sorts by, as section 2.4 (Keys) of the
 * W3C Indexed Database API defines them, restricted to the kinds this
 * program uses: numbers, strings and arrays of keys. Numbers sort below
 * strings, strings below arrays; strings compare by code point, arrays
 * element by element and then by length. `IDBKeyRange` (section 2.9, Key
 * Range) is a lower and an upper bound, each optional and each open or
 * closed.
 */
module IdbKeys {
  import opened Wrappers

  datatype Key = Num(n: real) | Str(s: string) | Arr(items: seq<Key>)

  /** The type order of section 2.4: number < string < array. */
  function Rank(k: Key): nat {
    match k
    case Num(_) => 0
    case Str(_) => 1
    case Arr(_) => 2
  }

  /**
   * Code-point order on strings: a proper prefix sorts first. IndexedDB
   * compares UTF-16 code units instead; the two differ only between a
   * character above U+FFFF and one in U+E000-U+FFFF.
   */
  predicate StrLess(x: string, y: string) {
    if x == [] then y != []
    else if y == [] then false
    else if x[0] != y[0] then x[0] < y[0]
    else StrLess(x[1..], y[1..])
  }

  /** "a is less than b" in the key order. */
  predicate Less(a: Key, b: Key)
    decreases a
  {
    if Rank(a) != Rank(b) then Rank(a) < Rank(b)
    else match a
      case Num(x) => x < b.n
      case Str(x) => StrLess(x, b.s)
      case Arr(x) => SeqLess(x, b.items)
  }

  /** Element-by-element order on arrays of keys: a proper prefix sorts first. */
  predicate SeqLess(x: seq<Key>, y: seq<Key>)
    decreases x
  {
    if x == [] then y != []
    else if y == [] then false
    else if x[0] != y[0] then Less(x[0], y[0])
    else SeqLess(x[1..], y[1..])
  }

  predicate LessEq(a: Key, b: Key) {
    a == b || Less(a, b)
  }

  lemma {:induction false} StrLessIrreflexive(x: string)
    ensures !StrLess(x, x)
  {
    if x != [] {
      StrLessIrreflexive(x[1..]);
    }
  }

  lemma {:induction false} StrLessTransitive(x: string, y: string, z: string)
    requires StrLess(x, y) && StrLess(y, z)
    ensures StrLess(x, z)
  {
    if x != [] && x[0] == y[0] && y[0] == z[0] {
      StrLessTransitive(x[1..], y[1..], z[1..]);
    }
  }

  lemma {:induction false} StrLessTotal(x: string, y: string)
    requires x != y
    ensures StrLess(x, y) || StrLess(y, x)
  {
    if x != [] && y != [] && x[0] == y[0] {
      assert x == [x[0]] + x[1..] && y == [y[0]] + y[1..];
      StrLessTotal(x[1..], y[1..]);
    }
  }

  /** No key is less than itself. */
  lemma {:induction false} LessIrreflexive(a: Key)
    ensures !Less(a, a)
    decreases a
  {
    match a
    case Num(_) =>
    case Str(x) => StrLessIrreflexive(x);
    case Arr(x) => SeqLessIrreflexive(x);
  }

  lemma {:induction false} SeqLessIrreflexive(x: seq<Key>)
    ensures !SeqLess(x, x)
    decreases x
  {
    if x != [] {
      SeqLessIrreflexive(x[1..]);
    }
  }

  /** The key order is transitive. */
  lemma {:induction false} LessTransitive(a: Key, b: Key, c: Key)
    requires Less(a, b) && Less(b, c)
    ensures Less(a, c)
    decreases a
  {
    if Rank(a) == Rank(b) == Rank(c) {
      match a
      case Num(_) =>
      case Str(x) => StrLessTransitive(x, b.s, c.s);
      case Arr(x) => SeqLessTransitive(x, b.items, c.items);
    }
  }

  lemma {:induction false} SeqLessTransitive(x: seq<Key>, y: seq<Key>, z: seq<Key>)
    requires SeqLess(x, y) && SeqLess(y, z)
    ensures SeqLess(x, z)
    decreases x
  {
    if x != [] {
      if x[0] != y[0] {
        if y[0] != z[0] {
          LessTransitive(x[0], y[0], z[0]);
          if x[0] == z[0] {
            LessIrreflexive(x[0]);
          }
        }
      } else if y[0] == z[0] {
        SeqLessTransitive(x[1..], y[1..], z[1..]);
      }
    }
  }

  /** Any two distinct keys are ordered one way or the other. */
  lemma {:induction false} LessTotal(a: Key, b: Key)
    requires a != b
    ensures Less(a, b) || Less(b, a)
    decreases a
  {
    if Rank(a) == Rank(b) {
      match a
      case Num(_) =>
      case Str(x) => StrLessTotal(x, b.s);
      case Arr(x) => SeqLessTotal(x, b.items);
    }
  }

  lemma {:induction false} SeqLessTotal(x: seq<Key>, y: seq<Key>)
    requires x != y
    ensures SeqLess(x, y) || SeqLess(y, x)
    decreases x
  {
    if x != [] && y != [] {
      if x[0] != y[0] {
        LessTotal(x[0], y[0]);
      } else {
        assert x == [x[0]] + x[1..] && y == [y[0]] + y[1..];
        SeqLessTotal(x[1..], y[1..]);
      }
    }
  }

  /** The order is asymmetric. */
  lemma LessAsymmetric(a: Key, b: Key)
    requires Less(a, b)
    ensures !Less(b, a)
  {
    if Less(b, a) {
      LessTransitive(a, b, a);
      LessIrreflexive(a);
    }
  }

  lemma LessEqTransitive(a: Key, b: Key, c: Key)
    requires LessEq(a, b) && LessEq(b, c)
    ensures LessEq(a, c)
  {
    if a != b && b != c {
      LessTransitive(a, b, c);
    }
  }

  /** An `IDBKeyRange`: `None` for an unbounded side. */
  datatype KeyRange = KeyRange(lower: Option<Key>, upper: Option<Key>, lowerOpen: bool, upperOpen: bool)

  /** Section 2.9: a key is in a range when it lies above the lower and below the upper bound. */
  predicate InRange(k: Key, r: KeyRange) {
    && (r.lower.None? || (if r.lowerOpen then Less(r.lower.value, k) else LessEq(r.lower.value, k)))
    && (r.upper.None? || (if r.upperOpen then Less(k, r.upper.value) else LessEq(k, r.upper.value)))
  }

  /**
   * `IDBKeyRange.bound(lower, upper, lowerOpen, upperOpen)`: throws a
   * DataError (`None`) when lower is above upper, or when they are equal and
   * either side is open.
   */
  function Bound(lower: Key, upper: Key, lowerOpen: bool, upperOpen: bool): (r: Option<KeyRange>)
    ensures r.Some? <==> Less(lower, upper) || (lower == upper && !lowerOpen && !upperOpen)
    ensures r.Some? ==> r.value == KeyRange(Some(lower), Some(upper), lowerOpen, upperOpen)
  {
    if Less(lower, upper) || (lower == upper && !lowerOpen && !upperOpen)
    then Some(KeyRange(Some(lower), Some(upper), lowerOpen, upperOpen))
    else None
  }
}
