/**
  The sort both list views run: `Array.prototype.sort` with a comparator that
  returns -1, 1 or 0 from `<` and `>` on a per-field key, read through the
  direction. Section 23.1.3 of ECMA-262 requires the sort to be stable (since
  the 2019 edition), so for a consistent comparator its result is determined:
  the stable insertion sort below is that result, and `SortedStableIsUnique`
  shows that no other ordering meets the standard's requirements.
*/
module Sorting {

  datatype Direction = Asc | Desc

  /** A comparison key: a number (`Number(value)`), a lower-cased string, or a
      number that is absent (`Number(undefined)`, which compares equal to
      everything of its kind). One field never mixes kinds. */
  datatype SortKey = Missing | Num(n: real) | Text(s: string)

  /** JavaScript `<` on two strings, compared here character by character by
      code point, a proper prefix before its extensions. */
  predicate TextLess(a: string, b: string) {
    if b == [] then false
    else if a == [] then true
    else if a[0] != b[0] then a[0] < b[0]
    else TextLess(a[1..], b[1..])
  }

  lemma {:induction false} TextLessIrreflexive(a: string)
    ensures !TextLess(a, a)
  {
    if a != [] {
      TextLessIrreflexive(a[1..]);
    }
  }

  lemma {:induction false} TextLessTransitive(a: string, b: string, c: string)
    requires TextLess(a, b) && TextLess(b, c)
    ensures TextLess(a, c)
  {
    if a != [] && a[0] == b[0] && b[0] == c[0] {
      TextLessTransitive(a[1..], b[1..], c[1..]);
    }
  }

  lemma {:induction false} TextLessTotal(a: string, b: string)
    requires a != b
    ensures TextLess(a, b) || TextLess(b, a)
  {
    if a != [] && b != [] && a[0] == b[0] {
      assert a == [a[0]] + a[1..];
      assert b == [b[0]] + b[1..];
      TextLessTotal(a[1..], b[1..]);
    }
  }

  function Rank(k: SortKey): nat {
    match k
    case Missing => 0
    case Num(_) => 1
    case Text(_) => 2
  }

  /** The `<` the comparator applies to two keys. */
  predicate KeyLess(a: SortKey, b: SortKey) {
    if Rank(a) != Rank(b) then Rank(a) < Rank(b)
    else match a
      case Missing => false
      case Num(x) => x < b.n
      case Text(x) => TextLess(x, b.s)
  }

  /** `KeyLess` is a strict total order on keys. */
  lemma KeyLessStrictTotal(a: SortKey, b: SortKey, c: SortKey)
    ensures !KeyLess(a, a)
    ensures KeyLess(a, b) && KeyLess(b, c) ==> KeyLess(a, c)
    ensures a != b ==> KeyLess(a, b) || KeyLess(b, a)
  {
    if a.Text? {
      TextLessIrreflexive(a.s);
    }
    if KeyLess(a, b) && KeyLess(b, c) && a.Text? && b.Text? && c.Text? {
      TextLessTransitive(a.s, b.s, c.s);
    }
    if a != b && a.Text? && b.Text? {
      TextLessTotal(a.s, b.s);
    }
  }

  /** The comparator returns a negative number: `a` goes before `b`. */
  predicate Before(a: SortKey, b: SortKey, dir: Direction) {
    if dir == Asc then KeyLess(a, b) else KeyLess(b, a)
  }

  /** "Not after" chains: if `b` is not before `a` and `c` not before `b`,
      then `c` is not before `a`. */
  lemma NotBeforeTransitive(a: SortKey, b: SortKey, c: SortKey, dir: Direction)
    requires !Before(b, a, dir) && !Before(c, b, dir)
    ensures !Before(c, a, dir)
  {
    KeyLessStrictTotal(a, b, c);
    KeyLessStrictTotal(c, a, b);
    KeyLessStrictTotal(b, c, a);
    KeyLessStrictTotal(a, c, b);
    KeyLessStrictTotal(c, b, a);
    KeyLessStrictTotal(b, a, c);
  }

  /** Ordered by the comparator: no later element belongs before an earlier one. */
  ghost predicate SortedBy<T>(s: seq<T>, key: T -> SortKey, dir: Direction) {
    forall i, j :: 0 <= i < j < |s| ==> !Before(key(s[j]), key(s[i]), dir)
  }

  /** The elements of `s` whose key is `k`, in their order in `s`. Stability
      means the sort keeps this subsequence for every key. */
  function WithKey<T>(s: seq<T>, key: T -> SortKey, k: SortKey): seq<T> {
    if s == [] then [] else (if key(s[0]) == k then [s[0]] else []) + WithKey(s[1..], key, k)
  }

  /** Insert `x` before the first element that does not belong before it. */
  function Insert<T>(x: T, s: seq<T>, key: T -> SortKey, dir: Direction): (r: seq<T>)
    ensures multiset(r) == multiset(s) + multiset{x}
  {
    if s == [] then [x]
    else if Before(key(s[0]), key(x), dir) then
      assert s == [s[0]] + s[1..];
      [s[0]] + Insert(x, s[1..], key, dir)
    else [x] + s
  }

  /** The result of `sort` with this comparator: a stable insertion sort. */
  function StableSort<T>(s: seq<T>, key: T -> SortKey, dir: Direction): (r: seq<T>)
    ensures multiset(r) == multiset(s)
    ensures |r| == |s|
  {
    if s == [] then []
    else
      assert s == [s[0]] + s[1..];
      Insert(s[0], StableSort(s[1..], key, dir), key, dir)
  }

  lemma {:induction false} InsertSorted<T>(x: T, s: seq<T>, key: T -> SortKey, dir: Direction)
    requires SortedBy(s, key, dir)
    ensures SortedBy(Insert(x, s, key, dir), key, dir)
  {
    var r := Insert(x, s, key, dir);
    if s == [] {
    } else if Before(key(s[0]), key(x), dir) {
      var tail := Insert(x, s[1..], key, dir);
      InsertSorted(x, s[1..], key, dir);
      forall j | 0 <= j < |tail| ensures !Before(key(tail[j]), key(s[0]), dir) {
        assert tail[j] in multiset(s[1..]) + multiset{x};
        if tail[j] == x {
          KeyLessStrictTotal(key(x), key(s[0]), key(x));
        } else {
          var m :| 0 <= m < |s[1..]| && s[1..][m] == tail[j];
          assert s[1 + m] == tail[j];
        }
      }
    } else {
      forall j | 1 < j < |r| ensures !Before(key(r[j]), key(x), dir) {
        assert r[j] == s[j - 1];
        NotBeforeTransitive(key(x), key(s[0]), key(s[j - 1]), dir);
      }
    }
  }

  /** The sorted output is ordered by the key in the chosen direction. */
  lemma {:induction false} StableSortSorted<T>(s: seq<T>, key: T -> SortKey, dir: Direction)
    ensures SortedBy(StableSort(s, key, dir), key, dir)
  {
    if s != [] {
      StableSortSorted(s[1..], key, dir);
      InsertSorted(s[0], StableSort(s[1..], key, dir), key, dir);
    }
  }

  lemma WithKeyCons<T>(y: T, t: seq<T>, key: T -> SortKey, k: SortKey)
    ensures WithKey([y] + t, key, k) == (if key(y) == k then [y] else []) + WithKey(t, key, k)
  {
    assert ([y] + t)[1..] == t;
  }

  lemma {:induction false} WithKeyInsert<T>(x: T, s: seq<T>, key: T -> SortKey, dir: Direction, k: SortKey)
    ensures WithKey(Insert(x, s, key, dir), key, k)
         == (if key(x) == k then [x] else []) + WithKey(s, key, k)
  {
    if s == [] {
      WithKeyCons(x, s, key, k);
    } else if Before(key(s[0]), key(x), dir) {
      var y, t := s[0], s[1..];
      assert s == [y] + t;
      // the two keys differ, so at most one of `x` and `y` has key `k`
      KeyLessStrictTotal(key(x), key(x), key(x));
      assert key(y) != key(x);
      var ex := if key(x) == k then [x] else [];
      var ey := if key(y) == k then [y] else [];
      calc {
        WithKey(Insert(x, s, key, dir), key, k);
        { assert Insert(x, s, key, dir) == [y] + Insert(x, t, key, dir); }
        WithKey([y] + Insert(x, t, key, dir), key, k);
        { WithKeyCons(y, Insert(x, t, key, dir), key, k); }
        ey + WithKey(Insert(x, t, key, dir), key, k);
        { WithKeyInsert(x, t, key, dir, k); }
        ey + (ex + WithKey(t, key, k));
        { assert ey == [] || ex == []; }
        ex + (ey + WithKey(t, key, k));
        { WithKeyCons(y, t, key, k); }
        ex + WithKey(s, key, k);
      }
    } else {
      WithKeyCons(x, s, key, k);
    }
  }

  /** Stability: for every key, the elements with that key keep their order. */
  lemma {:induction false} StableSortStable<T>(s: seq<T>, key: T -> SortKey, dir: Direction, k: SortKey)
    ensures WithKey(StableSort(s, key, dir), key, k) == WithKey(s, key, k)
  {
    if s != [] {
      StableSortStable(s[1..], key, dir, k);
      WithKeyInsert(s[0], StableSort(s[1..], key, dir), key, dir, k);
    }
  }

  lemma {:induction false} WithKeyHas<T>(s: seq<T>, key: T -> SortKey, i: nat)
    requires i < |s|
    ensures s[i] in WithKey(s, key, key(s[i]))
  {
    if i > 0 {
      WithKeyHas(s[1..], key, i - 1);
    }
  }

  lemma {:induction false} WithKeyOnly<T>(s: seq<T>, key: T -> SortKey, k: SortKey, x: T)
    requires x in WithKey(s, key, k)
    ensures exists j :: 0 <= j < |s| && s[j] == x && key(x) == k
  {
    if s != [] && !(key(s[0]) == k && x == s[0]) {
      WithKeyOnly(s[1..], key, k, x);
      var j :| 0 <= j < |s[1..]| && s[1..][j] == x && key(x) == k;
      assert s[j + 1] == x;
    }
  }

  /** Two sequences that are ordered by the comparator and agree on the
      elements of every key, in order, are equal: the standard's requirements
      on a stable sort leave exactly one result. */
  lemma {:induction false} SortedStableIsUnique<T>(r1: seq<T>, r2: seq<T>, key: T -> SortKey, dir: Direction)
    requires SortedBy(r1, key, dir) && SortedBy(r2, key, dir)
    requires forall k :: WithKey(r1, key, k) == WithKey(r2, key, k)
    ensures r1 == r2
  {
    if r1 == [] && r2 == [] {
      return;
    }
    if r1 == [] || r2 == [] {
      var s := if r1 == [] then r2 else r1;
      WithKeyHas(s, key, 0);
      assert false;
    }
    var a, b := r1[0], r2[0];
    // each head's key occurs in the other sequence, so neither key is before the other
    WithKeyHas(r1, key, 0);
    assert a in WithKey(r2, key, key(a));
    WithKeyOnly(r2, key, key(a), a);
    WithKeyHas(r2, key, 0);
    assert b in WithKey(r1, key, key(b));
    WithKeyOnly(r1, key, key(b), b);
    KeyLessStrictTotal(key(a), key(b), key(a));
    assert key(a) == key(b);
    assert WithKey(r1, key, key(a))[0] == a;
    assert WithKey(r2, key, key(a))[0] == b;
    assert a == b;
    forall k ensures WithKey(r1[1..], key, k) == WithKey(r2[1..], key, k) {
      assert r1 == [a] + r1[1..] && r2 == [a] + r2[1..];
      WithKeyCons(a, r1[1..], key, k);
      WithKeyCons(a, r2[1..], key, k);
      var h := if key(a) == k then [a] else [];
      assert WithKey(r1[1..], key, k) == (h + WithKey(r1[1..], key, k))[|h|..];
      assert WithKey(r2[1..], key, k) == (h + WithKey(r2[1..], key, k))[|h|..];
    }
    SortedStableIsUnique(r1[1..], r2[1..], key, dir);
    assert r1 == [a] + r1[1..] && r2 == [b] + r2[1..];
  }

  /** `StableSort` is the one result section 23.1.3 of ECMA-262 allows: any
      ordering of `s` that is sorted and keeps every key's elements in their
      input order is `StableSort(s)`. */
  lemma StableSortIsTheSort<T>(s: seq<T>, r: seq<T>, key: T -> SortKey, dir: Direction)
    requires SortedBy(r, key, dir)
    requires forall k :: WithKey(r, key, k) == WithKey(s, key, k)
    ensures r == StableSort(s, key, dir)
  {
    StableSortSorted(s, key, dir);
    forall k ensures WithKey(r, key, k) == WithKey(StableSort(s, key, dir), key, k) {
      StableSortStable(s, key, dir, k);
    }
    SortedStableIsUnique(r, StableSort(s, key, dir), key, dir);
  }

  /** `array.sort(comparator)`: the engine's algorithm is not visible; its
      effect, fixed by the standard, is to leave `StableSort` of the old contents. */
  method SortInPlace<T>(a: array<T>, key: T -> SortKey, dir: Direction)
    modifies a
    ensures a[..] == StableSort(old(a[..]), key, dir)
  {
    var sorted := StableSort(a[..], key, dir);
    forall i | 0 <= i < a.Length {
      a[i] := sorted[i];
    }
  }
}
