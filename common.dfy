/**
  Helpers shared by the slices, the list views and the mock backend: an option
  type, the JavaScript string operations the views rely on (`toLowerCase`,
  `includes`, `trim`), ordered subsequences, and the `findIndex` / `filter`
  pair that every reducer uses to locate or drop a record by id.
*/
module Common {

  datatype Option<T> = None | Some(value: T)

  function Max(a: int, b: int): int { if a < b then b else a }

  function Min(a: int, b: int): int { if a < b then a else b }

  // ---------------------------------------------------------------------------
  // String.prototype.toLowerCase, restricted to ASCII letters
  // ---------------------------------------------------------------------------

  function LowerChar(c: char): char {
    if 'A' <= c <= 'Z' then (c as int - 'A' as int + 'a' as int) as char else c
  }

  function ToLower(s: string): (r: string)
    ensures |r| == |s|
    ensures forall i :: 0 <= i < |s| ==> r[i] == LowerChar(s[i])
  {
    if s == [] then [] else [LowerChar(s[0])] + ToLower(s[1..])
  }

  /** Lower-casing twice is lower-casing once. */
  lemma ToLowerIdempotent(s: string)
    ensures ToLower(ToLower(s)) == ToLower(s)
  {
  }

  // ---------------------------------------------------------------------------
  // String.prototype.includes
  // ---------------------------------------------------------------------------

  /** `s.includes(sub)`: `sub` occurs in `s` at some offset. */
  predicate Includes(s: string, sub: string) {
    sub <= s || (s != [] && Includes(s[1..], sub))
  }

  /** An occurrence at offset `i` makes `Includes` true. */
  lemma {:induction false} IncludesAt(s: string, sub: string, i: nat)
    requires i + |sub| <= |s| && s[i..i + |sub|] == sub
    ensures Includes(s, sub)
  {
    if i > 0 {
      assert s[1..][i - 1..i - 1 + |sub|] == s[i..i + |sub|];
      IncludesAt(s[1..], sub, i - 1);
    } else {
      assert sub == s[..|sub|];
    }
  }

  /** `Includes` is witnessed by an offset: the two definitions agree. */
  lemma {:induction false} IncludesWitness(s: string, sub: string) returns (i: nat)
    requires Includes(s, sub)
    ensures i + |sub| <= |s| && s[i..i + |sub|] == sub
  {
    if sub <= s {
      i := 0;
    } else {
      var j := IncludesWitness(s[1..], sub);
      assert s[1..][j..j + |sub|] == s[j + 1..j + 1 + |sub|];
      i := j + 1;
    }
  }

  // ---------------------------------------------------------------------------
  // String.prototype.trim: white space and line terminators of ECMAScript
  // ---------------------------------------------------------------------------

  /** The code points `trim` removes: WhiteSpace (tab, vertical tab, form feed,
      zero-width no-break space and every space separator) and LineTerminator. */
  predicate IsSpace(c: char) {
    || c == '\t' || c == '\U{000B}' || c == '\U{000C}' || c == '\U{FEFF}'
    || c == ' ' || c == '\U{00A0}' || c == '\U{1680}'
    || ('\U{2000}' <= c <= '\U{200A}')
    || c == '\U{202F}' || c == '\U{205F}' || c == '\U{3000}'
    || c == '\n' || c == '\r' || c == '\U{2028}' || c == '\U{2029}'
  }

  /** Every character of `s` satisfies `p`. */
  predicate AllOf(s: string, p: char -> bool) {
    forall i :: 0 <= i < |s| ==> p(s[i])
  }

  /** `s` with its leading run of `p` characters removed. */
  function DropLeading(s: string, p: char -> bool): string {
    if s != [] && p(s[0]) then DropLeading(s[1..], p) else s
  }

  /** `s` with its trailing run of `p` characters removed. */
  function DropTrailing(s: string, p: char -> bool): string {
    if s != [] && p(s[|s| - 1]) then DropTrailing(s[..|s| - 1], p) else s
  }

  /** What is left of `s` is a suffix of it that does not start with a `p`
      character; every removed character satisfies `p`, and the rest is empty
      exactly when every character does. */
  lemma {:induction false} DropLeadingFacts(s: string, p: char -> bool)
    ensures var r := DropLeading(s, p);
      && |r| <= |s| && r == s[|s| - |r|..]
      && AllOf(s[..|s| - |r|], p)
      && (r == [] || !p(r[0]))
      && (r == [] <==> AllOf(s, p))
  {
    if s != [] && p(s[0]) {
      DropLeadingFacts(s[1..], p);
      assert forall i :: 0 < i < |s| ==> s[i] == s[1..][i - 1];
    }
  }

  /** What is left of `s` is a prefix of it that does not end with a `p`
      character; every removed character satisfies `p`, and the rest is empty
      exactly when every character does. */
  lemma {:induction false} DropTrailingFacts(s: string, p: char -> bool)
    ensures var r := DropTrailing(s, p);
      && |r| <= |s| && r == s[..|r|]
      && AllOf(s[|r|..], p)
      && (r == [] || !p(r[|r| - 1]))
      && (r == [] <==> AllOf(s, p))
  {
    if s != [] && p(s[|s| - 1]) {
      DropTrailingFacts(s[..|s| - 1], p);
      assert forall i :: 0 <= i < |s| - 1 ==> s[i] == s[..|s| - 1][i];
    }
  }

  /** `r` sits in `s` at offset `k`, and everything of `s` before and after it
      satisfies `p`. */
  predicate StrippedAt(s: string, r: string, p: char -> bool, k: nat) {
    && k + |r| <= |s| && s[k..k + |r|] == r
    && AllOf(s[..k], p) && AllOf(s[k + |r|..], p)
  }

  /** The piece of `s` left after removing the runs of `p` at both ends. */
  function Strip(s: string, p: char -> bool): (r: string)
    ensures r == [] || (!p(r[0]) && !p(r[|r| - 1]))
    ensures r == [] <==> AllOf(s, p)
    ensures exists k :: StrippedAt(s, r, p, k)
    ensures Includes(s, r)
  {
    StripFacts(s, p);
    StripOffset(s, p);
    DropTrailing(DropLeading(s, p), p)
  }

  lemma StripFacts(s: string, p: char -> bool)
    ensures var r := DropTrailing(DropLeading(s, p), p);
      && (r == [] || (!p(r[0]) && !p(r[|r| - 1])))
      && (r == [] <==> AllOf(s, p))
      && Includes(s, r)
  {
    var t := DropLeading(s, p);
    var r := DropTrailing(t, p);
    DropLeadingFacts(s, p);
    DropTrailingFacts(t, p);
    if t != [] {
      assert !p(t[0]);
      assert !AllOf(t, p);
      assert r != [];
      assert r[0] == t[0];
    }
    var k := |s| - |t|;
    assert r == s[k..][..|r|];
    assert r == s[k..k + |r|];
    IncludesAt(s, r, k);
  }

  /** Only runs of `p` characters are removed, at the two ends. */
  lemma StripOffset(s: string, p: char -> bool)
    ensures exists k :: StrippedAt(s, DropTrailing(DropLeading(s, p), p), p, k)
  {
    var t := DropLeading(s, p);
    var r := DropTrailing(t, p);
    DropLeadingFacts(s, p);
    DropTrailingFacts(t, p);
    var k := |s| - |t|;
    assert s[k..k + |r|] == t[..|r|] == r;
    assert s[k + |r|..] == t[|r|..];
    assert StrippedAt(s, r, p, k);
  }

  /** Stripping a stripped string changes nothing. */
  lemma StripIdempotent(s: string, p: char -> bool)
    ensures Strip(Strip(s, p), p) == Strip(s, p)
  {
    var r := Strip(s, p);
    if r != [] {
      assert DropLeading(r, p) == r;
      assert DropTrailing(r, p) == r;
    }
  }

  /** `s.trim()`. */
  function Trim(s: string): (r: string)
    ensures r == [] || (!IsSpace(r[0]) && !IsSpace(r[|r| - 1]))
    ensures r == [] <==> AllOf(s, IsSpace)
    ensures exists k :: StrippedAt(s, r, IsSpace, k)
    ensures Includes(s, r)
  {
    Strip(s, IsSpace)
  }

  /** Trimming an already trimmed string changes nothing. */
  lemma TrimIdempotent(s: string)
    ensures Trim(Trim(s)) == Trim(s)
  {
    StripIdempotent(s, IsSpace);
  }

  /** A sequence is the part before position `i`, the element there, and the rest. */
  lemma SplitAt<T>(s: seq<T>, i: nat)
    requires i < |s|
    ensures s == s[..i] + [s[i]] + s[i + 1..]
  {
    assert s[i..] == [s[i]] + s[i + 1..];
    assert s == s[..i] + s[i..];
  }

  // ---------------------------------------------------------------------------
  // Ordered subsequences
  // ---------------------------------------------------------------------------

  /** `a` can be obtained from `b` by deleting elements, keeping the order. */
  predicate IsSubsequence<T(==)>(a: seq<T>, b: seq<T>)
    decreases |b|
  {
    if a == [] then true
    else if b == [] then false
    else if a[0] == b[0] then IsSubsequence(a[1..], b[1..])
    else IsSubsequence(a, b[1..])
  }

  /** Every sequence is an ordered subsequence of itself. */
  lemma {:induction false} SubsequenceOfItself<T>(s: seq<T>)
    ensures IsSubsequence(s, s)
  {
    if s != [] {
      SubsequenceOfItself(s[1..]);
    }
  }

  /** `s.filter(p)`: the elements that satisfy `p`, in their order in `s`. */
  function Filter<T(==,!new)>(s: seq<T>, p: T -> bool): (r: seq<T>)
    ensures IsSubsequence(r, s)
    ensures forall i :: 0 <= i < |r| ==> r[i] in s && p(r[i])
    ensures forall i :: 0 <= i < |s| && p(s[i]) ==> s[i] in r
    ensures forall x :: multiset(r)[x] == if p(x) then multiset(s)[x] else 0
  {
    assert s != [] ==> s == [s[0]] + s[1..];
    if s == [] then []
    else if p(s[0]) then [s[0]] + Filter(s[1..], p)
    else Filter(s[1..], p)
  }

  /** A filter that every element passes keeps the sequence as it is. */
  lemma {:induction false} FilterAll<T(!new)>(s: seq<T>, p: T -> bool)
    requires forall i :: 0 <= i < |s| ==> p(s[i])
    ensures Filter(s, p) == s
  {
    if s != [] {
      FilterAll(s[1..], p);
    }
  }

  // ---------------------------------------------------------------------------
  // Lookup and removal by id (Array.prototype.findIndex and filter)
  // ---------------------------------------------------------------------------

  /** `s.findIndex(x => key(x) === k)`: the first position whose key is `k`, or -1. */
  function FirstIndex<T>(s: seq<T>, key: T -> string, k: string): (r: int)
    ensures -1 <= r < |s|
    ensures 0 <= r ==> key(s[r]) == k
    ensures forall j :: 0 <= j < |s| && (r < 0 || j < r) ==> key(s[j]) != k
  {
    if s == [] then -1
    else if key(s[0]) == k then 0
    else
      var r := FirstIndex(s[1..], key, k);
      if r < 0 then -1 else r + 1
  }

  /** The scan `find` and `findIndex` perform, front to back. */
  method FindIndex<T>(s: seq<T>, key: T -> string, k: string) returns (r: int)
    ensures r == FirstIndex(s, key, k)
  {
    var i := 0;
    while i < |s|
      invariant 0 <= i <= |s|
      invariant forall j :: 0 <= j < i ==> key(s[j]) != k
    {
      if key(s[i]) == k {
        return i;
      }
      i := i + 1;
    }
    return -1;
  }

  /** Rewriting an element with one of the same key moves no first occurrence. */
  lemma {:induction false} FirstIndexAfterUpdate<T>(s: seq<T>, key: T -> string, i: nat, x: T, k: string)
    requires i < |s| && key(x) == key(s[i])
    ensures FirstIndex(s[i := x], key, k) == FirstIndex(s, key, k)
  {
    if i > 0 {
      assert s[i := x][1..] == s[1..][i - 1 := x];
      FirstIndexAfterUpdate(s[1..], key, i - 1, x, k);
    }
  }

  predicate UniqueKeys<T>(s: seq<T>, key: T -> string) {
    forall i, j :: 0 <= i < j < |s| ==> key(s[i]) != key(s[j])
  }

  /** `s.filter(x => key(x) !== k)`: every element whose key is not `k`, in order. */
  function Without<T(==,!new)>(s: seq<T>, key: T -> string, k: string): (r: seq<T>)
    ensures IsSubsequence(r, s)
    ensures forall i :: 0 <= i < |r| ==> r[i] in s && key(r[i]) != k
    ensures forall i :: 0 <= i < |s| && key(s[i]) != k ==> s[i] in r
  {
    if s == [] then []
    else if key(s[0]) == k then Without(s[1..], key, k)
    else [s[0]] + Without(s[1..], key, k)
  }

  /** Removal keeps every element whose key is not `k` as often as it occurs
      in `s`, and no element with key `k`. */
  lemma {:induction false} WithoutCounts<T(!new)>(s: seq<T>, key: T -> string, k: string)
    ensures forall x :: multiset(Without(s, key, k))[x] == if key(x) != k then multiset(s)[x] else 0
  {
    if s != [] {
      WithoutCounts(s[1..], key, k);
      assert s == [s[0]] + s[1..];
    }
  }

  /** Removing a key that does not occur leaves the sequence as it was. */
  lemma {:induction false} WithoutAbsent<T(!new)>(s: seq<T>, key: T -> string, k: string)
    requires FirstIndex(s, key, k) < 0
    ensures Without(s, key, k) == s
  {
    if s != [] {
      WithoutAbsent(s[1..], key, k);
    }
  }

  lemma UniqueKeysTail<T>(s: seq<T>, key: T -> string)
    requires s != [] && UniqueKeys(s, key)
    ensures UniqueKeys(s[1..], key)
    ensures forall j :: 0 <= j < |s| - 1 ==> key(s[1..][j]) != key(s[0])
  {
    var tail := s[1..];
    forall a, b | 0 <= a < b < |tail| ensures key(tail[a]) != key(tail[b]) {
      assert tail[a] == s[a + 1] && tail[b] == s[b + 1];
    }
    forall j | 0 <= j < |tail| ensures key(tail[j]) != key(s[0]) {
      assert tail[j] == s[j + 1];
    }
  }

  /** With unique keys, removing a present key drops exactly that one element. */
  lemma {:induction false} WithoutUnique<T(!new)>(s: seq<T>, key: T -> string, k: string)
    requires UniqueKeys(s, key) && 0 <= FirstIndex(s, key, k)
    ensures var i := FirstIndex(s, key, k); Without(s, key, k) == s[..i] + s[i + 1..]
    ensures |Without(s, key, k)| == |s| - 1
  {
    var i := FirstIndex(s, key, k);
    UniqueKeysTail(s, key);
    if i == 0 {
      WithoutAbsent(s[1..], key, k);
      assert s[..i] + s[i + 1..] == s[1..];
    } else {
      assert FirstIndex(s[1..], key, k) == i - 1;
      WithoutUnique(s[1..], key, k);
      WithoutKeepsHead(s, key, k, i);
    }
  }

  lemma WithoutKeepsHead<T(!new)>(s: seq<T>, key: T -> string, k: string, i: nat)
    requires 0 < i < |s| && key(s[0]) != k
    requires Without(s[1..], key, k) == s[1..][..i - 1] + s[1..][i..]
    ensures Without(s, key, k) == s[..i] + s[i + 1..]
  {
    assert Without(s, key, k) == [s[0]] + Without(s[1..], key, k);
    ConsSplit(s, i);
  }

  lemma ConsSplit<T>(s: seq<T>, i: nat)
    requires 0 < i < |s|
    ensures [s[0]] + (s[1..][..i - 1] + s[1..][i..]) == s[..i] + s[i + 1..]
  {
    assert s[..i] == [s[0]] + s[1..][..i - 1];
    assert s[i + 1..] == s[1..][i..];
  }
  /** An element that survives the removal can still be found by its key. */
  lemma FoundAfterWithout<T(!new)>(s: seq<T>, key: T -> string, k: string, j: nat)
    requires j < |s| && key(s[j]) != k
    ensures 0 <= FirstIndex(Without(s, key, k), key, key(s[j]))
  {
    var rest := Without(s, key, k);
    assert s[j] in rest;
    var m :| 0 <= m < |rest| && rest[m] == s[j];
  }

  /** A key carried by exactly one element: removing it shortens the sequence by one. */
  lemma {:induction false} WithoutOnce<T(!new)>(s: seq<T>, key: T -> string, i: nat)
    requires i < |s|
    requires forall m :: 0 <= m < |s| && m != i ==> key(s[m]) != key(s[i])
    ensures |Without(s, key, key(s[i]))| == |s| - 1
  {
    var k := key(s[i]);
    var tail := s[1..];
    if i == 0 {
      assert forall m :: 0 <= m < |tail| ==> tail[m] == s[m + 1];
      WithoutAbsent(tail, key, k);
    } else {
      assert tail[i - 1] == s[i];
      forall m | 0 <= m < |tail| && m != i - 1 ensures key(tail[m]) != k {
        assert tail[m] == s[m + 1];
      }
      WithoutOnce(tail, key, i - 1);
    }
  }
}
