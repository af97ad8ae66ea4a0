// Shared vocabulary for the Bu-chat model: optional values, the JavaScript
// string and array operations the handlers and components rely on, a tally
// map, a stable descending sort and first-occurrence deduplication.

module Common {

  datatype Option<T> = None | Some(value: T)

  /** A handler's answer: an error status with its message, or a 200 body. */
  datatype Reply<T> = Failure(status: nat, message: string) | Success(value: T)

  /** An optional string is truthy in JavaScript when it is defined and non-empty. */
  predicate Truthy(s: Option<string>) {
    s.Some? && s.value != ""
  }

  /** `s || d` for an optional string. */
  function OrElse(s: Option<string>, d: string): string {
    if Truthy(s) then s.value else d
  }

  /** `s.startsWith(p)`. */
  predicate StartsWith(s: string, p: string) {
    |p| <= |s| && s[..|p|] == p
  }

  /** `s.endsWith(t)`. */
  predicate EndsWith(s: string, t: string) {
    |t| <= |s| && s[|s| - |t|..] == t
  }

  /** `t` occurs in `s` at position `i`. */
  predicate OccursAt(s: string, t: string, i: int) {
    0 <= i && i + |t| <= |s| && s[i..i + |t|] == t
  }

  /** `s.includes(t)`. */
  predicate Includes(s: string, t: string) {
    exists i :: 0 <= i <= |s| && OccursAt(s, t, i)
  }

  lemma IncludesMiddle(a: string, t: string, b: string)
    ensures Includes(a + t + b, t)
  {
    assert OccursAt(a + t + b, t, |a|) by {
      assert (a + t + b)[|a|..|a| + |t|] == t;
    }
  }

  /** What occurs in `s` occurs in any string that contains `s`. */
  lemma IncludesExtend(a: string, s: string, b: string, t: string)
    requires Includes(s, t)
    ensures Includes(a + s + b, t)
  {
    var k :| 0 <= k <= |s| && OccursAt(s, t, k);
    assert (a + s + b)[|a| + k..|a| + k + |t|] == s[k..k + |t|];
    assert OccursAt(a + s + b, t, |a| + k);
  }

  lemma IncludesEmpty(s: string)
    ensures Includes(s, "")
  {
    assert OccursAt(s, "", 0);
  }

  /** ASCII part of `toLowerCase` / `toUpperCase`. */
  function LowerChar(c: char): char {
    if 'A' <= c <= 'Z' then (c as int + 32) as char else c
  }

  function UpperChar(c: char): char {
    if 'a' <= c <= 'z' then (c as int - 32) as char else c
  }

  function ToLower(s: string): (r: string)
    ensures |r| == |s|
    ensures forall i :: 0 <= i < |s| ==> r[i] == LowerChar(s[i])
  {
    if s == [] then [] else [LowerChar(s[0])] + ToLower(s[1..])
  }

  function ToUpper(s: string): (r: string)
    ensures |r| == |s|
    ensures forall i :: 0 <= i < |s| ==> r[i] == UpperChar(s[i])
  {
    if s == [] then [] else [UpperChar(s[0])] + ToUpper(s[1..])
  }

  /** The characters `String.prototype.trim` removes. */
  predicate IsJsSpace(c: char) {
    c == ' ' || c == '\t' || c == '\n' || c == '\r' || c == '\U{000B}' || c == '\U{000C}'
    || c == '\U{00A0}' || c == '\U{1680}' || ('\U{2000}' <= c <= '\U{200A}')
    || c == '\U{2028}' || c == '\U{2029}' || c == '\U{202F}' || c == '\U{205F}'
    || c == '\U{3000}' || c == '\U{FEFF}'
  }

  /** `!s.trim()`: the string is empty after trimming. */
  predicate IsBlank(s: string) {
    forall i :: 0 <= i < |s| ==> IsJsSpace(s[i])
  }

  function Min(a: real, b: real): real { if a <= b then a else b }
  function Max(a: real, b: real): real { if a >= b then a else b }

  /** `xs.slice(0, limit)`, including JavaScript's reading of a negative end. */
  function Take<T>(xs: seq<T>, limit: int): (r: seq<T>)
    ensures |r| <= |xs|
    ensures r == xs[..|r|]
    ensures 0 <= limit ==> |r| == if limit < |xs| then limit else |xs|
    ensures limit < 0 ==> |r| == if |xs| + limit > 0 then |xs| + limit else 0
  {
    if 0 <= limit then
      (if limit < |xs| then xs[..limit] else xs)
    else
      (if |xs| + limit > 0 then xs[..|xs| + limit] else [])
  }

  /** Decimal digit of a number below ten. */
  function Digit(d: nat): char
    requires d < 10
  {
    "0123456789"[d]
  }

  /** `String(n)` for a natural number. */
  function NatToString(n: nat): (r: string)
    ensures |r| >= 1
    ensures (|r| == 1) == (n < 10)
    decreases n
  {
    if n < 10 then [Digit(n)] else NatToString(n / 10) + [Digit(n % 10)]
  }

  lemma DigitInjective(a: nat, b: nat)
    requires a < 10 && b < 10 && Digit(a) == Digit(b)
    ensures a == b
  {
  }

  lemma {:induction false} NatToStringInjective(m: nat, n: nat)
    requires NatToString(m) == NatToString(n)
    ensures m == n
    decreases m
  {
    if m < 10 {
      DigitInjective(m, n);
    } else {
      var sm, sn := NatToString(m), NatToString(n);
      assert sm[|sm| - 1] == Digit(m % 10);
      assert sn[|sn| - 1] == Digit(n % 10);
      DigitInjective(m % 10, n % 10);
      assert sm[..|sm| - 1] == NatToString(m / 10);
      assert sn[..|sn| - 1] == NatToString(n / 10);
      NatToStringInjective(m / 10, n / 10);
    }
  }

  /** `parts.join(sep)`. */
  function Join(parts: seq<string>, sep: string): string {
    if |parts| == 0 then ""
    else if |parts| == 1 then parts[0]
    else Join(parts[..|parts| - 1], sep) + sep + parts[|parts| - 1]
  }

  /** Number of elements of `xs` equal to `x`. */
  function Count<T(==)>(xs: seq<T>, x: T): nat {
    if xs == [] then 0 else Count(xs[..|xs| - 1], x) + (if xs[|xs| - 1] == x then 1 else 0)
  }

  lemma {:induction false} CountAppend<T>(xs: seq<T>, ys: seq<T>, x: T)
    ensures Count(xs + ys, x) == Count(xs, x) + Count(ys, x)
    decreases |ys|
  {
    if ys == [] {
      assert xs + ys == xs;
    } else {
      assert (xs + ys)[..|xs + ys| - 1] == xs + ys[..|ys| - 1];
      CountAppend(xs, ys[..|ys| - 1], x);
    }
  }

  lemma {:induction false} CountIsMultiplicity<T>(xs: seq<T>, x: T)
    ensures Count(xs, x) == multiset(xs)[x]
    decreases |xs|
  {
    if xs != [] {
      CountIsMultiplicity(xs[..|xs| - 1], x);
      assert xs == xs[..|xs| - 1] + [xs[|xs| - 1]];
    }
  }

  /** Extending a prefix of `b` by one element, after a fixed head `a`. */
  /** A sequence is the part before position `i`, the element there and the part after it. */
  lemma SplitAround<T>(t: seq<T>, i: nat)
    requires i < |t|
    ensures t == (t[..i] + [t[i]]) + t[i + 1..]
  {
  }

  lemma AppendPrefixSnoc<T>(a: seq<T>, b: seq<T>, j: nat)
    requires j < |b|
    ensures a + b[..j + 1] == (a + b[..j]) + [b[j]]
  {
    assert b[..j + 1] == b[..j] + [b[j]];
  }

  // ---------------------------------------------------------------- tallies

  /** `m[k] || 0`: the weight a tally gives a key it may not hold. */
  function Weight(m: map<string, nat>, k: string): nat {
    if k in m then m[k] else 0
  }

  /** `m[k] = (m[k] || 0) + 1`. */
  function Bump(m: map<string, nat>, k: string): (r: map<string, nat>)
    ensures Weight(r, k) == Weight(m, k) + 1
    ensures forall j :: j != k ==> Weight(r, j) == Weight(m, j)
    ensures r.Keys == m.Keys + {k}
  {
    m[k := Weight(m, k) + 1]
  }

  /** Bump every element of `ks`, in order. */
  function BumpAll(m: map<string, nat>, ks: seq<string>): map<string, nat>
    decreases |ks|
  {
    if ks == [] then m
    else Bump(BumpAll(m, ks[..|ks| - 1]), ks[|ks| - 1])
  }

  /** After bumping every element of `ks`, a key weighs its old weight plus its occurrences in `ks`. */
  lemma {:induction false} BumpAllWeight(m: map<string, nat>, ks: seq<string>, j: string)
    ensures Weight(BumpAll(m, ks), j) == Weight(m, j) + Count(ks, j)
    decreases |ks|
  {
    if ks != [] {
      BumpAllWeight(m, ks[..|ks| - 1], j);
    }
  }

  /** The keys of the tally are the old keys and the bumped ones. */
  lemma {:induction false} BumpAllKeys(m: map<string, nat>, ks: seq<string>, j: string)
    ensures j in BumpAll(m, ks) <==> j in m || j in ks
    decreases |ks|
  {
    if ks != [] {
      BumpAllKeys(m, ks[..|ks| - 1], j);
      assert ks == ks[..|ks| - 1] + [ks[|ks| - 1]];
    }
  }

  lemma BumpAllSnoc(m: map<string, nat>, ks: seq<string>, k: string)
    ensures BumpAll(m, ks + [k]) == Bump(BumpAll(m, ks), k)
  {
    assert (ks + [k])[..|ks|] == ks;
  }

  /** A tally holds only keys it has counted at least once. */
  predicate Positive(m: map<string, nat>) {
    forall k :: k in m ==> m[k] >= 1
  }

  lemma {:induction false} BumpAllPositive(m: map<string, nat>, ks: seq<string>)
    requires Positive(m)
    ensures Positive(BumpAll(m, ks))
    decreases |ks|
  {
    if ks != [] {
      BumpAllPositive(m, ks[..|ks| - 1]);
    }
  }

  /** Sum of all the weights of a tally. */
  ghost function Total(m: map<string, nat>): nat
    decreases |m|
  {
    if |m| == 0 then 0
    else
      var k :| k in m;
      m[k] + Total(m - {k})
  }

  lemma {:induction false} TotalRemove(m: map<string, nat>, k: string)
    requires k in m
    ensures Total(m) == m[k] + Total(m - {k})
    decreases |m|, 1
  {
    assert |m| > 0;
    var j :| j in m && Total(m) == m[j] + Total(m - {j});
    if j != k {
      TotalExchange(m, j, k);
    }
  }

  /** Removing either of two keys first gives the same total. */
  lemma {:induction false} TotalExchange(m: map<string, nat>, j: string, k: string)
    requires j in m && k in m && j != k
    ensures m[j] + Total(m - {j}) == m[k] + Total(m - {k})
    decreases |m|, 0
  {
    var mj, mk := m - {j}, m - {k};
    assert k in mj && |mj| < |m|;
    assert j in mk && |mk| < |m|;
    TotalRemove(mj, k);
    TotalRemove(mk, j);
    assert mj - {k} == mk - {j};
  }

  lemma TotalBump(m: map<string, nat>, k: string)
    ensures Total(Bump(m, k)) == Total(m) + 1
  {
    var b := Bump(m, k);
    TotalRemove(b, k);
    if k in m {
      TotalRemove(m, k);
      assert b - {k} == m - {k};
    } else {
      assert b - {k} == m;
    }
  }

  lemma {:induction false} TotalBumpAll(m: map<string, nat>, ks: seq<string>)
    ensures Total(BumpAll(m, ks)) == Total(m) + |ks|
    decreases |ks|
  {
    if ks != [] {
      TotalBumpAll(m, ks[..|ks| - 1]);
      TotalBump(BumpAll(m, ks[..|ks| - 1]), ks[|ks| - 1]);
    }
  }

  /** `xs.filter(p)`: the elements satisfying `p`, in their original order. */
  function Filter<T(==,!new)>(xs: seq<T>, p: T -> bool): (r: seq<T>)
    ensures |r| <= |xs|
    ensures forall y :: y in r <==> y in xs && p(y)
    ensures multiset(r) <= multiset(xs)
    ensures (forall i :: 0 <= i < |xs| ==> p(xs[i])) ==> r == xs
    decreases |xs|
  {
    if xs == [] then []
    else
      var rest := Filter(xs[..|xs| - 1], p);
      var last := xs[|xs| - 1];
      assert xs == xs[..|xs| - 1] + [last];
      if p(last) then rest + [last] else rest
  }

  /** Nothing passes the test: nothing is kept. */
  lemma {:induction false} FilterNone<T(!new)>(xs: seq<T>, p: T -> bool)
    requires forall i :: 0 <= i < |xs| ==> !p(xs[i])
    ensures Filter(xs, p) == []
    decreases |xs|
  {
    if xs != [] {
      FilterNone(xs[..|xs| - 1], p);
    }
  }

  lemma FilterSnoc<T(!new)>(xs: seq<T>, x: T, p: T -> bool)
    ensures Filter(xs + [x], p) == if p(x) then Filter(xs, p) + [x] else Filter(xs, p)
  {
    assert (xs + [x])[..|xs|] == xs;
  }

  // ------------------------------------------------------------------ sorting

  /** Non-increasing in `key`. */
  predicate SortedDesc<T>(xs: seq<T>, key: T -> real) {
    forall i, j :: 0 <= i < j < |xs| ==> key(xs[i]) >= key(xs[j])
  }

  /** Place `x` before the first element whose key does not exceed its own. */
  function Insert<T>(x: T, xs: seq<T>, key: T -> real): (r: seq<T>)
    ensures |r| == |xs| + 1
    ensures multiset(r) == multiset(xs) + multiset{x}
  {
    if xs == [] || key(x) >= key(xs[0]) then
      [x] + xs
    else
      assert xs == [xs[0]] + xs[1..];
      [xs[0]] + Insert(x, xs[1..], key)
  }

  /** Inserting into a sorted list keeps it sorted; the new head is `x` or the old one. */
  lemma {:induction false} InsertSorted<T>(x: T, xs: seq<T>, key: T -> real)
    requires SortedDesc(xs, key)
    ensures SortedDesc(Insert(x, xs, key), key)
    ensures Insert(x, xs, key)[0] == x || (|xs| > 0 && Insert(x, xs, key)[0] == xs[0])
  {
    if xs == [] {
    } else if key(x) >= key(xs[0]) {
      ConsSorted(x, xs, key);
    } else {
      var rest := Insert(x, xs[1..], key);
      assert SortedDesc(xs[1..], key);
      InsertSorted(x, xs[1..], key);
      ConsSorted(xs[0], rest, key);
    }
  }

  /** An element no smaller than the head of a sorted list may go in front of it. */
  lemma ConsSorted<T>(y: T, rest: seq<T>, key: T -> real)
    requires SortedDesc(rest, key) && |rest| > 0 && key(rest[0]) <= key(y)
    ensures SortedDesc([y] + rest, key)
  {
    var s := [y] + rest;
    forall i, j | 0 <= i < j < |s|
      ensures key(s[i]) >= key(s[j])
    {
      assert s[j] == rest[j - 1];
      if i > 0 {
        assert s[i] == rest[i - 1];
      } else if j > 1 {
        assert key(rest[0]) >= key(rest[j - 1]);
      }
    }
  }

  /**
   * Array.prototype.sort with comparator `(a, b) => key(b) - key(a)`:
   * a stable sort into non-increasing key order.
   */
  function SortDesc<T>(xs: seq<T>, key: T -> real): (r: seq<T>)
    ensures multiset(r) == multiset(xs)
    ensures |r| == |xs|
    ensures SortedDesc(r, key)
    decreases |xs|
  {
    if xs == [] then []
    else
      assert xs == [xs[0]] + xs[1..];
      InsertSorted(xs[0], SortDesc(xs[1..], key), key);
      Insert(xs[0], SortDesc(xs[1..], key), key)
  }

  lemma TakeSorted<T>(xs: seq<T>, limit: int, key: T -> real)
    requires SortedDesc(xs, key)
    ensures SortedDesc(Take(xs, limit), key)
  {
  }

  /** `xs.map(f)`. */
  function MapSeq<A, B>(xs: seq<A>, f: A -> B): (r: seq<B>)
    ensures |r| == |xs| && forall i :: 0 <= i < |xs| ==> r[i] == f(xs[i])
  {
    seq(|xs|, i requires 0 <= i < |xs| => f(xs[i]))
  }

  lemma MapHas<A, B>(xs: seq<A>, f: A -> B, x: A)
    requires x in xs
    ensures f(x) in MapSeq(xs, f)
  {
    var i :| 0 <= i < |xs| && xs[i] == x;
    assert MapSeq(xs, f)[i] == f(x);
  }

  /** Every item of `pool` left out of `kept` ranks no higher than any kept item. */
  predicate KeptOutrank<T(==)>(kept: seq<T>, pool: seq<T>, key: T -> real) {
    forall x, i :: x in pool && x !in kept && 0 <= i < |kept| ==> key(x) <= key(kept[i])
  }

  /** A prefix of a sorted permutation of `xs` outranks what it leaves out. */
  lemma PrefixOutranks<T>(xs: seq<T>, sorted: seq<T>, r: seq<T>, key: T -> real)
    requires SortedDesc(sorted, key) && multiset(sorted) == multiset(xs)
    requires |r| <= |sorted| && r == sorted[..|r|]
    ensures KeptOutrank(r, xs, key)
  {
    forall x, i | x in xs && x !in r && 0 <= i < |r|
      ensures key(x) <= key(r[i])
    {
      assert x in multiset(sorted);
      var j :| 0 <= j < |sorted| && sorted[j] == x;
      assert sorted[i] == r[i];
    }
  }

  /** Sort by `key` descending and keep the first `limit` items: the highest-keyed ones. */
  function TopBy<T(==)>(xs: seq<T>, key: T -> real, limit: int): (r: seq<T>)
    ensures SortedDesc(r, key)
    ensures KeptOutrank(r, xs, key)
    ensures 0 <= limit ==> |r| <= limit
    ensures |r| <= |xs|
    ensures multiset(r) <= multiset(xs)
    ensures forall i :: 0 <= i < |r| ==> r[i] in xs
    ensures 0 <= limit <= |xs| ==> |r| == limit
    ensures limit >= |xs| ==> multiset(r) == multiset(xs)
  {
    var sorted := SortDesc(xs, key);
    TakeFacts(xs, sorted, limit, key);
    Take(sorted, limit)
  }

  /** One item of the input: either kept, or outranked by everything kept; and kept when the result is short. */
  lemma TopByMember<T>(xs: seq<T>, key: T -> real, limit: int, x: T)
    requires x in xs
    ensures var r := TopBy(xs, key, limit);
      (x !in r ==> forall i :: 0 <= i < |r| ==> key(x) <= key(r[i]))
      && (0 <= limit && |r| < limit ==> x in r)
  {
    var r := TopBy(xs, key, limit);
    if 0 <= limit && |r| < limit {
      assert x in multiset(xs);
    }
  }

  /** Every item of the input is either kept or outranked by everything kept; all are kept when the result is short. */
  lemma TopByAll<T>(xs: seq<T>, key: T -> real, limit: int)
    ensures var r := TopBy(xs, key, limit);
      (forall x :: x in xs && x !in r ==> forall i :: 0 <= i < |r| ==> key(x) <= key(r[i]))
      && (0 <= limit && |r| < limit ==> forall x :: x in xs ==> x in r)
  {
    forall x | x in xs {
      TopByMember(xs, key, limit, x);
    }
  }

  /** The facts about a prefix of a sorted permutation that make it the top `limit` items. */
  lemma TakeFacts<T>(xs: seq<T>, sorted: seq<T>, limit: int, key: T -> real)
    requires SortedDesc(sorted, key) && multiset(sorted) == multiset(xs) && |sorted| == |xs|
    ensures var r := Take(sorted, limit);
      SortedDesc(r, key) && KeptOutrank(r, xs, key)
      && multiset(r) <= multiset(xs) && (forall i :: 0 <= i < |r| ==> r[i] in xs)
      && (limit >= |xs| ==> multiset(r) == multiset(xs))
  {
    var r := Take(sorted, limit);
    TakeSorted(sorted, limit, key);
    PrefixOutranks(xs, sorted, r, key);
    assert sorted == r + sorted[|r|..];
    forall i | 0 <= i < |r| ensures r[i] in xs {
      assert r[i] in multiset(r);
      assert r[i] in multiset(xs);
    }
  }

  // ------------------------------------------------------------ deduplication

  /** No element occurs twice. */
  predicate Distinct<T(==)>(xs: seq<T>) {
    forall i, j :: 0 <= i < j < |xs| ==> xs[i] != xs[j]
  }

  /** `[...new Set(xs)]`: the first occurrence of each element, in order. */
  function Dedup<T(==,!new)>(xs: seq<T>): (r: seq<T>)
    ensures Distinct(r)
    ensures forall y :: y in r <==> y in xs
    ensures |r| <= |xs|
    decreases |xs|
  {
    if xs == [] then []
    else
      var d := Dedup(xs[..|xs| - 1]);
      var last := xs[|xs| - 1];
      assert xs == xs[..|xs| - 1] + [last];
      if last in d then d else d + [last]
  }

  lemma DedupSnoc<T(!new)>(xs: seq<T>, x: T)
    ensures Dedup(xs + [x]) == if x in xs then Dedup(xs) else Dedup(xs) + [x]
  {
    assert (xs + [x])[..|xs|] == xs;
  }
}
