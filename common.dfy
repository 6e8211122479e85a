/** Shared vocabulary of the scanner-hit ledger model: optional values with
    Python truthiness, small numeric helpers, distinctness and element sets of
    sequences, ASCII case mapping and substring search, and the insertion-ordered
    counting dictionary that both the dict-increment loop and collections.Counter
    build. */
module Common {

  /** A value that may be missing (Python's None). */
  datatype Option<T> = None | Some(value: T) {
    /** A dictionary read that falls back to a default when the key is absent. */
    function GetOr(default: T): T {
      if Some? then value else default
    }
  }

  /** Python truthiness of an optional number: None and 0 are both falsy. */
  predicate Truthy(x: Option<real>) {
    x.Some? && x.value != 0.0
  }

  /** Python's `or` between an optional number and a default: the number
      when it is truthy, the default otherwise. */
  function OrElse(x: Option<real>, default: real): real {
    if Truthy(x) then x.value else default
  }

  function Abs(x: real): real {
    if x < 0.0 then -x else x
  }

  function Max(a: real, b: real): real {
    if a >= b then a else b
  }

  function MinNat(a: nat, b: nat): nat {
    if a <= b then a else b
  }

  // ---------------------------------------------------------------------------
  // Sequences as lists with set semantics

  predicate Distinct<T(==)>(s: seq<T>) {
    forall i, j :: 0 <= i < j < |s| ==> s[i] != s[j]
  }

  function Elems<T(==)>(s: seq<T>): set<T> {
    set x | x in s
  }

  lemma {:induction false} ElemsSnoc<T>(s: seq<T>, x: T)
    ensures Elems(s + [x]) == Elems(s) + {x}
  {
    assert forall y :: y in s + [x] <==> y in s || y == x;
  }

  /** A list never has more distinct elements than entries. */
  lemma {:induction false} ElemsBound<T>(s: seq<T>)
    ensures |Elems(s)| <= |s|
  {
    if |s| > 0 {
      var init := s[..|s| - 1];
      assert s == init + [s[|s| - 1]];
      ElemsSnoc(init, s[|s| - 1]);
      ElemsBound(init);
    }
  }

  /** A duplicate-free list has exactly as many distinct elements as entries. */
  lemma {:induction false} DistinctElems<T>(s: seq<T>)
    requires Distinct(s)
    ensures |Elems(s)| == |s|
  {
    if |s| > 0 {
      var init, last := s[..|s| - 1], s[|s| - 1];
      assert s == init + [last];
      ElemsSnoc(init, last);
      forall k | 0 <= k < |init| ensures init[k] != last {
        assert s[k] == init[k];
      }
      DistinctElems(init);
    }
  }

  /** Some element of a non-empty set, such as the next name a directory
      listing yields. */
  method Choose<T>(s: set<T>) returns (x: T)
    requires s != {}
    ensures x in s
  {
    x :| x in s;
  }

  // ---------------------------------------------------------------------------
  // ASCII case mapping and substring search

  function LowerChar(c: char): char {
    if 'A' <= c <= 'Z' then (c as int + 32) as char else c
  }

  function UpperChar(c: char): char {
    if 'a' <= c <= 'z' then (c as int - 32) as char else c
  }

  /** str.lower() on the ASCII letters: no upper-case letter remains, and
      every character that is not an upper-case letter is kept. */
  function Lower(s: string): (r: string)
    ensures |r| == |s|
    ensures forall i :: 0 <= i < |s| ==> r[i] == LowerChar(s[i])
    ensures forall i :: 0 <= i < |r| ==> !('A' <= r[i] <= 'Z')
    ensures forall i :: 0 <= i < |s| && !('A' <= s[i] <= 'Z') ==> r[i] == s[i]
  {
    seq(|s|, i requires 0 <= i < |s| => LowerChar(s[i]))
  }

  /** str.upper() on the ASCII letters: no lower-case letter remains, and
      every character that is not a lower-case letter is kept. */
  function Upper(s: string): (r: string)
    ensures |r| == |s|
    ensures forall i :: 0 <= i < |s| ==> r[i] == UpperChar(s[i])
    ensures forall i :: 0 <= i < |r| ==> !('a' <= r[i] <= 'z')
    ensures forall i :: 0 <= i < |s| && !('a' <= s[i] <= 'z') ==> r[i] == s[i]
  {
    seq(|s|, i requires 0 <= i < |s| => UpperChar(s[i]))
  }

  /** Lowering forgets any earlier upper-casing, so text compares the same
      after lowering whatever its case was. */
  lemma LowerUpper(s: string)
    ensures Lower(Upper(s)) == Lower(s)
  {
    var a, b := Lower(Upper(s)), Lower(s);
    assert |a| == |b|;
    forall i | 0 <= i < |a| ensures a[i] == b[i] {
      assert Upper(s)[i] == UpperChar(s[i]);
    }
  }

  /** Lowering twice is lowering once. */
  lemma LowerIdempotent(s: string)
    ensures Lower(Lower(s)) == Lower(s)
  {
    var a, b := Lower(Lower(s)), Lower(s);
    assert |a| == |b|;
    forall i | 0 <= i < |a| ensures a[i] == b[i] {
      assert !('A' <= b[i] <= 'Z');
    }
  }

  /** needle occurs in hay starting at position i. */
  predicate OccursAt(hay: string, needle: string, i: nat) {
    i + |needle| <= |hay| && hay[i..i + |needle|] == needle
  }

  /** Python's substring test on strings: does `needle` occur at some
      position of `hay`? Scans the positions left to right. */
  function Contains(hay: string, needle: string): (r: bool)
    ensures r <==> exists i: nat :: OccursAt(hay, needle, i)
    decreases |hay|
  {
    if |needle| > |hay| then false
    else if hay[..|needle|] == needle then
      assert OccursAt(hay, needle, 0);
      true
    else
      var rest := Contains(hay[1..], needle);
      ContainsShift(hay, needle);
      rest
  }

  /** Occurrences in hay[1..] are occurrences in hay shifted by one, and every
      occurrence in hay other than at 0 comes from one in hay[1..]. */
  lemma ContainsShift(hay: string, needle: string)
    requires |needle| <= |hay| && hay[..|needle|] != needle
    ensures (exists i: nat :: OccursAt(hay, needle, i)) <==> (exists i: nat :: OccursAt(hay[1..], needle, i))
  {
    var tail := hay[1..];
    if i: nat :| OccursAt(hay, needle, i) {
      assert i != 0;
      assert tail[i - 1..i - 1 + |needle|] == hay[i..i + |needle|];
      assert OccursAt(tail, needle, i - 1);
    }
    if i: nat :| OccursAt(tail, needle, i) {
      assert hay[i + 1..i + 1 + |needle|] == tail[i..i + |needle|];
      assert OccursAt(hay, needle, i + 1);
    }
  }

  // ---------------------------------------------------------------------------
  // Insertion-ordered counting dictionaries: incrementing a dictionary entry
  // with a default of 0 in a loop, and collections.Counter, both keep keys in
  // first-seen order.

  datatype Entry<K> = Entry(key: K, count: nat)

  function CountOf<K(==,!new)>(t: seq<Entry<K>>, k: K): nat {
    if |t| == 0 then 0 else if t[0].key == k then t[0].count else CountOf(t[1..], k)
  }

  predicate HasKey<K(==,!new)>(t: seq<Entry<K>>, k: K) {
    |t| > 0 && (t[0].key == k || HasKey(t[1..], k))
  }

  predicate DistinctKeys<K(==,!new)>(t: seq<Entry<K>>) {
    |t| == 0 || (!HasKey(t[1..], t[0].key) && DistinctKeys(t[1..]))
  }

  /** The sum of all counts (sum(d.values())). */
  function Total<K(==,!new)>(t: seq<Entry<K>>): nat {
    if |t| == 0 then 0 else t[0].count + Total(t[1..])
  }

  /** One increment of the entry for k, counting from 0: the entry for k
      gains one, a new key is appended at the end with count 1, every key
      keeps its position and nothing else changes. */
  function Bump<K(==,!new)>(t: seq<Entry<K>>, k: K): (r: seq<Entry<K>>)
    ensures Total(r) == Total(t) + 1
    ensures forall j :: CountOf(r, j) == CountOf(t, j) + (if j == k then 1 else 0)
    ensures forall j :: HasKey(r, j) <==> HasKey(t, j) || j == k
    ensures DistinctKeys(t) ==> DistinctKeys(r)
    ensures |r| == |t| + (if HasKey(t, k) then 0 else 1)
    ensures forall i :: 0 <= i < |t| ==> r[i].key == t[i].key
    ensures forall i :: 0 <= i < |t| && t[i].key != k ==> r[i] == t[i]
    ensures !HasKey(t, k) ==> r[|t|] == Entry(k, 1)
  {
    if |t| == 0 then [Entry(k, 1)]
    else if t[0].key == k then
      var r := [Entry(k, t[0].count + 1)] + t[1..];
      assert r[1..] == t[1..];
      r
    else
      var rest := Bump(t[1..], k);
      var r := [t[0]] + rest;
      assert r[1..] == rest;
      assert forall i :: 1 <= i < |t| ==> r[i] == rest[i - 1] && t[i] == t[1..][i - 1];
      r
  }

  /** The dictionary built by counting `s` from left to right. */
  function Tally<K(==,!new)>(s: seq<K>): (t: seq<Entry<K>>)
    ensures Total(t) == |s|
    ensures forall k :: CountOf(t, k) == multiset(s)[k]
    ensures forall k :: HasKey(t, k) <==> k in s
    ensures DistinctKeys(t)
    ensures |t| == |Elems(s)|
  {
    if |s| == 0 then []
    else
      var init, last := s[..|s| - 1], s[|s| - 1];
      assert s == init + [last];
      ElemsSnoc(init, last);
      assert last in init <==> last in Elems(init);
      Bump(Tally(init), last)
  }

  lemma {:induction false} HasKeyIn<K(!new)>(t: seq<Entry<K>>, e: Entry<K>)
    requires e in t
    ensures HasKey(t, e.key)
  {
    if t[0] != e {
      assert e in t[1..];
      HasKeyIn(t[1..], e);
    }
  }

  lemma {:induction false} DistinctKeysCount<K(!new)>(t: seq<Entry<K>>, e: Entry<K>)
    requires DistinctKeys(t) && e in t
    ensures CountOf(t, e.key) == e.count
  {
    if t[0] != e {
      assert e in t[1..];
      HasKeyIn(t[1..], e);
      DistinctKeysCount(t[1..], e);
    }
  }

  /** A key that is present has an entry holding its count. */
  lemma {:induction false} HasKeyEntry<K(!new)>(t: seq<Entry<K>>, k: K)
    requires HasKey(t, k)
    ensures Entry(k, CountOf(t, k)) in t
  {
    if t[0].key != k {
      HasKeyEntry(t[1..], k);
    }
  }

  /** Every entry of a tally holds the number of occurrences of its key. */
  lemma TallyEntry<K(!new)>(s: seq<K>, e: Entry<K>)
    requires e in Tally(s)
    ensures e.key in s && e.count == multiset(s)[e.key]
  {
    HasKeyIn(Tally(s), e);
    DistinctKeysCount(Tally(s), e);
  }

  /** The position of the first occurrence of k in s. */
  function FirstIndex<K(==)>(s: seq<K>, k: K): (i: nat)
    requires k in s
    ensures i < |s| && s[i] == k && k !in s[..i]
  {
    if s[0] == k then 0
    else
      var i := FirstIndex(s[1..], k);
      assert s[..i + 1] == [s[0]] + s[1..][..i];
      i + 1
  }

  lemma {:induction false} FirstIndexAtMost<K>(s: seq<K>, k: K, i: nat)
    requires i < |s| && s[i] == k
    ensures FirstIndex(s, k) <= i
  {
    if s[0] != k {
      FirstIndexAtMost(s[1..], k, i - 1);
    }
  }

  lemma {:induction false} FirstIndexAtLeast<K>(s: seq<K>, k: K, i: nat)
    requires k in s && i <= |s| && k !in s[..i]
    ensures i <= FirstIndex(s, k)
  {
    if i > 0 {
      assert s[..i][0] == s[0];
      assert s[1..][..i - 1] == s[..i][1..];
      FirstIndexAtLeast(s[1..], k, i - 1);
    }
  }

  lemma FirstIndexSnoc<K>(s: seq<K>, x: K, k: K)
    requires k in s
    ensures FirstIndex(s + [x], k) == FirstIndex(s, k)
  {
    var i := FirstIndex(s, k);
    assert (s + [x])[..i] == s[..i];
    FirstIndexAtMost(s + [x], k, i);
    FirstIndexAtLeast(s + [x], k, i);
  }

  /** The dictionary's keys are in the order the list first mentions them. */
  lemma {:induction false} TallyFirstSeen<K(!new)>(s: seq<K>)
    ensures forall i :: 0 <= i < |Tally(s)| ==> Tally(s)[i].key in s
    ensures forall i, j :: 0 <= i < j < |Tally(s)| ==> FirstIndex(s, Tally(s)[i].key) < FirstIndex(s, Tally(s)[j].key)
  {
    var t := Tally(s);
    forall i | 0 <= i < |t| ensures t[i].key in s {
      TallyEntry(s, t[i]);
    }
    if |s| > 0 {
      var init, last := s[..|s| - 1], s[|s| - 1];
      assert s == init + [last];
      var t0 := Tally(init);
      assert t == Bump(t0, last);
      TallyFirstSeen(init);
      forall i, j | 0 <= i < j < |t| ensures FirstIndex(s, t[i].key) < FirstIndex(s, t[j].key) {
        FirstIndexSnoc(init, last, t0[i].key);
        if j < |t0| {
          FirstIndexSnoc(init, last, t0[j].key);
        } else {
          assert !HasKey(t0, last);
          assert last !in init;
          assert j == |t0| && t[j] == Entry(last, 1);
          FirstIndexAtLeast(s, last, |init|);
        }
      }
    }
  }

  // ---------------------------------------------------------------------------
  // Counter.most_common(n): the entries sorted by count, highest first, with
  // ties in insertion order, cut to the first n.

  predicate Descending<K(==,!new)>(t: seq<Entry<K>>) {
    forall i, j :: 0 <= i < j < |t| ==> t[i].count >= t[j].count
  }

  /** The entries of t whose count is c, in their order in t. A sort is
      stable when it keeps each of these lists as it was. */
  function WithCount<K>(t: seq<Entry<K>>, c: nat): seq<Entry<K>> {
    if |t| == 0 then [] else (if t[0].count == c then [t[0]] else []) + WithCount(t[1..], c)
  }

  lemma {:induction false} WithCountAppend<K>(a: seq<Entry<K>>, b: seq<Entry<K>>, c: nat)
    ensures WithCount(a + b, c) == WithCount(a, c) + WithCount(b, c)
  {
    if |a| == 0 {
      assert a + b == b;
    } else {
      assert (a + b)[1..] == a[1..] + b;
      WithCountAppend(a[1..], b, c);
    }
  }

  /** A descending list that starts below c has no entry of count c. */
  lemma {:induction false} WithCountBelow<K(!new)>(s: seq<Entry<K>>, c: nat)
    requires Descending(s) && (|s| == 0 || s[0].count < c)
    ensures WithCount(s, c) == []
  {
    if |s| > 0 {
      WithCountBelow(s[1..], c);
    }
  }

  /** Places e after every entry whose count is at least e's, so that among
      equal counts the earlier insertion comes first (a stable sort). */
  function InsertDesc<K(==,!new)>(e: Entry<K>, s: seq<Entry<K>>): (r: seq<Entry<K>>)
    ensures multiset(r) == multiset(s) + multiset{e}
    ensures |r| == |s| + 1
    ensures r[0] == e || (|s| > 0 && r[0] == s[0])
    ensures Descending(s) ==> Descending(r)
  {
    if |s| == 0 then [e]
    else if s[0].count >= e.count then
      var rest := InsertDesc(e, s[1..]);
      assert s == [s[0]] + s[1..];
      [s[0]] + rest
    else [e] + s
  }

  /** Into a descending list, e goes after every entry of its own count. */
  lemma {:induction false} InsertDescStable<K(!new)>(e: Entry<K>, s: seq<Entry<K>>, c: nat)
    requires Descending(s)
    ensures WithCount(InsertDesc(e, s), c) == WithCount(s, c) + (if e.count == c then [e] else [])
  {
    if |s| == 0 {
      assert InsertDesc(e, s) == [e] && [e][1..] == [];
    } else if s[0].count >= e.count {
      DescendingTail(s);
      InsertDescStable(e, s[1..], c);
      WithCountCons(s, InsertDesc(e, s[1..]), if e.count == c then [e] else [], c);
    } else {
      WithCountFront(e, s, c);
    }
  }

  /** An entry kept in front of a list whose entries of count c gained a tail. */
  lemma WithCountCons<K>(s: seq<Entry<K>>, rest: seq<Entry<K>>, tail: seq<Entry<K>>, c: nat)
    requires |s| > 0 && WithCount(rest, c) == WithCount(s[1..], c) + tail
    ensures WithCount([s[0]] + rest, c) == WithCount(s, c) + tail
  {
    assert ([s[0]] + rest)[1..] == rest;
  }

  /** A larger entry put in front of a descending list comes after nothing of its count. */
  lemma WithCountFront<K(!new)>(e: Entry<K>, s: seq<Entry<K>>, c: nat)
    requires Descending(s) && |s| > 0 && s[0].count < e.count
    ensures WithCount([e] + s, c) == WithCount(s, c) + (if e.count == c then [e] else [])
  {
    assert ([e] + s)[1..] == s;
    if e.count == c {
      WithCountBelow(s, c);
    }
  }

  lemma DescendingTail<K(!new)>(s: seq<Entry<K>>)
    requires Descending(s) && |s| > 0
    ensures Descending(s[1..])
  {
    assert forall i :: 0 <= i < |s| - 1 ==> s[1..][i] == s[i + 1];
  }

  /** The stable descending sort: equal counts keep their order in t. */
  function SortDesc<K(==,!new)>(t: seq<Entry<K>>): (r: seq<Entry<K>>)
    ensures multiset(r) == multiset(t)
    ensures |r| == |t|
    ensures Descending(r)
    ensures forall c :: WithCount(r, c) == WithCount(t, c)
  {
    if |t| == 0 then []
    else
      var init, last := t[..|t| - 1], t[|t| - 1];
      assert t == init + [last];
      var sorted := SortDesc(init);
      forall c ensures WithCount(InsertDesc(last, sorted), c) == WithCount(t, c) {
        WithCountAppend(init, [last], c);
        InsertDescStable(last, sorted, c);
      }
      InsertDesc(last, sorted)
  }

  /** The n entries with the highest counts, highest first. */
  function MostCommon<K(==,!new)>(t: seq<Entry<K>>, n: nat): (r: seq<Entry<K>>)
    ensures |r| == MinNat(n, |t|)
    ensures Descending(r)
    ensures forall e :: e in r ==> e in t
    ensures forall e, i :: e in t && e !in r && 0 <= i < |r| ==> e.count <= r[i].count
    ensures multiset(r) <= multiset(t)
    ensures forall c :: WithCount(r, c) <= WithCount(t, c)
  {
    var sorted := SortDesc(t);
    var k := MinNat(n, |t|);
    var r := sorted[..k];
    MostCommonTop(t, sorted, r);
    r
  }

  lemma MostCommonTop<K(!new)>(t: seq<Entry<K>>, sorted: seq<Entry<K>>, r: seq<Entry<K>>)
    requires multiset(sorted) == multiset(t) && Descending(sorted)
    requires forall c :: WithCount(sorted, c) == WithCount(t, c)
    requires |r| <= |sorted| && r == sorted[..|r|]
    ensures forall e :: e in r ==> e in t
    ensures forall e, i :: e in t && e !in r && 0 <= i < |r| ==> e.count <= r[i].count
    ensures multiset(r) <= multiset(t)
    ensures forall c :: WithCount(r, c) <= WithCount(t, c)
  {
    assert sorted == r + sorted[|r|..];
    forall c ensures WithCount(r, c) <= WithCount(t, c) {
      WithCountAppend(r, sorted[|r|..], c);
    }
    forall e | e in r ensures e in t {
      assert e in multiset(sorted);
    }
    forall e, i | e in t && e !in r && 0 <= i < |r| ensures e.count <= r[i].count {
      assert e in multiset(sorted);
      var p :| 0 <= p < |sorted| && sorted[p] == e;
      assert forall q :: 0 <= q < |r| ==> sorted[q] == r[q] && r[q] != e;
    }
  }

  /** With distinct keys, no entry occurs twice. */
  lemma {:induction false} DistinctKeysOnce<K(!new)>(t: seq<Entry<K>>, e: Entry<K>)
    requires DistinctKeys(t)
    ensures multiset(t)[e] <= 1
  {
    if |t| > 0 {
      assert t == [t[0]] + t[1..];
      DistinctKeysOnce(t[1..], e);
      if t[0] == e && e in t[1..] {
        HasKeyIn(t[1..], e);
      }
    }
  }

  /** An entry at two positions of a list occurs at least twice. */
  lemma TwoPositions<T>(r: seq<T>, i: nat, j: nat)
    requires i < j < |r|
    ensures r[i] == r[j] ==> multiset(r)[r[i]] >= 2
  {
    assert r == r[..j] + r[j..];
    assert r[i] in r[..j];
    assert r[j] in r[j..];
  }

  /** Entries drawn (without repetition) from a dictionary with distinct keys
      have distinct keys. */
  lemma DistinctKeysSub<K(!new)>(t: seq<Entry<K>>, r: seq<Entry<K>>)
    requires DistinctKeys(t) && multiset(r) <= multiset(t)
    ensures forall i, j :: 0 <= i < j < |r| ==> r[i].key != r[j].key
  {
    forall i, j | 0 <= i < j < |r| ensures r[i].key != r[j].key {
      assert r[i] in multiset(r) && r[j] in multiset(r);
      assert r[i] in t && r[j] in t;
      DistinctKeysCount(t, r[i]);
      DistinctKeysCount(t, r[j]);
      DistinctKeysOnce(t, r[i]);
      TwoPositions(r, i, j);
    }
  }
}
