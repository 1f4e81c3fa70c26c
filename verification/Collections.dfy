/** Ranging over a map in no particular order, and when two collections are the same. */
module Collections {

  /** Any one key still to be visited. */
  method Pick<T>(s: set<T>) returns (x: T)
    requires s != {}
    ensures x in s
  {
    x :| x in s;
  }

  lemma SameMap<K, V>(m: map<K, V>, n: map<K, V>)
    requires forall k :: k in m <==> k in n
    requires forall k :: k in m ==> m[k] == n[k]
    ensures m == n
  {}

  lemma SameSet<T>(s: set<T>, t: set<T>)
    requires forall x :: x in s <==> x in t
    ensures s == t
  {}

  lemma SameSeq<T>(s: seq<T>, t: seq<T>)
    requires |s| == |t| && forall i :: 0 <= i < |s| ==> s[i] == t[i]
    ensures s == t
  {}

  lemma SliceOfSlice<T>(s: seq<T>, a: nat, b: nat, i: nat, j: nat)
    requires a <= b <= |s| && i <= j <= b - a
    ensures s[a..b][i..j] == s[a + i..a + j]
  {
    SameSeq(s[a..b][i..j], s[a + i..a + j]);
  }

  /** Where something first is; the length if it is nowhere. */
  function Index<T(==)>(s: seq<T>, x: T): (i: nat)
    ensures i <= |s| && (i < |s| ==> s[i] == x)
    ensures i < |s| <==> x in s
    ensures forall j :: 0 <= j < i ==> s[j] != x
  {
    if s == [] || s[0] == x then 0 else 1 + Index(s[1..], x)
  }

  function Without<T>(s: seq<T>, i: nat): seq<T>
    requires i < |s|
  {
    s[..i] + s[i + 1..]
  }

  ghost predicate Distinct<T>(s: seq<T>) {
    forall i, j :: 0 <= i < j < |s| ==> s[i] != s[j]
  }

  ghost function Elements<T>(s: seq<T>): set<T> {
    set x | x in s
  }

  lemma {:induction false} DistinctCount<T>(s: seq<T>)
    requires Distinct(s)
    ensures |Elements(s)| == |s|
  {
    if s == [] {
      assert Elements(s) == {};
    } else {
      var init, last := s[..|s| - 1], s[|s| - 1];
      DistinctCount(init);
      assert s == init + [last];
      assert Elements(s) == Elements(init) + {last};
    }
  }

  lemma SubsetOfSameSize<T>(s: set<T>, t: set<T>)
    requires s <= t && |s| == |t|
    ensures s == t
  {
    assert |t - s| == |t| - |s|;
    assert t == s + (t - s);
  }

  /** As many distinct elements, all among the others, are all of them. */
  lemma Rearranged<T>(s: seq<T>, t: seq<T>, x: T)
    requires Distinct(s) && Distinct(t) && |s| == |t| && forall i :: 0 <= i < |s| ==> s[i] in t
    ensures x in s <==> x in t
  {
    DistinctCount(s);
    DistinctCount(t);
    assert forall y :: y in Elements(s) ==> y in Elements(t);
    SubsetOfSameSize(Elements(s), Elements(t));
    assert x in Elements(s) <==> x in s;
  }

  lemma IndexOfElement<T>(s: seq<T>, i: nat)
    requires i < |s| && Distinct(s)
    ensures Index(s, s[i]) == i
  {}
}
