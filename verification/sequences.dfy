/**
  Duplicate-free lists kept in first-seen order: the shape of both the
  pending-update list (`if name not in list: append`) and the key order of a
  Python dict (a new key goes at the end, an existing key stays where it is).
*/
module Sequences {

  predicate Distinct<T(==)>(s: seq<T>)
  {
    forall i, j :: 0 <= i < j < |s| ==> s[i] != s[j]
  }

  /** Position of the first `x` in `s`, or `|s|` when `x` does not occur. */
  function IndexOf<T(==)>(s: seq<T>, x: T): (i: nat)
    ensures i <= |s|
    ensures i < |s| <==> x in s
    ensures i < |s| ==> s[i] == x
    ensures forall k :: 0 <= k < i ==> s[k] != x
  {
    if s == [] then 0 else if s[0] == x then 0 else 1 + IndexOf(s[1..], x)
  }

  /** `if x not in s: s.append(x)` */
  function AppendIfAbsent<T(==)>(s: seq<T>, x: T): seq<T>
  {
    if x in s then s else s + [x]
  }

  /** Appends, in order, every item of `items` that is not yet present. */
  function AppendNew<T(==)>(s: seq<T>, items: seq<T>): seq<T>
    decreases |items|
  {
    if items == [] then s else AppendNew(AppendIfAbsent(s, items[0]), items[1..])
  }

  lemma {:induction false} AppendNewPrefix<T>(s: seq<T>, items: seq<T>)
    ensures |s| <= |AppendNew(s, items)|
    ensures AppendNew(s, items)[..|s|] == s
    decreases |items|
  {
    if items != [] {
      var s1 := AppendIfAbsent(s, items[0]);
      var r := AppendNew(s1, items[1..]);
      AppendNewPrefix(s1, items[1..]);
      assert s1[..|s|] == s;
      assert r[..|s|] == r[..|s1|][..|s|];
    }
  }

  lemma {:induction false} AppendNewMembers<T>(s: seq<T>, items: seq<T>)
    ensures forall x :: x in AppendNew(s, items) <==> x in s || x in items
    ensures forall i :: |s| <= i < |AppendNew(s, items)| ==> AppendNew(s, items)[i] !in s
    decreases |items|
  {
    if items != [] {
      var x := items[0];
      var rest := items[1..];
      var s1 := AppendIfAbsent(s, x);
      var r := AppendNew(s1, rest);
      AppendNewMembers(s1, rest);
      AppendNewPrefix(s1, rest);
      assert items == [x] + rest;
      forall i | |s| <= i < |r| ensures r[i] !in s {
        if i < |s1| {
          assert r[i] == r[..|s1|][i] == s1[i] == x;
        }
      }
    }
  }

  /** AppendNew keeps the old list as a prefix and adds exactly the missing items. */
  lemma {:induction false} AppendNewGrows<T>(s: seq<T>, items: seq<T>)
    ensures |s| <= |AppendNew(s, items)|
    ensures AppendNew(s, items)[..|s|] == s
    ensures forall x :: x in AppendNew(s, items) <==> x in s || x in items
    ensures forall i :: |s| <= i < |AppendNew(s, items)| ==> AppendNew(s, items)[i] !in s
  {
    AppendNewPrefix(s, items);
    AppendNewMembers(s, items);
  }

  /** AppendNew never introduces a duplicate. */
  lemma {:induction false} AppendNewDistinct<T>(s: seq<T>, items: seq<T>)
    requires Distinct(s)
    ensures Distinct(AppendNew(s, items))
    decreases |items|
  {
    if items != [] {
      AppendNewDistinct(AppendIfAbsent(s, items[0]), items[1..]);
    }
  }

  /** The items AppendNew adds are ordered by where each first occurs in `items`. */
  lemma {:induction false} AppendNewFirstSeen<T>(s: seq<T>, items: seq<T>)
    ensures forall i, j :: |s| <= i < j < |AppendNew(s, items)| ==>
              IndexOf(items, AppendNew(s, items)[i]) < IndexOf(items, AppendNew(s, items)[j])
    decreases |items|
  {
    if items != [] {
      var x := items[0];
      var rest := items[1..];
      var s1 := AppendIfAbsent(s, x);
      var r := AppendNew(s1, rest);
      AppendNewFirstSeen(s1, rest);
      AppendNewGrows(s1, rest);
      forall i | |s1| <= i < |r|
        ensures IndexOf(items, r[i]) == 1 + IndexOf(rest, r[i])
      {
        assert x in s1;
        assert r[i] != x;
      }
      if x !in s {
        assert r[..|s1|] == s1;
        assert r[|s|] == x;
      }
    }
  }
}
