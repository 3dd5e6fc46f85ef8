/** Generic facts about the list operations the Kotlin code uses (`filter`, `firstOrNull`). */
module Seqs {

  /** Kotlin's `List.filter`. */
  function Filter<T>(s: seq<T>, p: T -> bool): (r: seq<T>)
    ensures |r| <= |s|
  {
    if s == [] then [] else (if p(s[0]) then [s[0]] else []) + Filter(s[1..], p)
  }

  /** `filter` keeps exactly the elements that satisfy `p`. */
  lemma {:induction false} FilterMembers<T>(s: seq<T>, p: T -> bool)
    ensures forall i :: 0 <= i < |Filter(s, p)| ==> Filter(s, p)[i] in s && p(Filter(s, p)[i])
    ensures forall i :: 0 <= i < |s| && p(s[i]) ==> s[i] in Filter(s, p)
  {
    if s != [] {
      FilterMembers(s[1..], p);
      var rest := Filter(s[1..], p);
      forall i | 0 <= i < |Filter(s, p)|
        ensures Filter(s, p)[i] in s && p(Filter(s, p)[i])
      {
        if !p(s[0]) || i > 0 {
          var j := if p(s[0]) then i - 1 else i;
          assert Filter(s, p)[i] == rest[j];
          assert rest[j] in s[1..];
        }
      }
      forall i | 0 <= i < |s| && p(s[i]) ensures s[i] in Filter(s, p) {
        if i > 0 {
          assert s[i] == s[1..][i - 1];
        }
      }
    }
  }

  /** `r` can be obtained from `s` by deleting elements: it keeps the relative order of `s`. */
  predicate IsSubsequence<T(==)>(r: seq<T>, s: seq<T>)
    decreases |s|
  {
    r == [] || (s != [] && ((r[0] == s[0] && IsSubsequence(r[1..], s[1..])) || IsSubsequence(r, s[1..])))
  }

  predicate NoDuplicates<T(==)>(s: seq<T>) {
    forall i, j :: 0 <= i < j < |s| ==> s[i] != s[j]
  }

  /** The elements of a list as a set (Kotlin's `toSet()`). */
  function Elements<T>(s: seq<T>): (r: set<T>) {
    set x | x in s
  }

  lemma {:induction false} FilterIsSubsequence<T>(s: seq<T>, p: T -> bool)
    ensures IsSubsequence(Filter(s, p), s)
  {
    if s != [] {
      FilterIsSubsequence(s[1..], p);
      var rest := Filter(s[1..], p);
      if p(s[0]) {
        assert Filter(s, p) == [s[0]] + rest;
        assert ([s[0]] + rest)[1..] == rest;
      } else {
        assert Filter(s, p) == rest;
      }
    }
  }

  lemma {:induction false} FilterNoDuplicates<T>(s: seq<T>, p: T -> bool)
    requires NoDuplicates(s)
    ensures NoDuplicates(Filter(s, p))
  {
    if s != [] {
      assert NoDuplicates(s[1..]) by {
        forall i, j | 0 <= i < j < |s[1..]| ensures s[1..][i] != s[1..][j] {
          assert s[1..][i] == s[i + 1] && s[1..][j] == s[j + 1];
        }
      }
      FilterNoDuplicates(s[1..], p);
      assert s[0] !in s[1..] by {
        forall k | 0 <= k < |s[1..]| ensures s[1..][k] != s[0] {
          assert s[1..][k] == s[k + 1];
        }
      }
      var rest := Filter(s[1..], p);
      FilterMembers(s[1..], p);
      if p(s[0]) {
        var r := [s[0]] + rest;
        assert Filter(s, p) == r;
        forall i, j | 0 <= i < j < |r| ensures r[i] != r[j] {
          if i == 0 {
            assert r[j] == rest[j - 1];
            assert r[j] in s[1..];
          } else {
            assert r[i] == rest[i - 1] && r[j] == rest[j - 1];
          }
        }
      } else {
        assert Filter(s, p) == rest;
      }
    }
  }

  /** A list without duplicates has as many elements as its set. */
  lemma {:induction false} DistinctCardinality<T>(s: seq<T>)
    requires NoDuplicates(s)
    ensures |Elements(s)| == |s|
  {
    if s != [] {
      assert NoDuplicates(s[1..]) by {
        forall i, j | 0 <= i < j < |s[1..]| ensures s[1..][i] != s[1..][j] {
          assert s[1..][i] == s[i + 1] && s[1..][j] == s[j + 1];
        }
      }
      DistinctCardinality(s[1..]);
      assert s[0] !in s[1..] by {
        forall k | 0 <= k < |s[1..]| ensures s[1..][k] != s[0] {
          assert s[1..][k] == s[k + 1];
        }
      }
      assert Elements(s) == {s[0]} + Elements(s[1..]) by {
        forall x ensures x in Elements(s) <==> x in {s[0]} + Elements(s[1..]) {
          if x in s && x != s[0] {
            var k :| 0 <= k < |s| && s[k] == x;
            assert s[1..][k - 1] == x;
          }
        }
      }
    }
  }

  /** Kotlin's `firstOrNull { it in s }` over a list of identifiers: the first element of `order` that is in `s`. */
  function FirstIn<T>(order: seq<T>, s: set<T>): (r: int)
    ensures -1 <= r < |order|
    ensures r >= 0 ==> order[r] in s && forall j :: 0 <= j < r ==> order[j] !in s
    ensures r == -1 ==> forall j :: 0 <= j < |order| ==> order[j] !in s
  {
    if order == [] then -1
    else if order[0] in s then 0
    else
      var k := FirstIn(order[1..], s);
      if k == -1 then -1 else k + 1
  }

  /** A member of `s` that occurs in `order` is found. */
  lemma {:induction false} FirstInFindsMember<T>(order: seq<T>, s: set<T>, x: T)
    requires x in s && x in order
    ensures FirstIn(order, s) != -1
  {
    if order[0] !in s {
      assert x in order[1..];
      FirstInFindsMember(order[1..], s, x);
    }
  }

  lemma {:induction false} FilterConcat<T>(a: seq<T>, b: seq<T>, p: T -> bool)
    ensures Filter(a + b, p) == Filter(a, p) + Filter(b, p)
  {
    if a == [] {
      assert a + b == b;
    } else {
      var head: seq<T> := if p(a[0]) then [a[0]] else [];
      assert (a + b)[0] == a[0];
      assert (a + b)[1..] == a[1..] + b;
      assert Filter(a + b, p) == head + Filter(a[1..] + b, p);
      FilterConcat(a[1..], b, p);
      assert Filter(a, p) == head + Filter(a[1..], p);
      assert head + (Filter(a[1..], p) + Filter(b, p)) == (head + Filter(a[1..], p)) + Filter(b, p);
    }
  }

  lemma {:induction false} FilterKeepsAll<T>(s: seq<T>, p: T -> bool)
    requires forall i :: 0 <= i < |s| ==> p(s[i])
    ensures Filter(s, p) == s
  {
    if s != [] {
      FilterKeepsAll(s[1..], p);
    }
  }

  lemma {:induction false} FilterDropsAll<T>(s: seq<T>, p: T -> bool)
    requires forall i :: 0 <= i < |s| ==> !p(s[i])
    ensures Filter(s, p) == []
  {
    if s != [] {
      FilterDropsAll(s[1..], p);
    }
  }
}
