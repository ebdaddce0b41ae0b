/**
 * Insertion sort under a comparator given as a "may stand before" relation,
 * with the facts the ranking needs: the result is sorted, is a permutation of
 * the input, and is the only sorted permutation when the relation never ties
 * two different elements.
 */
module Sorting {

  ghost predicate TotalPreorder<T(!new)>(le: (T, T) -> bool) {
    && (forall x, y, z :: le(x, y) && le(y, z) ==> le(x, z))
    && (forall x, y :: le(x, y) || le(y, x))
  }

  ghost predicate SortedBy<T>(le: (T, T) -> bool, s: seq<T>) {
    forall i, j :: 0 <= i < j < |s| ==> le(s[i], s[j])
  }

  /** No two different elements of s tie under le. */
  ghost predicate NoTies<T>(le: (T, T) -> bool, s: seq<T>) {
    forall i, j :: 0 <= i < |s| && 0 <= j < |s| && le(s[i], s[j]) && le(s[j], s[i]) ==> s[i] == s[j]
  }

  /** Inserts c in front of the first element it may stand before. */
  function Insert<T>(le: (T, T) -> bool, c: T, s: seq<T>): seq<T>
    decreases |s|
  {
    if s == [] then [c]
    else if le(c, s[0]) then [c] + s
    else [s[0]] + Insert(le, c, s[1..])
  }

  function SortBy<T>(le: (T, T) -> bool, s: seq<T>): seq<T>
    decreases |s|
  {
    if s == [] then [] else Insert(le, s[0], SortBy(le, s[1..]))
  }

  lemma SortedTail<T>(le: (T, T) -> bool, s: seq<T>)
    requires SortedBy(le, s) && s != []
    ensures SortedBy(le, s[1..])
  {
    forall i, j | 0 <= i < j < |s[1..]| ensures le(s[1..][i], s[1..][j]) {
      assert s[1..][i] == s[i + 1] && s[1..][j] == s[j + 1];
    }
  }

  lemma SortedCons<T>(le: (T, T) -> bool, x: T, s: seq<T>)
    requires SortedBy(le, s)
    requires forall y :: y in multiset(s) ==> le(x, y)
    ensures SortedBy(le, [x] + s)
  {
    forall i, j | 0 <= i < j < |[x] + s| ensures le(([x] + s)[i], ([x] + s)[j]) {
      assert ([x] + s)[j] == s[j - 1] && s[j - 1] in multiset(s);
      if i > 0 {
        assert ([x] + s)[i] == s[i - 1];
      }
    }
  }

  lemma {:induction false} InsertSorted<T(!new)>(le: (T, T) -> bool, c: T, s: seq<T>)
    requires TotalPreorder(le) && SortedBy(le, s)
    ensures SortedBy(le, Insert(le, c, s))
    ensures multiset(Insert(le, c, s)) == multiset(s) + multiset{c}
    decreases |s|
  {
    if s == [] {
    } else if le(c, s[0]) {
      forall y | y in multiset(s) ensures le(c, y) {
        var k :| 0 <= k < |s| && s[k] == y;
        if k > 0 { assert le(s[0], s[k]); }
      }
      SortedCons(le, c, s);
      assert multiset([c] + s) == multiset(s) + multiset{c};
    } else {
      var rest := Insert(le, c, s[1..]);
      SortedTail(le, s);
      InsertSorted(le, c, s[1..]);
      forall y | y in multiset(rest) ensures le(s[0], y) {
        if y != c {
          var k :| 0 <= k < |s[1..]| && s[1..][k] == y;
          assert s[k + 1] == y;
        }
      }
      SortedCons(le, s[0], rest);
      assert s == [s[0]] + s[1..];
      assert multiset(s) == multiset{s[0]} + multiset(s[1..]);
    }
  }

  /** The sort's output is sorted and holds exactly the input's elements. */
  lemma {:induction false} SortBySortsAndPermutes<T(!new)>(le: (T, T) -> bool, s: seq<T>)
    requires TotalPreorder(le)
    ensures SortedBy(le, SortBy(le, s))
    ensures multiset(SortBy(le, s)) == multiset(s)
    decreases |s|
  {
    if s != [] {
      SortBySortsAndPermutes(le, s[1..]);
      InsertSorted(le, s[0], SortBy(le, s[1..]));
      assert s == [s[0]] + s[1..];
    }
  }

  /** Two sorted permutations of a tie-free sequence start with the same element. */
  lemma SortedPermutationsShareHead<T(!new)>(le: (T, T) -> bool, a: seq<T>, b: seq<T>)
    requires TotalPreorder(le)
    requires SortedBy(le, a) && SortedBy(le, b) && multiset(a) == multiset(b) && NoTies(le, a)
    requires a != []
    ensures b != [] && a[0] == b[0]
  {
    assert |b| == |multiset(b)| == |a|;
    assert a[0] in multiset(b) && b[0] in multiset(a);
    var k :| 0 <= k < |b| && b[k] == a[0];
    var m :| 0 <= m < |a| && a[m] == b[0];
    assert le(a[0], a[m]) by { if m > 0 { assert le(a[0], a[m]); } }
    assert le(b[0], b[k]) by { if k > 0 { assert le(b[0], b[k]); } }
  }

  lemma TailOfPermutation<T>(a: seq<T>, b: seq<T>)
    requires a != [] && b != [] && a[0] == b[0] && multiset(a) == multiset(b)
    ensures multiset(a[1..]) == multiset(b[1..])
  {
    assert a == [a[0]] + a[1..] && b == [b[0]] + b[1..];
    assert multiset(a[1..]) == multiset(a) - multiset{a[0]};
    assert multiset(b[1..]) == multiset(b) - multiset{b[0]};
  }

  lemma NoTiesTail<T>(le: (T, T) -> bool, a: seq<T>)
    requires NoTies(le, a) && a != []
    ensures NoTies(le, a[1..])
  {
    forall i, j | 0 <= i < |a[1..]| && 0 <= j < |a[1..]| && le(a[1..][i], a[1..][j]) && le(a[1..][j], a[1..][i])
      ensures a[1..][i] == a[1..][j]
    {
      assert a[1..][i] == a[i + 1] && a[1..][j] == a[j + 1];
    }
  }

  lemma {:induction false} SortedPermutationsAgree<T(!new)>(le: (T, T) -> bool, a: seq<T>, b: seq<T>)
    requires TotalPreorder(le)
    requires SortedBy(le, a) && SortedBy(le, b) && multiset(a) == multiset(b) && NoTies(le, a)
    ensures a == b
    decreases |a|
  {
    if a == [] {
      assert |b| == |multiset(b)| == 0;
    } else {
      SortedPermutationsShareHead(le, a, b);
      TailOfPermutation(a, b);
      SortedTail(le, a);
      SortedTail(le, b);
      NoTiesTail(le, a);
      SortedPermutationsAgree(le, a[1..], b[1..]);
      assert a == [a[0]] + a[1..] && b == [b[0]] + b[1..];
    }
  }

  /** Whatever algorithm sorts s, when nothing in s ties the result is SortBy's. */
  lemma SortIsUnique<T(!new)>(le: (T, T) -> bool, s: seq<T>, r: seq<T>)
    requires TotalPreorder(le) && NoTies(le, s)
    requires SortedBy(le, r) && multiset(r) == multiset(s)
    ensures r == SortBy(le, s)
  {
    SortBySortsAndPermutes(le, s);
    var q := SortBy(le, s);
    assert NoTies(le, q) by {
      forall i, j | 0 <= i < |q| && 0 <= j < |q| && le(q[i], q[j]) && le(q[j], q[i]) ensures q[i] == q[j] {
        assert q[i] in multiset(s) && q[j] in multiset(s);
        var p :| 0 <= p < |s| && s[p] == q[i];
        var p' :| 0 <= p' < |s| && s[p'] == q[j];
      }
    }
    SortedPermutationsAgree(le, q, r);
  }
}
