/** Python's stable `sorted` under a total order, string order and comprehensions. */
module Sorting {
  import opened Prelude

  ghost predicate TotalOrder<T(!new)>(leq: (T, T) -> bool) {
    && (forall a, b :: leq(a, b) || leq(b, a))
    && (forall a, b, c :: leq(a, b) && leq(b, c) ==> leq(a, c))
  }

  ghost predicate Sorted<T>(leq: (T, T) -> bool, s: seq<T>) {
    forall i, j :: 0 <= i < j < |s| ==> leq(s[i], s[j])
  }

  /** Inserts `x` behind everything that may stand before it. */
  function Insert<T>(leq: (T, T) -> bool, s: seq<T>, x: T): (r: seq<T>)
    ensures |r| == |s| + 1
  {
    if s == [] || leq(s[|s| - 1], x) then s + [x]
    else Insert(leq, s[..|s| - 1], x) + [s[|s| - 1]]
  }

  function Sort<T>(leq: (T, T) -> bool, s: seq<T>): (r: seq<T>)
    ensures |r| == |s|
  {
    if s == [] then [] else Insert(leq, Sort(leq, s[..|s| - 1]), s[|s| - 1])
  }

  lemma {:induction false} InsertKeeps<T>(leq: (T, T) -> bool, s: seq<T>, x: T)
    ensures multiset(Insert(leq, s, x)) == multiset(s) + multiset{x}
    ensures forall y :: y in Insert(leq, s, x) <==> y in s || y == x
  {
    if s != [] && !leq(s[|s| - 1], x) {
      InsertKeeps(leq, s[..|s| - 1], x);
      assert s == s[..|s| - 1] + [s[|s| - 1]];
    }
  }

  lemma SortedSnoc<T>(leq: (T, T) -> bool, s: seq<T>, last: T)
    requires Sorted(leq, s) && forall y :: y in s ==> leq(y, last)
    ensures Sorted(leq, s + [last])
  {
  }

  lemma {:induction false} InsertSorted<T(!new)>(leq: (T, T) -> bool, s: seq<T>, x: T)
    requires TotalOrder(leq) && Sorted(leq, s)
    ensures Sorted(leq, Insert(leq, s, x))
  {
    if s == [] {
    } else {
      var (init, last) := (s[..|s| - 1], s[|s| - 1]);
      assert forall y :: y in init ==> leq(y, last);
      if leq(last, x) {
        assert forall y :: y in s ==> leq(y, x);
        SortedSnoc(leq, s, x);
      } else {
        InsertSorted(leq, init, x);
        InsertKeeps(leq, init, x);
        SortedSnoc(leq, Insert(leq, init, x), last);
      }
    }
  }

  lemma InsertLast<T>(leq: (T, T) -> bool, init: seq<T>, last: T)
    requires Sorted(leq, init + [last])
    ensures Sorted(leq, init) && Insert(leq, init, last) == init + [last]
  {
    var s := init + [last];
    assert forall i :: 0 <= i < |init| ==> s[i] == init[i];
    assert s[|init|] == last;
  }

  /** Sorting keeps everything, puts it in order, and leaves what is in order as it is. */
  lemma {:induction false} SortSorts<T(!new)>(leq: (T, T) -> bool, s: seq<T>)
    requires TotalOrder(leq)
    ensures Sorted(leq, Sort(leq, s))
    ensures multiset(Sort(leq, s)) == multiset(s)
    ensures forall y :: y in Sort(leq, s) <==> y in s
    ensures Sorted(leq, s) ==> Sort(leq, s) == s
  {
    if s != [] {
      var (init, last) := (s[..|s| - 1], s[|s| - 1]);
      assert s == init + [last];
      SortSorts(leq, init);
      hide TotalOrder;
      InsertSorted(leq, Sort(leq, init), last);
      InsertKeeps(leq, Sort(leq, init), last);
      if Sorted(leq, s) {
        InsertLast(leq, init, last);
      }
    }
  }

  lemma LastOf<T(!new)>(leq: (T, T) -> bool, s: seq<T>, t: seq<T>)
    requires s != [] && Sorted(leq, s) && Sorted(leq, t) && multiset(s) == multiset(t)
    requires forall a, b :: a in s && b in s && leq(a, b) && leq(b, a) ==> a == b
    ensures t != [] && s[|s| - 1] == t[|t| - 1]
  {
    var x := s[|s| - 1];
    assert x in multiset(t);
    var y := t[|t| - 1];
    assert y in multiset(s);
    var i :| 0 <= i < |s| && s[i] == y;
    var j :| 0 <= j < |t| && t[j] == x;
  }

  lemma WithoutLast<T>(s: seq<T>)
    requires s != []
    ensures s == s[..|s| - 1] + [s[|s| - 1]]
    ensures multiset(s[..|s| - 1]) == multiset(s) - multiset{s[|s| - 1]}
  {
    assert s == s[..|s| - 1] + [s[|s| - 1]];
  }

  /** Sorted arrangements of the same things are equal when the order tells all of them apart. */
  lemma {:induction false} SortedUnique<T(!new)>(leq: (T, T) -> bool, s: seq<T>, t: seq<T>)
    requires Sorted(leq, s) && Sorted(leq, t) && multiset(s) == multiset(t)
    requires forall a, b :: a in s && b in s && leq(a, b) && leq(b, a) ==> a == b
    ensures s == t
  {
    if s == [] {
      assert |multiset(t)| == 0;
    } else {
      LastOf(leq, s, t);
      WithoutLast(s);
      WithoutLast(t);
      var init := s[..|s| - 1];
      assert forall a :: a in init ==> a in s;
      hide Insert;
      SortedUnique(leq, s[..|s| - 1], t[..|t| - 1]);
    }
  }

  // ---------------------------------------------------------------- strings

  /** Python's order on strings. */
  predicate StringLeq(a: string, b: string) {
    a == "" || (b != "" && (a[0] < b[0] || (a[0] == b[0] && StringLeq(a[1..], b[1..]))))
  }

  lemma {:induction false} StringLeqTotal(a: string, b: string)
    ensures StringLeq(a, b) || StringLeq(b, a)
  {
    if a != "" && b != "" && a[0] == b[0] {
      StringLeqTotal(a[1..], b[1..]);
    }
  }

  lemma {:induction false} StringLeqTransitive(a: string, b: string, c: string)
    requires StringLeq(a, b) && StringLeq(b, c)
    ensures StringLeq(a, c)
  {
    if a != "" && a[0] == b[0] == c[0] {
      StringLeqTransitive(a[1..], b[1..], c[1..]);
    }
  }

  lemma {:induction false} StringLeqAntisymmetric(a: string, b: string)
    requires StringLeq(a, b) && StringLeq(b, a)
    ensures a == b
  {
    if a != "" {
      StringLeqAntisymmetric(a[1..], b[1..]);
      assert a == [a[0]] + a[1..] && b == [b[0]] + b[1..];
    }
  }

  /** Where two strings differ first: at position k one has ended or has the smaller character. */
  predicate FirstDifference(a: string, b: string, k: nat) {
    k <= |a| && k <= |b| && a[..k] == b[..k] && (k == |a| || (k < |b| && a[k] < b[k]))
  }

  /** The order is lexicographic: what differs first decides, and a prefix comes first. */
  lemma {:induction false} StringLeqIsLexicographic(a: string, b: string, k: nat)
    requires FirstDifference(a, b, k)
    ensures StringLeq(a, b) && (StringLeq(b, a) ==> a == b)
  {
    if k > 0 {
      assert a[..k][0] == b[..k][0];
      assert a[1..][..k - 1] == a[..k][1..] && b[1..][..k - 1] == b[..k][1..];
      StringLeqIsLexicographic(a[1..], b[1..], k - 1);
      assert a == [a[0]] + a[1..] && b == [b[0]] + b[1..];
    }
  }

  /** Any two strings differ first somewhere, one way or the other. */
  lemma {:induction false} DifferSomewhere(a: string, b: string) returns (k: nat)
    ensures FirstDifference(a, b, k) || FirstDifference(b, a, k)
  {
    k := 0;
    if a != "" && b != "" && a[0] == b[0] {
      var n := DifferSomewhere(a[1..], b[1..]);
      k := n + 1;
      assert a[..k] == [a[0]] + a[1..][..n] && b[..k] == [b[0]] + b[1..][..n];
    }
  }

  // ---------------------------------------------------------------- comprehensions

  /** What `pick` makes of the elements it takes. */
  function Collect<A, B>(pick: A -> Option<B>, s: seq<A>): (r: seq<B>)
    ensures |r| <= |s|
  {
    if s == [] then []
    else
      var rest := Collect(pick, s[..|s| - 1]);
      match pick(s[|s| - 1])
      case None => rest
      case Some(y) => rest + [y]
  }

  lemma {:induction false} CollectConcat<A, B>(pick: A -> Option<B>, s: seq<A>, t: seq<A>)
    ensures Collect(pick, s + t) == Collect(pick, s) + Collect(pick, t)
  {
    if t == [] {
      assert s + t == s;
    } else {
      var n := |t| - 1;
      assert (s + t)[..|s + t| - 1] == s + t[..n];
      CollectConcat(pick, s, t[..n]);
    }
  }

  lemma {:induction false} CollectElements<A, B>(pick: A -> Option<B>, s: seq<A>, y: B)
    ensures y in Collect(pick, s) <==> exists i :: 0 <= i < |s| && pick(s[i]) == Some(y)
  {
    if s != [] {
      CollectElements(pick, s[..|s| - 1], y);
      assert forall i :: 0 <= i < |s| - 1 ==> s[..|s| - 1][i] == s[i];
    }
  }

  /** The order of the source decides only the order of what is collected. */
  lemma {:induction false} CollectPermutes<A, B>(pick: A -> Option<B>, s: seq<A>, t: seq<A>)
    requires multiset(s) == multiset(t)
    ensures multiset(Collect(pick, s)) == multiset(Collect(pick, t))
  {
    if s == [] {
      assert |multiset(t)| == 0;
    } else {
      var x := s[|s| - 1];
      WithoutLast(s);
      assert x in multiset(t);
      var j :| 0 <= j < |t| && t[j] == x;
      var (before, after) := (t[..j], t[j + 1..]);
      assert t == before + [x] + after;
      assert multiset(before + after) == multiset(s[..|s| - 1]);
      CollectPermutes(pick, s[..|s| - 1], before + after);
      CollectConcat(pick, s[..|s| - 1], [x]);
      CollectConcat(pick, before, after);
      CollectConcat(pick, before + [x], after);
      CollectConcat(pick, before, [x]);
    }
  }
}
