/**
 Ordering of expense listings by date, newest first, as the listing handler
 sorts with the comparator `(a, b) => b.date - a.date`.
 */
module DateOrder {
  import opened ExpenseModel

  /** `s` is ordered by date, newest first (non-increasing). */
  ghost predicate NewestFirst(s: seq<Expense>)
  {
    forall i, j :: 0 <= i < j < |s| ==> s[i].date >= s[j].date
  }

  /** Every element of `s` is no newer than `d`. */
  ghost predicate AllAtMost(s: seq<Expense>, d: int)
  {
    forall i :: 0 <= i < |s| ==> s[i].date <= d
  }

  /** A record no older than everything in a newest-first sequence can go in front of it. */
  lemma ConsKeepsOrder(h: Expense, t: seq<Expense>)
    requires NewestFirst(t) && AllAtMost(t, h.date)
    ensures NewestFirst([h] + t)
  {
  }

  /** A bound on every date carries over to a sequence holding the same records plus one within the bound. */
  lemma AtMostByMultiset(r: seq<Expense>, s: seq<Expense>, x: Expense, d: int)
    requires multiset(r) == multiset(s) + multiset{x}
    requires AllAtMost(s, d) && x.date <= d
    ensures AllAtMost(r, d)
  {
    forall i | 0 <= i < |r|
      ensures r[i].date <= d
    {
      assert r[i] in multiset(r);
      if r[i] != x {
        assert r[i] in multiset(s);
        var k :| 0 <= k < |s| && s[k] == r[i];
      }
    }
  }

  /** Places `x` into a newest-first sequence, ahead of any records with the same date. */
  function Insert(x: Expense, s: seq<Expense>): (r: seq<Expense>)
    requires NewestFirst(s)
    ensures NewestFirst(r)
    ensures multiset(r) == multiset(s) + multiset{x}
    ensures |r| == |s| + 1
  {
    if |s| == 0 then [x]
    else if x.date >= s[0].date then
      assert AllAtMost(s, x.date);
      ConsKeepsOrder(x, s);
      [x] + s
    else
      assert s == [s[0]] + s[1..];
      var rest := Insert(x, s[1..]);
      assert AllAtMost(s[1..], s[0].date);
      AtMostByMultiset(rest, s[1..], x, s[0].date);
      ConsKeepsOrder(s[0], rest);
      [s[0]] + rest
  }

  /** Sorts `s` newest first; a permutation of `s`. */
  function SortNewestFirst(s: seq<Expense>): (r: seq<Expense>)
    ensures NewestFirst(r)
    ensures multiset(r) == multiset(s)
    ensures |r| == |s|
  {
    if |s| == 0 then []
    else
      assert s == [s[0]] + s[1..];
      Insert(s[0], SortNewestFirst(s[1..]))
  }

  /** Sorting a sequence that is already newest first leaves it as it is. */
  lemma {:induction false} SortKeepsSorted(s: seq<Expense>)
    requires NewestFirst(s)
    ensures SortNewestFirst(s) == s
  {
    if |s| > 0 {
      SortKeepsSorted(s[1..]);
      assert |s| == 1 || s[0].date >= s[1].date;
    }
  }

  /** The first element of a non-empty newest-first sequence is at least as new as every element. */
  lemma HeadIsNewest(s: seq<Expense>, e: Expense)
    requires NewestFirst(s) && e in s
    ensures s[0].date >= e.date
  {
  }

  /** Removing one element from a newest-first sequence keeps it newest first and drops exactly that element. */
  lemma RemoveAtKeepsOrder(b: seq<Expense>, k: nat)
    requires NewestFirst(b) && k < |b|
    ensures NewestFirst(b[..k] + b[k+1..])
    ensures multiset(b[..k] + b[k+1..]) + multiset{b[k]} == multiset(b)
  {
    var b' := b[..k] + b[k+1..];
    assert b == b[..k] + [b[k]] + b[k+1..];
    forall i, j | 0 <= i < j < |b'|
      ensures b'[i].date >= b'[j].date
    {
      var i' := if i < k then i else i + 1;
      var j' := if j < k then j else j + 1;
      assert b'[i] == b[i'] && b'[j] == b[j'];
    }
  }

  /**
   If `a` minus its head lists the same dates as `b` minus the element at `k`,
   and the heads and `b[k]` share one date, then `a` and `b` list the same dates.
   */
  lemma DatesAfterRemoval(a: seq<Expense>, b: seq<Expense>, k: nat, b': seq<Expense>)
    requires NewestFirst(b) && 0 < |a| == |b| && k < |b|
    requires b' == b[..k] + b[k+1..]
    requires a[0].date == b[0].date == b[k].date
    requires forall i :: 0 <= i < |b'| ==> a[i+1].date == b'[i].date
    ensures forall i :: 0 <= i < |a| ==> a[i].date == b[i].date
  {
    forall i | 0 <= i < |a|
      ensures a[i].date == b[i].date
    {
      if 0 < i <= k {
        assert b'[i-1] == b[i-1];
        assert b[0].date >= b[i].date >= b[k].date;
      } else if i > k {
        assert b'[i-1] == b[i];
      }
    }
  }

  /** The head of `s` followed by the rest of it. */
  lemma HeadTail(s: seq<Expense>)
    requires |s| > 0
    ensures multiset(s) == multiset{s[0]} + multiset(s[1..])
  {
    assert s == [s[0]] + s[1..];
  }

  /**
   Two newest-first orderings of the same records list the same dates in the
   same order: the sort's output is determined up to the order of equal-date records.
   */
  lemma {:induction false} SortedPermutationsAgreeOnDates(a: seq<Expense>, b: seq<Expense>)
    requires NewestFirst(a) && NewestFirst(b)
    requires multiset(a) == multiset(b)
    ensures |a| == |b|
    ensures forall i :: 0 <= i < |a| ==> a[i].date == b[i].date
  {
    assert |a| == |multiset(a)| == |multiset(b)| == |b|;
    if |a| > 0 {
      assert a[0] in multiset(b);
      assert b[0] in multiset(a);
      HeadIsNewest(b, a[0]);
      HeadIsNewest(a, b[0]);
      var k :| 0 <= k < |b| && b[k] == a[0];
      var b' := b[..k] + b[k+1..];
      RemoveAtKeepsOrder(b, k);
      HeadTail(a);
      assert multiset(a[1..]) == multiset(a) - multiset{a[0]};
      assert multiset(b') == multiset(b) - multiset{a[0]};
      assert NewestFirst(a[1..]);
      SortedPermutationsAgreeOnDates(a[1..], b');
      DatesAfterRemoval(a, b, k, b');
    }
  }
}
