/**
 * The ordering of the payment cache: `sort((a, b) => safeDate(b.paymentDate)
 * - safeDate(a.paymentDate))`, newest first, an undated payment counting as
 * the epoch, applied in place; and the "latest three" prefix taken from it.
 * JavaScript's sort is stable, so the order is fully determined: the stable
 * insertion sort `SortedByDate` below.
 */
module PaymentSort {
  import opened Seqs
  import opened Entities

  /** Newest first, by `safeDate`. */
  ghost predicate SortedDesc(s: seq<Payment>) {
    forall i, j :: 0 <= i < j < |s| ==> SafeTime(s[i]) >= SafeTime(s[j])
  }

  /** Places `x` after every entry at least as recent as it, before the first older one. */
  function Insert(x: Payment, s: seq<Payment>): (r: seq<Payment>)
    ensures |r| == |s| + 1
  {
    if s == [] then [x]
    else if SafeTime(s[0]) >= SafeTime(x) then [s[0]] + Insert(x, s[1..])
    else [x] + s
  }

  /** The order the stable sort leaves the payments in. */
  function SortedByDate(s: seq<Payment>): (r: seq<Payment>)
    ensures |r| == |s|
  {
    if s == [] then [] else Insert(s[|s| - 1], SortedByDate(s[..|s| - 1]))
  }

  lemma {:induction false} InsertPermutes(x: Payment, s: seq<Payment>)
    ensures multiset(Insert(x, s)) == multiset(s) + multiset{x}
  {
    if s != [] && SafeTime(s[0]) >= SafeTime(x) {
      InsertPermutes(x, s[1..]);
      assert s == [s[0]] + s[1..];
    }
  }

  /** If `x` and every entry of `s` are at most `b`, so is every entry of `Insert(x, s)`. */
  lemma {:induction false} InsertBelow(x: Payment, s: seq<Payment>, b: int)
    requires SafeTime(x) <= b
    requires forall k :: 0 <= k < |s| ==> SafeTime(s[k]) <= b
    ensures forall k :: 0 <= k < |Insert(x, s)| ==> SafeTime(Insert(x, s)[k]) <= b
  {
    if s != [] && SafeTime(s[0]) >= SafeTime(x) {
      InsertBelow(x, s[1..], b);
      var r := Insert(x, s[1..]);
      assert forall k :: 1 <= k < |r| + 1 ==> ([s[0]] + r)[k] == r[k - 1];
    }
  }

  lemma SortedCons(h: Payment, t: seq<Payment>)
    requires SortedDesc(t)
    requires forall k :: 0 <= k < |t| ==> SafeTime(t[k]) <= SafeTime(h)
    ensures SortedDesc([h] + t)
  {
    var r := [h] + t;
    forall i, j | 0 <= i < j < |r| ensures SafeTime(r[i]) >= SafeTime(r[j]) {
      assert r[j] == t[j - 1];
      if i > 0 { assert r[i] == t[i - 1]; }
    }
  }

  lemma {:induction false} InsertSorted(x: Payment, s: seq<Payment>)
    requires SortedDesc(s)
    ensures SortedDesc(Insert(x, s))
  {
    if s == [] {
    } else if SafeTime(s[0]) >= SafeTime(x) {
      var t := s[1..];
      assert SortedDesc(t) by {
        forall i, j | 0 <= i < j < |t| ensures SafeTime(t[i]) >= SafeTime(t[j]) {
          assert t[i] == s[i + 1] && t[j] == s[j + 1];
        }
      }
      InsertSorted(x, t);
      forall k | 0 <= k < |t| ensures SafeTime(t[k]) <= SafeTime(s[0]) {
        assert t[k] == s[k + 1];
      }
      InsertBelow(x, t, SafeTime(s[0]));
      SortedCons(s[0], Insert(x, t));
    } else {
      forall k | 0 <= k < |s| ensures SafeTime(s[k]) <= SafeTime(x) {
        assert SafeTime(s[k]) <= SafeTime(s[0]);
      }
      SortedCons(x, s);
    }
  }

  /** The sorted order is a permutation of the input, newest first. */
  lemma {:induction false} SortedByDateSpec(s: seq<Payment>)
    ensures multiset(SortedByDate(s)) == multiset(s)
    ensures SortedDesc(SortedByDate(s))
  {
    if s != [] {
      var init, x := s[..|s| - 1], s[|s| - 1];
      assert s == init + [x];
      SortedByDateSpec(init);
      InsertPermutes(x, SortedByDate(init));
      InsertSorted(x, SortedByDate(init));
    }
  }

  function AtTime(t: int): Payment -> bool {
    (p: Payment) => SafeTime(p) == t
  }

  lemma {:induction false} NoneAtTime(s: seq<Payment>, t: int)
    requires forall i :: 0 <= i < |s| ==> SafeTime(s[i]) != t
    ensures Filter(s, AtTime(t)) == []
  {
    if s != [] {
      NoneAtTime(s[1..], t);
    }
  }

  lemma SortedTail(s: seq<Payment>)
    requires s != [] && SortedDesc(s)
    ensures SortedDesc(s[1..])
    ensures forall k :: 0 <= k < |s| ==> SafeTime(s[k]) <= SafeTime(s[0])
  {
    forall i, j | 0 <= i < j < |s[1..]| ensures SafeTime(s[1..][i]) >= SafeTime(s[1..][j]) {
      assert s[1..][i] == s[i + 1] && s[1..][j] == s[j + 1];
    }
  }

  /** Inserting a payment newer than the whole list puts it in front, ahead of nothing of its time. */
  lemma InsertNewest(x: Payment, s: seq<Payment>, t: int)
    requires SortedDesc(s) && s != [] && SafeTime(s[0]) < SafeTime(x)
    ensures Filter(Insert(x, s), AtTime(t)) == Filter(s, AtTime(t)) + (if SafeTime(x) == t then [x] else [])
  {
    FilterAppend([x], s, AtTime(t));
    SortedTail(s);
    if SafeTime(x) == t {
      NoneAtTime(s, t);
    }
  }

  /** Inserting a payment puts it after every payment of the same time. */
  lemma {:induction false} InsertStable(x: Payment, s: seq<Payment>, t: int)
    requires SortedDesc(s)
    ensures Filter(Insert(x, s), AtTime(t)) == Filter(s, AtTime(t)) + (if SafeTime(x) == t then [x] else [])
  {
    if s == [] {
    } else if SafeTime(s[0]) >= SafeTime(x) {
      SortedTail(s);
      InsertStable(x, s[1..], t);
      FilterAppend([s[0]], Insert(x, s[1..]), AtTime(t));
    } else {
      InsertNewest(x, s, t);
    }
  }

  /**
   * The sort is stable: for every time, the payments of that time appear in
   * the sorted list in the order they had before.
   */
  lemma {:induction false} SortedByDateStable(s: seq<Payment>, t: int)
    ensures Filter(SortedByDate(s), AtTime(t)) == Filter(s, AtTime(t))
  {
    if s != [] {
      var init, x := s[..|s| - 1], s[|s| - 1];
      var sorted := SortedByDate(init);
      assert s == init + [x];
      assert SortedByDate(s) == Insert(x, sorted);
      SortedByDateStable(init, t);
      SortedByDateSpec(init);
      InsertStable(x, sorted, t);
      FilterAppend(init, [x], AtTime(t));
      assert [x][1..] == [];
      assert Filter([x], AtTime(t)) == if SafeTime(x) == t then [x] else [];
    }
  }

  /** Where `Insert` puts `x` in a sorted list: at the first entry older than it. */
  lemma {:induction false} InsertAt(x: Payment, s: seq<Payment>, j: nat)
    requires SortedDesc(s) && j <= |s|
    requires j == 0 || SafeTime(s[j - 1]) >= SafeTime(x)
    requires forall k :: j <= k < |s| ==> SafeTime(s[k]) < SafeTime(x)
    ensures Insert(x, s) == s[..j] + [x] + s[j..]
  {
    if j > 0 {
      assert SafeTime(s[0]) >= SafeTime(x);
      InsertAt(x, s[1..], j - 1);
      assert s[1..][..j - 1] == s[1..j];
      assert s[..j] == [s[0]] + s[1..j];
      assert s[1..][j - 1..] == s[j..];
    } else if s != [] {
      assert SafeTime(s[0]) < SafeTime(x);
    }
  }

  /** The array contents left by the shifting loop are the stable insertion. */
  lemma ShiftedIsInsert(b: seq<Payment>, p: seq<Payment>, x: Payment, j: nat)
    requires SortedDesc(p) && |b| == |p| + 1 && j <= |p|
    requires forall k :: 0 <= k < j ==> b[k] == p[k]
    requires b[j] == x
    requires forall k :: j < k < |b| ==> b[k] == p[k - 1]
    requires j == 0 || SafeTime(p[j - 1]) >= SafeTime(x)
    requires forall k :: j <= k < |p| ==> SafeTime(p[k]) < SafeTime(x)
    ensures b == Insert(x, p)
  {
    assert b == p[..j] + [x] + p[j..];
    InsertAt(x, p, j);
  }

  /** One step of the in-place sort: `a[i]` moves left past every older entry of the sorted prefix. */
  method InsertInPlace(a: array<Payment>, i: nat)
    requires i < a.Length && SortedDesc(a[..i])
    modifies a
    ensures a[..i + 1] == Insert(old(a[i]), old(a[..i]))
    ensures forall k :: i < k < a.Length ==> a[k] == old(a[k])
  {
    ghost var p := a[..i];
    var x := a[i];
    var j := i;
    while j > 0 && SafeTime(a[j - 1]) < SafeTime(x)
      invariant 0 <= j <= i
      invariant forall k :: 0 <= k < j ==> a[k] == p[k]
      invariant forall k :: j < k <= i ==> a[k] == p[k - 1]
      invariant forall k :: i < k < a.Length ==> a[k] == old(a[k])
      invariant forall k :: j <= k < i ==> SafeTime(p[k]) < SafeTime(x)
    {
      a[j] := a[j - 1];
      j := j - 1;
    }
    a[j] := x;
    ShiftedIsInsert(a[..i + 1], p, x, j);
  }

  /** Sorting one more payment inserts it into the sorted earlier ones. */
  lemma SortedByDateSnoc(s: seq<Payment>, i: nat)
    requires i < |s|
    ensures SortedByDate(s[..i + 1]) == Insert(s[i], SortedByDate(s[..i]))
    ensures SortedDesc(SortedByDate(s[..i]))
  {
    assert s[..i + 1][..i] == s[..i];
    SortedByDateSpec(s[..i]);
  }

  /** The in-place sort of `fetchPayments` and `createPayment`. */
  method SortByDateDesc(a: array<Payment>)
    modifies a
    ensures a[..] == SortedByDate(old(a[..]))
  {
    ghost var orig := a[..];
    var i := 0;
    while i < a.Length
      invariant 0 <= i <= a.Length
      invariant a[..i] == SortedByDate(orig[..i])
      invariant forall k :: i <= k < a.Length ==> a[k] == orig[k]
    {
      SortedByDateSnoc(orig, i);
      InsertInPlace(a, i);
      i := i + 1;
    }
    assert a[..] == a[..a.Length];
    assert orig[..a.Length] == orig;
  }

  /** `sorted.slice(0, 3)`. */
  function Latest(sorted: seq<Payment>): seq<Payment> {
    if |sorted| <= 3 then sorted else sorted[..3]
  }

  /** The prefix of a newest-first list is newest first and no entry after it is newer. */
  lemma LatestOfSorted(sorted: seq<Payment>)
    requires SortedDesc(sorted)
    ensures |Latest(sorted)| == if |sorted| < 3 then |sorted| else 3
    ensures Latest(sorted) == sorted[..|Latest(sorted)|]
    ensures SortedDesc(Latest(sorted))
    ensures forall k, i :: |Latest(sorted)| <= k < |sorted| && 0 <= i < |Latest(sorted)| ==> SafeTime(sorted[k]) <= SafeTime(sorted[i])
  {
  }

  /** A payment of `s` left out of the newest-first prefix `r` is no newer than any payment of `r`. */
  lemma LeftOutNotNewer(s: seq<Payment>, sorted: seq<Payment>, r: seq<Payment>)
    requires multiset(sorted) == multiset(s)
    requires |r| <= |sorted| && r == sorted[..|r|]
    requires forall k, i :: |r| <= k < |sorted| && 0 <= i < |r| ==> SafeTime(sorted[k]) <= SafeTime(sorted[i])
    ensures forall j, i :: 0 <= j < |s| && s[j] !in r && 0 <= i < |r| ==> SafeTime(s[j]) <= SafeTime(r[i])
  {
    forall j, i | 0 <= j < |s| && s[j] !in r && 0 <= i < |r| ensures SafeTime(s[j]) <= SafeTime(r[i]) {
      assert s[j] in multiset(sorted);
      var k :| 0 <= k < |sorted| && sorted[k] == s[j];
    }
  }

  /**
   * The latest payments are the min(3, n) newest: they come newest first,
   * they are payments of the list, and no payment left out is newer than
   * any of them.
   */
  lemma LatestAreNewest(s: seq<Payment>)
    ensures |Latest(SortedByDate(s))| == if |s| < 3 then |s| else 3
    ensures SortedDesc(Latest(SortedByDate(s)))
    ensures multiset(Latest(SortedByDate(s))) <= multiset(s)
    ensures forall j, i :: 0 <= j < |s| && s[j] !in Latest(SortedByDate(s)) && 0 <= i < |Latest(SortedByDate(s))|
              ==> SafeTime(s[j]) <= SafeTime(Latest(SortedByDate(s))[i])
  {
    var sorted := SortedByDate(s);
    SortedByDateSpec(s);
    LatestOfSorted(sorted);
    var r := Latest(sorted);
    assert sorted == r + sorted[|r|..];
    LeftOutNotNewer(s, sorted, r);
  }
}
