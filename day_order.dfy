/**
 * The two in-place sorts of `dailyData` (route.ts, lines 115 and 127).
 * A JavaScript `sort` is stable, so either one is fixed by its comparator;
 * insertion sort, which is stable, stands for it.
 */
module DayOrder {
  import opened Outcomes
  import opened Lex
  import opened Tallies

  datatype Order = ByDate | ByCount

  /**
   * The comparator given to `sort`: `(a, b) => a.date.localeCompare(b.date)`
   * or `(a, b) => b.count - a.count`. A positive result puts a after b.
   */
  function Compare(o: Order, a: DayCount, b: DayCount): int {
    match o
    case ByDate => LexCompare(a.date, b.date)
    case ByCount => b.count - a.count
  }

  /** Insert x into r, passing from the right every element that must come after x. */
  function Insert(r: seq<DayCount>, x: DayCount, o: Order): (s: seq<DayCount>)
    ensures |s| == |r| + 1
  {
    if r == [] then [x]
    else if Compare(o, r[|r| - 1], x) > 0 then Insert(r[..|r| - 1], x, o) + [r[|r| - 1]]
    else r + [x]
  }

  /** The stable sort of s under the comparator: each element inserted in turn. */
  function InsertionSort(s: seq<DayCount>, o: Order): (r: seq<DayCount>)
    ensures |r| == |s|
  {
    if s == [] then [] else Insert(InsertionSort(s[..|s| - 1], o), s[|s| - 1], o)
  }

  /** Inserting adds x and loses nothing. */
  lemma {:induction false} InsertPermutes(r: seq<DayCount>, x: DayCount, o: Order)
    ensures multiset(Insert(r, x, o)) == multiset(r) + multiset{x}
    ensures TotalCount(Insert(r, x, o)) == TotalCount(r) + x.count
  {
    if r == [] {
      assert Insert(r, x, o) == [] + [x];
      TotalAppend([], x);
    } else {
      var p, last := r[..|r| - 1], r[|r| - 1];
      assert r == p + [last];
      TotalAppend(p, last);
      if Compare(o, last, x) > 0 {
        InsertPermutes(p, x, o);
        TotalAppend(Insert(p, x, o), last);
      } else {
        TotalAppend(r, x);
      }
    }
  }

  /** The sort is a permutation, so it also keeps the total count. */
  lemma {:induction false} SortPermutes(s: seq<DayCount>, o: Order)
    ensures multiset(InsertionSort(s, o)) == multiset(s)
    ensures TotalCount(InsertionSort(s, o)) == TotalCount(s)
  {
    if s != [] {
      var p, x := s[..|s| - 1], s[|s| - 1];
      assert s == p + [x];
      TotalAppend(p, x);
      SortPermutes(p, o);
      InsertPermutes(InsertionSort(p, o), x, o);
    }
  }

  // ---------------------------------------------------------------------
  // The orders the two sorts produce

  predicate StrictlyByDate(ds: seq<DayCount>) {
    forall i, j :: 0 <= i < j < |ds| ==> LexLess(ds[i].date, ds[j].date)
  }

  /** x is listed before y: a larger count, or the same count and an earlier date. */
  predicate Outranks(x: DayCount, y: DayCount) {
    x.count > y.count || (x.count == y.count && LexLess(x.date, y.date))
  }

  predicate Ranked(ds: seq<DayCount>) {
    forall i, j :: 0 <= i < j < |ds| ==> Outranks(ds[i], ds[j])
  }

  lemma {:induction false} InsertByDate(r: seq<DayCount>, x: DayCount)
    requires StrictlyByDate(r)
    requires forall i :: 0 <= i < |r| ==> r[i].date != x.date
    ensures StrictlyByDate(Insert(r, x, ByDate))
  {
    if r != [] {
      var p, last := r[..|r| - 1], r[|r| - 1];
      LexCompareMeaning(last.date, x.date);
      if Compare(ByDate, last, x) > 0 {
        InsertByDate(p, x);
        InsertPermutes(p, x, ByDate);
        var q := Insert(p, x, ByDate);
        forall i | 0 <= i < |q| ensures LexLess(q[i].date, last.date) {
          assert q[i] in multiset(q);
          if q[i] != x {
            assert q[i] in p;
          }
        }
      } else {
        forall i | 0 <= i < |p| ensures LexLess(r[i].date, x.date) {
          LexTransitive(r[i].date, last.date, x.date);
        }
      }
    }
  }

  /** Sorting entries with pairwise distinct dates by date leaves them strictly ascending. */
  lemma {:induction false} DateSortAscends(s: seq<DayCount>)
    requires DistinctDates(s)
    ensures StrictlyByDate(InsertionSort(s, ByDate))
  {
    if s != [] {
      var p, x := s[..|s| - 1], s[|s| - 1];
      DateSortAscends(p);
      SortPermutes(p, ByDate);
      var q := InsertionSort(p, ByDate);
      forall i | 0 <= i < |q| ensures q[i].date != x.date {
        assert q[i] in multiset(p);
      }
      InsertByDate(q, x);
    }
  }

  lemma {:induction false} InsertByCount(r: seq<DayCount>, x: DayCount)
    requires Ranked(r)
    requires forall i :: 0 <= i < |r| ==> LexLess(r[i].date, x.date)
    ensures Ranked(Insert(r, x, ByCount))
  {
    if r != [] {
      var p, last := r[..|r| - 1], r[|r| - 1];
      if Compare(ByCount, last, x) > 0 {
        InsertByCount(p, x);
        InsertPermutes(p, x, ByCount);
        var q := Insert(p, x, ByCount);
        forall i | 0 <= i < |q| ensures Outranks(q[i], last) {
          assert q[i] in multiset(q);
          if q[i] != x {
            assert q[i] in p;
          }
        }
      }
    }
  }

  /**
   * Stably sorting a date-ascending list by count descending ranks it:
   * larger counts first, equal counts in date order.
   */
  lemma {:induction false} CountSortRanks(s: seq<DayCount>)
    requires StrictlyByDate(s)
    ensures Ranked(InsertionSort(s, ByCount))
  {
    if s != [] {
      var p, x := s[..|s| - 1], s[|s| - 1];
      CountSortRanks(p);
      SortPermutes(p, ByCount);
      var q := InsertionSort(p, ByCount);
      forall i | 0 <= i < |q| ensures LexLess(q[i].date, x.date) {
        assert q[i] in multiset(p);
      }
      InsertByCount(q, x);
    }
  }

  // ---------------------------------------------------------------------
  // The sort as the endpoint runs it: in place on the array

  /** Sort the array in place, one insertion at a time. */
  method SortInPlace(a: array<DayCount>, o: Order)
    modifies a
    ensures a[..] == InsertionSort(old(a[..]), o)
  {
    ghost var input := a[..];
    var i := 0;
    while i < a.Length
      invariant 0 <= i <= a.Length
      invariant a[..i] == InsertionSort(input[..i], o)
      invariant forall k :: i <= k < a.Length ==> a[k] == input[k]
    {
      InsertInPlace(a, i, o);
      assert input[..i + 1] == input[..i] + [input[i]];
      i := i + 1;
    }
    assert input[..a.Length] == input;
  }

  /**
   * Where Insert puts x: after r[..j] and before r[j..], when every element of
   * r[j..] must come after x and r[j - 1], if any, need not.
   */
  lemma {:induction false} InsertAt(r: seq<DayCount>, j: nat, x: DayCount, o: Order)
    requires j <= |r|
    requires forall k :: j <= k < |r| ==> Compare(o, r[k], x) > 0
    requires j == 0 || Compare(o, r[j - 1], x) <= 0
    ensures Insert(r, x, o) == r[..j] + [x] + r[j..]
    decreases |r|
  {
    if j < |r| {
      var p := r[..|r| - 1];
      InsertAt(p, j, x, o);
      assert p[..j] == r[..j] && p[j..] + [r[|r| - 1]] == r[j..];
    } else if r != [] {
      assert r[..j] == r;
    }
  }

  /** Move a[i] left past every element of the sorted prefix a[..i] that must come after it. */
  method InsertInPlace(a: array<DayCount>, i: nat, o: Order)
    requires i < a.Length
    modifies a
    ensures a[..i + 1] == Insert(old(a[..i]), old(a[i]), o)
    ensures forall k :: i < k < a.Length ==> a[k] == old(a[k])
  {
    var key := a[i];
    ghost var r := a[..i];
    var j := i;
    while j > 0 && Compare(o, a[j - 1], key) > 0
      invariant 0 <= j <= i
      invariant forall k :: 0 <= k < j ==> a[k] == r[k]
      invariant forall k :: j < k <= i ==> a[k] == r[k - 1]
      invariant forall k :: i < k < a.Length ==> a[k] == old(a[k])
      invariant forall k :: j <= k < i ==> Compare(o, r[k], key) > 0
    {
      a[j] := a[j - 1];
      j := j - 1;
    }
    InsertAt(r, j, key, o);
    a[j] := key;
    Spliced(a[..], r, j, key);
  }

  lemma Spliced(s: seq<DayCount>, r: seq<DayCount>, j: nat, x: DayCount)
    requires j <= |r| < |s|
    requires forall k :: 0 <= k < j ==> s[k] == r[k]
    requires s[j] == x
    requires forall k :: j < k <= |r| ==> s[k] == r[k - 1]
    ensures s[..|r| + 1] == r[..j] + [x] + r[j..]
  {
  }
}
