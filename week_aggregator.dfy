/**
 * The week filter and the seconds sum behind TimeManager's weekly queries
 * (ShiftTrack/Models/TimeManager.swift, `currentWeekEntries` and
 * `hoursWorkedThisWeek`).
 *
 * The week's first instant comes from the calendar, which is not modelled:
 * it is a parameter, `None` when the calendar cannot build the date (the
 * source's `guard ... else { return [] }`).
 */
module WeekAggregator {
  import opened Options
  import opened Entries

  /** True when the entry starts in the half-open week [startOfWeek, startOfWeek + 7 days). */
  predicate StartsInWeek(e: TimeEntry, startOfWeek: Instant) {
    startOfWeek <= e.startTime < startOfWeek + 7 * SecondsPerDay
  }

  /** The entries that start in the week beginning at `startOfWeek`, in list order. */
  function InWeek(entries: seq<TimeEntry>, startOfWeek: Instant): (r: seq<TimeEntry>)
    ensures |r| <= |entries|
    ensures forall e :: e in r <==> e in entries && StartsInWeek(e, startOfWeek)
  {
    if entries == [] then []
    else
      (if StartsInWeek(entries[0], startOfWeek) then [entries[0]] else [])
      + InWeek(entries[1..], startOfWeek)
  }

  /** The current week's entries; none when the week start cannot be resolved. */
  function WeekEntries(entries: seq<TimeEntry>, startOfWeek: Option<Instant>): (r: seq<TimeEntry>)
    ensures |r| <= |entries|
    ensures forall e :: e in r <==> e in entries && startOfWeek.Some? && StartsInWeek(e, startOfWeek.value)
  {
    match startOfWeek
    case None => []
    case Some(s) => InWeek(entries, s)
  }

  /** Sum of the durations, accumulated from the left as `reduce(0) { $0 + $1.duration }` does. */
  function TotalSeconds(entries: seq<TimeEntry>): (total: int)
    ensures (forall e :: e in entries ==> Duration(e) >= 0) ==> total >= 0
  {
    if entries == [] then 0
    else TotalSeconds(entries[..|entries| - 1]) + Duration(entries[|entries| - 1])
  }

  /** Hours worked in the week: the in-week seconds divided by 3600. */
  function HoursIn(entries: seq<TimeEntry>, startOfWeek: Option<Instant>): (h: real)
    ensures (forall e :: e in entries ==> Duration(e) >= 0) ==> h >= 0.0
    ensures startOfWeek.None? ==> h == 0.0
  {
    TotalSeconds(WeekEntries(entries, startOfWeek)) as real / SecondsPerHour
  }

  // ---------------------------------------------------------------------
  // The filter keeps order and counts
  // ---------------------------------------------------------------------

  /** Filtering a concatenation filters each part: relative order is preserved. */
  lemma {:induction false} InWeekAppend(a: seq<TimeEntry>, b: seq<TimeEntry>, startOfWeek: Instant)
    ensures InWeek(a + b, startOfWeek) == InWeek(a, startOfWeek) + InWeek(b, startOfWeek)
  {
    if a == [] {
      assert a + b == b;
    } else {
      assert (a + b)[0] == a[0];
      assert (a + b)[1..] == a[1..] + b;
      InWeekAppend(a[1..], b, startOfWeek);
    }
  }

  /** Filtering twice is filtering once. */
  lemma {:induction false} InWeekIdempotent(entries: seq<TimeEntry>, startOfWeek: Instant)
    ensures InWeek(InWeek(entries, startOfWeek), startOfWeek) == InWeek(entries, startOfWeek)
  {
    if entries != [] {
      var head := if StartsInWeek(entries[0], startOfWeek) then [entries[0]] else [];
      InWeekIdempotent(entries[1..], startOfWeek);
      InWeekAppend(head, InWeek(entries[1..], startOfWeek), startOfWeek);
      if head != [] {
        assert InWeek(head, startOfWeek) == head by {
          assert head[1..] == [];
        }
      }
    }
  }

  /** Every in-week entry keeps its multiplicity; every other entry is dropped. */
  lemma {:induction false} InWeekCount(entries: seq<TimeEntry>, startOfWeek: Instant, x: TimeEntry)
    ensures multiset(InWeek(entries, startOfWeek))[x]
            == if StartsInWeek(x, startOfWeek) then multiset(entries)[x] else 0
  {
    if entries != [] {
      var head := if StartsInWeek(entries[0], startOfWeek) then [entries[0]] else [];
      InWeekCount(entries[1..], startOfWeek, x);
      assert entries == [entries[0]] + entries[1..];
      assert multiset(InWeek(entries, startOfWeek)) == multiset(head) + multiset(InWeek(entries[1..], startOfWeek));
    }
  }

  /** Entries that are a permutation of each other have in-week parts that are too. */
  lemma InWeekPermutation(a: seq<TimeEntry>, b: seq<TimeEntry>, startOfWeek: Instant)
    requires multiset(a) == multiset(b)
    ensures multiset(InWeek(a, startOfWeek)) == multiset(InWeek(b, startOfWeek))
  {
    forall x
      ensures multiset(InWeek(a, startOfWeek))[x] == multiset(InWeek(b, startOfWeek))[x]
    {
      InWeekCount(a, startOfWeek, x);
      InWeekCount(b, startOfWeek, x);
    }
  }

  // ---------------------------------------------------------------------
  // The seconds sum is additive and ignores order
  // ---------------------------------------------------------------------

  /** The total over a concatenation is the sum of the totals. */
  lemma {:induction false} TotalSecondsAppend(a: seq<TimeEntry>, b: seq<TimeEntry>)
    ensures TotalSeconds(a + b) == TotalSeconds(a) + TotalSeconds(b)
  {
    if b == [] {
      assert a + b == a;
    } else {
      var ab := a + b;
      assert ab[..|ab| - 1] == a + b[..|b| - 1];
      assert ab[|ab| - 1] == b[|b| - 1];
      TotalSecondsAppend(a, b[..|b| - 1]);
    }
  }

  /** Appending one entry adds its duration to the total. */
  lemma TotalSecondsSnoc(front: seq<TimeEntry>, x: TimeEntry)
    ensures TotalSeconds(front + [x]) == TotalSeconds(front) + Duration(x)
  {
    assert (front + [x])[..|front|] == front;
  }

  /** Taking out the entry at `k` lowers the total by that entry's duration. */
  lemma {:induction false} TotalSecondsRemoveAt(b: seq<TimeEntry>, k: nat)
    requires k < |b|
    ensures TotalSeconds(b) == TotalSeconds(b[..k] + b[k + 1..]) + Duration(b[k])
    decreases |b|
  {
    var front, last := b[..|b| - 1], b[|b| - 1];
    if k == |b| - 1 {
      assert b[..k] + b[k + 1..] == front;
    } else {
      TotalSecondsRemoveAt(front, k);
      assert front[k] == b[k];
      assert b[..k] + b[k + 1..] == (front[..k] + front[k + 1..]) + [last];
      TotalSecondsSnoc(front[..k] + front[k + 1..], last);
    }
  }

  /** The total does not depend on the order of the entries. */
  lemma {:induction false} TotalSecondsPermutation(a: seq<TimeEntry>, b: seq<TimeEntry>)
    requires multiset(a) == multiset(b)
    ensures TotalSeconds(a) == TotalSeconds(b)
    decreases |a|
  {
    if a == [] {
      assert |b| == |multiset(b)| == 0;
    } else {
      var front, x := a[..|a| - 1], a[|a| - 1];
      assert a == front + [x];
      assert multiset(a) == multiset(front) + multiset{x};
      assert x in multiset(b);
      var k :| 0 <= k < |b| && b[k] == x;
      var rest := b[..k] + b[k + 1..];
      assert b == b[..k] + [x] + b[k + 1..];
      assert multiset(b) == multiset(b[..k]) + multiset{x} + multiset(b[k + 1..]);
      assert multiset(rest) == multiset(b[..k]) + multiset(b[k + 1..]);
      assert multiset(front) == multiset(a) - multiset{x};
      assert multiset(rest) == multiset(b) - multiset{x};
      TotalSecondsPermutation(front, rest);
      TotalSecondsRemoveAt(b, k);
    }
  }

  /**
   * Hours are additive over a disjoint split of the entries: when the
   * entries are exactly the parts `a` and `b` put together (in any order),
   * the week's hours are the hours of `a` plus the hours of `b`.
   */
  lemma HoursInSplit(entries: seq<TimeEntry>, a: seq<TimeEntry>, b: seq<TimeEntry>, startOfWeek: Option<Instant>)
    requires multiset(entries) == multiset(a) + multiset(b)
    ensures HoursIn(entries, startOfWeek) == HoursIn(a, startOfWeek) + HoursIn(b, startOfWeek)
  {
    if startOfWeek.Some? {
      var s := startOfWeek.value;
      assert multiset(entries) == multiset(a + b);
      InWeekPermutation(entries, a + b, s);
      InWeekAppend(a, b, s);
      TotalSecondsPermutation(InWeek(entries, s), InWeek(a, s) + InWeek(b, s));
      TotalSecondsAppend(InWeek(a, s), InWeek(b, s));
    }
  }

  /**
   * Adding one entry (in any position) changes the week's hours by that
   * entry's hours when it starts in the week, and not at all otherwise.
   */
  lemma HoursInAfterAdd(before: seq<TimeEntry>, after: seq<TimeEntry>, e: TimeEntry, startOfWeek: Option<Instant>)
    requires multiset(after) == multiset(before) + multiset{e}
    ensures HoursIn(after, startOfWeek)
            == HoursIn(before, startOfWeek)
               + (if startOfWeek.Some? && StartsInWeek(e, startOfWeek.value) then Hours(e) else 0.0)
  {
    HoursInSplit(after, before, [e], startOfWeek);
    if startOfWeek.Some? {
      var s := startOfWeek.value;
      assert [e][1..] == [];
      assert InWeek([e], s) == if StartsInWeek(e, s) then [e] else [];
      assert TotalSeconds([e]) == Duration(e) by {
        assert [e][..0] == [];
      }
    }
  }
}
