/**
 * The owner of the shift log and the pay settings
 * (ShiftTrack/Models/TimeManager.swift).
 *
 * `TimeManager` is a class whose mutators reassign its fields in place;
 * its weekly queries are functions of its fields and of the week's first
 * instant. Persistence after each mutation is not modelled.
 */
module Manager {
  import opened Options
  import opened Entries
  import opened WeekAggregator

  const DefaultHourlyWage: real := 20.0
  const DefaultTaxRate: real := 0.12
  /** Monday, in the app's numbering (1 = Monday ... 7 = Sunday). */
  const DefaultWeekStartDay: int := 1
  /** The weekly hours cap; not configurable. */
  const WeeklyHoursCap: real := 40.0

  /** Sorted by start time, newest first (ties in any order). */
  ghost predicate NewestFirst(s: seq<TimeEntry>) {
    forall i, j :: 0 <= i < j < |s| ==> s[i].startTime >= s[j].startTime
  }

  // ---------------------------------------------------------------------
  // Re-sorting after an insert
  // ---------------------------------------------------------------------

  /**
   * Putting `e` at position `k`, after every entry that starts no earlier
   * and before every entry that starts earlier, keeps a list newest first.
   */
  lemma InsertAtKeepsNewestFirst(s: seq<TimeEntry>, e: TimeEntry, k: nat)
    requires NewestFirst(s)
    requires k <= |s|
    requires forall i :: 0 <= i < k ==> s[i].startTime >= e.startTime
    requires k < |s| ==> s[k].startTime < e.startTime
    ensures NewestFirst(s[..k] + [e] + s[k..])
  {
    var r := s[..k] + [e] + s[k..];
    assert forall i :: 0 <= i < |r| ==> r[i] == (if i < k then s[i] else if i == k then e else s[i - 1]);
    forall i, j | 0 <= i < j < |r|
      ensures r[i].startTime >= r[j].startTime
    {
      if i == k && j > k {
        assert s[k].startTime >= s[j - 1].startTime;
      }
    }
  }

  /**
   * Places `e` into a newest-first list, after every entry that starts no
   * earlier, so entries with equal start times stay in arrival order.
   */
  method InsertNewestFirst(s: seq<TimeEntry>, e: TimeEntry) returns (r: seq<TimeEntry>)
    requires NewestFirst(s)
    ensures NewestFirst(r)
    ensures multiset(r) == multiset(s) + multiset{e}
  {
    var k := 0;
    while k < |s| && s[k].startTime >= e.startTime
      invariant 0 <= k <= |s|
      invariant forall i :: 0 <= i < k ==> s[i].startTime >= e.startTime
    {
      k := k + 1;
    }
    InsertAtKeepsNewestFirst(s, e, k);
    r := s[..k] + [e] + s[k..];
    assert s == s[..k] + s[k..];
  }

  /**
   * The re-sort that `addTimeEntry` performs, `sort { $0.startTime > $1.startTime }`:
   * the result is newest first and a permutation of the input.
   */
  method SortNewestFirst(s: seq<TimeEntry>) returns (r: seq<TimeEntry>)
    ensures NewestFirst(r)
    ensures multiset(r) == multiset(s)
  {
    r := [];
    var i := 0;
    while i < |s|
      invariant 0 <= i <= |s|
      invariant NewestFirst(r)
      invariant multiset(r) == multiset(s[..i])
    {
      r := InsertNewestFirst(r, s[i]);
      assert s[..i + 1] == s[..i] + [s[i]];
      i := i + 1;
    }
    assert s[..i] == s;
  }

  // ---------------------------------------------------------------------
  // Removal by identifier
  // ---------------------------------------------------------------------

  /** The list with every entry carrying `id` removed, `removeAll { $0.id == id }`. */
  function WithoutId(s: seq<TimeEntry>, id: nat): (r: seq<TimeEntry>)
    ensures |r| <= |s|
    ensures forall e :: e in r <==> e in s && e.id != id
  {
    if s == [] then []
    else (if s[0].id == id then [] else [s[0]]) + WithoutId(s[1..], id)
  }

  /** Removal from a concatenation removes from each part: the survivors keep their order. */
  lemma {:induction false} WithoutIdAppend(a: seq<TimeEntry>, b: seq<TimeEntry>, id: nat)
    ensures WithoutId(a + b, id) == WithoutId(a, id) + WithoutId(b, id)
  {
    if a == [] {
      assert a + b == b;
    } else {
      assert (a + b)[0] == a[0];
      assert (a + b)[1..] == a[1..] + b;
      WithoutIdAppend(a[1..], b, id);
    }
  }

  /** Every entry with another id keeps its multiplicity. */
  lemma {:induction false} WithoutIdCount(s: seq<TimeEntry>, id: nat, x: TimeEntry)
    ensures multiset(WithoutId(s, id))[x] == if x.id == id then 0 else multiset(s)[x]
  {
    if s != [] {
      var head := if s[0].id == id then [] else [s[0]];
      WithoutIdCount(s[1..], id, x);
      assert s == [s[0]] + s[1..];
      assert multiset(WithoutId(s, id)) == multiset(head) + multiset(WithoutId(s[1..], id));
    }
  }

  /** Removing an id that no entry carries changes nothing. */
  lemma {:induction false} WithoutAbsentId(s: seq<TimeEntry>, id: nat)
    requires forall e :: e in s ==> e.id != id
    ensures WithoutId(s, id) == s
  {
    if s != [] {
      assert s[0] in s;
      WithoutAbsentId(s[1..], id);
      assert s == [s[0]] + s[1..];
    }
  }

  /** Removal keeps a newest-first list newest first. */
  lemma {:induction false} WithoutIdNewestFirst(s: seq<TimeEntry>, id: nat)
    requires NewestFirst(s)
    ensures NewestFirst(WithoutId(s, id))
  {
    if s != [] {
      WithoutIdNewestFirst(s[1..], id);
      var rest := WithoutId(s[1..], id);
      forall e | e in rest ensures s[0].startTime >= e.startTime {
        var j :| 0 <= j < |s[1..]| && s[1..][j] == e;
        assert s[j + 1] == e;
      }
    }
  }

  /**
   * Pay after tax, `gross * (1 - taxRate)`: the gross less the tax withheld;
   * between zero and the gross for a non-negative gross and a rate in
   * [0, 1], and the gross itself at rate zero.
   */
  function AfterTax(gross: real, taxRate: real): (net: real)
    ensures net == gross - gross * taxRate
    ensures gross >= 0.0 && 0.0 <= taxRate <= 1.0 ==> 0.0 <= net <= gross
    ensures taxRate == 0.0 ==> net == gross
  {
    assert gross >= 0.0 && 0.0 <= taxRate <= 1.0 ==> gross * (1.0 - taxRate) <= gross * 1.0;
    gross * (1.0 - taxRate)
  }

  // ---------------------------------------------------------------------
  // The manager
  // ---------------------------------------------------------------------

  class TimeManager {
    var hourlyWage: real
    var taxRate: real
    /** 1 = Monday ... 7 = Sunday; not range-checked by the source. */
    var weekStartDay: int
    var timeEntries: seq<TimeEntry>

    /**
     * A manager holding what was loaded from storage. Loading itself is
     * not modelled, so the loaded values are the parameters.
     */
    constructor (entries: seq<TimeEntry>, hourlyWage: real, taxRate: real, weekStartDay: int)
      ensures this.timeEntries == entries
      ensures this.hourlyWage == hourlyWage && this.taxRate == taxRate
      ensures this.weekStartDay == weekStartDay
    {
      this.timeEntries := entries;
      this.hourlyWage := hourlyWage;
      this.taxRate := taxRate;
      this.weekStartDay := weekStartDay;
    }

    // --- mutators -------------------------------------------------------

    /**
     * Logs a shift: appends it, then re-sorts the whole list newest first.
     * No check relates `end` to `start`.
     */
    method AddTimeEntry(id: nat, start: Instant, end: Instant)
      modifies this
      ensures multiset(timeEntries) == multiset(old(timeEntries)) + multiset{TimeEntry(id, start, end)}
      ensures NewestFirst(timeEntries)
      ensures hourlyWage == old(hourlyWage) && taxRate == old(taxRate)
      ensures weekStartDay == old(weekStartDay)
      ensures forall s: Instant :: HoursWorkedThisWeek(Some(s))
                                   == old(HoursWorkedThisWeek(Some(s)))
                                      + (if StartsInWeek(TimeEntry(id, start, end), s)
                                         then Hours(TimeEntry(id, start, end)) else 0.0)
    {
      var entry := NewEntry(id, start, end);
      var appended := timeEntries + [entry];
      timeEntries := SortNewestFirst(appended);
      forall s: Instant
        ensures HoursIn(timeEntries, Some(s))
                == HoursIn(old(timeEntries), Some(s)) + (if StartsInWeek(entry, s) then Hours(entry) else 0.0)
      {
        HoursInAfterAdd(old(timeEntries), timeEntries, entry, Some(s));
      }
    }

    /** Deletes every entry with the same id as `entry`. */
    method DeleteTimeEntry(entry: TimeEntry)
      modifies this
      ensures timeEntries == WithoutId(old(timeEntries), entry.id)
      ensures forall e :: e in timeEntries ==> e.id != entry.id
      ensures (forall e :: e in old(timeEntries) ==> e.id != entry.id) ==> timeEntries == old(timeEntries)
      ensures NewestFirst(old(timeEntries)) ==> NewestFirst(timeEntries)
      ensures hourlyWage == old(hourlyWage) && taxRate == old(taxRate)
      ensures weekStartDay == old(weekStartDay)
    {
      var before := timeEntries;
      timeEntries := WithoutId(timeEntries, entry.id);
      if forall e :: e in before ==> e.id != entry.id {
        WithoutAbsentId(before, entry.id);
      }
      if NewestFirst(before) {
        WithoutIdNewestFirst(before, entry.id);
      }
    }

    /** Restores the default settings and clears the log. */
    method ResetAllData()
      modifies this
      ensures hourlyWage == DefaultHourlyWage && taxRate == DefaultTaxRate
      ensures weekStartDay == DefaultWeekStartDay
      ensures timeEntries == []
    {
      hourlyWage := DefaultHourlyWage;
      taxRate := DefaultTaxRate;
      weekStartDay := DefaultWeekStartDay;
      timeEntries := [];
    }

    /** Overwrites the three settings as given (no range checks); the log is untouched. */
    method UpdateSettings(hourlyWage: real, taxRate: real, weekStartDay: int)
      modifies this
      ensures this.hourlyWage == hourlyWage && this.taxRate == taxRate
      ensures this.weekStartDay == weekStartDay
      ensures timeEntries == old(timeEntries)
    {
      this.hourlyWage := hourlyWage;
      this.taxRate := taxRate;
      this.weekStartDay := weekStartDay;
    }

    // --- weekly queries ---------------------------------------------------

    /** The entries starting in the week that begins at `startOfWeek`, in list order. */
    function CurrentWeekEntries(startOfWeek: Option<Instant>): (r: seq<TimeEntry>)
      reads this
      ensures forall e :: e in r <==> e in timeEntries && startOfWeek.Some? && StartsInWeek(e, startOfWeek.value)
    {
      WeekEntries(timeEntries, startOfWeek)
    }

    /** Hours worked this week: in-week seconds over 3600. */
    function HoursWorkedThisWeek(startOfWeek: Option<Instant>): (h: real)
      reads this
      ensures (forall e :: e in timeEntries ==> Duration(e) >= 0) ==> h >= 0.0
      ensures startOfWeek.None? ==> h == 0.0
    {
      HoursIn(timeEntries, startOfWeek)
    }

    /** Hours left under the 40-hour cap, never below zero. */
    function HoursRemainingThisWeek(startOfWeek: Option<Instant>): (r: real)
      reads this
      ensures r >= 0.0
      ensures r == 0.0 <==> HoursWorkedThisWeek(startOfWeek) >= WeeklyHoursCap
      ensures r > 0.0 ==> r + HoursWorkedThisWeek(startOfWeek) == WeeklyHoursCap
      ensures HoursWorkedThisWeek(startOfWeek) >= 0.0 ==> r <= WeeklyHoursCap
    {
      var h := HoursWorkedThisWeek(startOfWeek);
      if 0.0 >= WeeklyHoursCap - h then 0.0 else WeeklyHoursCap - h
    }

    /** Fraction of the cap worked, capped at one. */
    function WeeklyHoursProgress(startOfWeek: Option<Instant>): (p: real)
      reads this
      ensures p <= 1.0
      ensures p == 1.0 <==> HoursWorkedThisWeek(startOfWeek) >= WeeklyHoursCap
      ensures p < 1.0 ==> p * WeeklyHoursCap == HoursWorkedThisWeek(startOfWeek)
      ensures HoursWorkedThisWeek(startOfWeek) >= 0.0 ==> p >= 0.0
    {
      var ratio := HoursWorkedThisWeek(startOfWeek) / WeeklyHoursCap;
      if 1.0 < ratio then 1.0 else ratio
    }

    /** Pay before tax for this week's hours. */
    function GrossEarningsThisWeek(startOfWeek: Option<Instant>): (g: real)
      reads this
      ensures HoursWorkedThisWeek(startOfWeek) >= 0.0 && hourlyWage >= 0.0 ==> g >= 0.0
      ensures HoursWorkedThisWeek(startOfWeek) == 0.0 || hourlyWage == 0.0 ==> g == 0.0
      ensures startOfWeek.None? ==> g == 0.0
    {
      HoursWorkedThisWeek(startOfWeek) * hourlyWage
    }

    /** Pay after tax: the gross less the tax withheld from it. */
    function NetEarningsThisWeek(startOfWeek: Option<Instant>): (n: real)
      reads this
      ensures n == GrossEarningsThisWeek(startOfWeek) - GrossEarningsThisWeek(startOfWeek) * taxRate
      ensures GrossEarningsThisWeek(startOfWeek) >= 0.0 && 0.0 <= taxRate <= 1.0
              ==> 0.0 <= n <= GrossEarningsThisWeek(startOfWeek)
      ensures taxRate == 0.0 ==> n == GrossEarningsThisWeek(startOfWeek)
    {
      AfterTax(GrossEarningsThisWeek(startOfWeek), taxRate)
    }
  }

  /**
   * A client of the class: a fresh week at wage 20 and tax 12%, a
   * 9:00-17:00 shift and then a 5.5-hour one. The figures follow from the
   * query functions' definitions, the order from `AddTimeEntry`'s contract.
   */
  method WeeklySummaryScenario()
  {
    var m := new TimeManager([], DefaultHourlyWage, DefaultTaxRate, DefaultWeekStartDay);
    var monday := Some(0);
    m.AddTimeEntry(1, 9 * 3600, 17 * 3600);
    assert m.HoursWorkedThisWeek(monday) == 8.0;
    assert m.GrossEarningsThisWeek(monday) == 160.0;
    assert m.NetEarningsThisWeek(monday) == 140.8;
    m.AddTimeEntry(2, SecondsPerDay + 9 * 3600, SecondsPerDay + 14 * 3600 + 1800);
    assert m.HoursWorkedThisWeek(monday) == 13.5;
    assert m.HoursRemainingThisWeek(monday) == 26.5;
    var first, second := TimeEntry(1, 9 * 3600, 17 * 3600), TimeEntry(2, SecondsPerDay + 9 * 3600, SecondsPerDay + 14 * 3600 + 1800);
    assert multiset(m.timeEntries) == multiset{first, second};
    assert |m.timeEntries| == 2 by {
      assert |multiset(m.timeEntries)| == |m.timeEntries|;
    }
    assert m.timeEntries[0] in multiset(m.timeEntries) && m.timeEntries[1] in multiset(m.timeEntries);
    assert m.timeEntries[0] == second;
  }
}
