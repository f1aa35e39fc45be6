/**
 * The revenue page's figures over the store's records: the records of the
 * selected window and platform sorted by date, the totals per platform, the
 * key indicators, the revenue per day, the five best days and the CSV export.
 */
module RevenueReport {
  import opened Collections
  import opened Text
  import opened Types
  import opened DataStore

  // ---------------------------------------------------------------------------
  // The filtered records
  // ---------------------------------------------------------------------------

  /** The platform filter: every platform (`'all'`) or one. */
  datatype Selection = AnyPlatform | OnePlatform(platform: Platform)

  function WindowTest(range: DateRange): RevenueRecord -> bool
  {
    r => InWindow(r, range.startDate, range.endDate)
  }

  /** The record lies in the window and on the selected platform. */
  predicate Selected(r: RevenueRecord, range: DateRange, choice: Selection)
  {
    InWindow(r, range.startDate, range.endDate) && (choice.AnyPlatform? || r.platform == choice.platform)
  }

  /** The two filters, the window first and then the platform unless every platform is selected. */
  function SelectedRecords(data: seq<RevenueRecord>, range: DateRange, choice: Selection): seq<RevenueRecord>
  {
    var inRange := Filter(data, WindowTest(range));
    if choice.AnyPlatform? then inRange else Filter(inRange, KeyIs(RecordPlatform, choice.platform))
  }

  /** `a.date.localeCompare(b.date) <= 0`, taken as code-unit order on ISO dates. */
  predicate DateLe(a: RevenueRecord, b: RevenueRecord)
  {
    LexLe(a.date, b.date)
  }

  lemma DateLeTotalPreorder()
    ensures TotalPreorder(DateLe)
  {
    forall a, b ensures DateLe(a, b) || DateLe(b, a) {
      LexLeTotal(a.date, b.date);
    }
    forall a, b, c | DateLe(a, b) && DateLe(b, c) ensures DateLe(a, c) {
      LexLeTransitive(a.date, b.date, c.date);
    }
  }

  /** `filteredRevenueData`: the selected records, sorted by date; ties keep store order. */
  function FilteredRevenue(data: seq<RevenueRecord>, range: DateRange, choice: Selection): seq<RevenueRecord>
  {
    SortBy(SelectedRecords(data, range, choice), DateLe)
  }

  /**
   * The filtered list is a permutation of the selected records: each record
   * occurs in it as often as in the store when selected, and never otherwise;
   * and it is sorted by date.
   */
  lemma FilteredRevenueSpec(data: seq<RevenueRecord>, range: DateRange, choice: Selection)
    ensures forall x :: multiset(FilteredRevenue(data, range, choice))[x] ==
                        if Selected(x, range, choice) then multiset(data)[x] else 0
    ensures forall x :: x in FilteredRevenue(data, range, choice) <==> x in data && Selected(x, range, choice)
    ensures SortedBy(FilteredRevenue(data, range, choice), DateLe)
  {
    FilteredCounts(data, range, choice);
    FilteredMembers(data, range, choice);
    DateLeTotalPreorder();
    SortBySorted(SelectedRecords(data, range, choice), DateLe);
  }

  lemma FilteredCounts(data: seq<RevenueRecord>, range: DateRange, choice: Selection)
    ensures forall x :: multiset(FilteredRevenue(data, range, choice))[x] ==
                        if Selected(x, range, choice) then multiset(data)[x] else 0
  {
    var inRange := Filter(data, WindowTest(range));
    var r := SelectedRecords(data, range, choice);
    assert multiset(FilteredRevenue(data, range, choice)) == multiset(r);
    FilterMultiset(data, WindowTest(range));
    if choice.OnePlatform? {
      FilterMultiset(inRange, KeyIs(RecordPlatform, choice.platform));
      forall x ensures multiset(r)[x] == if Selected(x, range, choice) then multiset(data)[x] else 0 {
        CountTwoFilters(data, inRange, r, range, choice.platform, x);
      }
    }
  }

  lemma CountTwoFilters(data: seq<RevenueRecord>, inRange: seq<RevenueRecord>, r: seq<RevenueRecord>,
                        range: DateRange, p: Platform, x: RevenueRecord)
    requires multiset(inRange)[x] == if WindowTest(range)(x) then multiset(data)[x] else 0
    requires multiset(r)[x] == if KeyIs(RecordPlatform, p)(x) then multiset(inRange)[x] else 0
    ensures multiset(r)[x] == if Selected(x, range, OnePlatform(p)) then multiset(data)[x] else 0
  {
    assert KeyIs(RecordPlatform, p)(x) == (RecordPlatform(x) == p);
    assert WindowTest(range)(x) == InWindow(x, range.startDate, range.endDate);
  }

  lemma FilteredMembers(data: seq<RevenueRecord>, range: DateRange, choice: Selection)
    ensures forall x :: x in FilteredRevenue(data, range, choice) <==> x in data && Selected(x, range, choice)
  {
    var r := FilteredRevenue(data, range, choice);
    FilteredCounts(data, range, choice);
    forall x ensures x in r <==> x in data && Selected(x, range, choice) {
      assert x in r <==> multiset(r)[x] > 0;
      assert x in data <==> multiset(data)[x] > 0;
    }
  }

  /** With every platform and a window holding every date, the list is the store sorted by date. */
  lemma FilteredEverything(data: seq<RevenueRecord>, range: DateRange)
    requires forall i :: 0 <= i < |data| ==> InWindow(data[i], range.startDate, range.endDate)
    ensures FilteredRevenue(data, range, AnyPlatform) == SortBy(data, DateLe)
  {
    FilterAll(data, WindowTest(range));
  }

  // ---------------------------------------------------------------------------
  // Totals per platform and overall
  // ---------------------------------------------------------------------------

  /** `r.impressions || 0` and `r.clicks || 0`. */
  function RecordImpressions(r: RevenueRecord): real { OrZero(r.impressions) }
  function RecordClicks(r: RevenueRecord): real { OrZero(r.clicks) }

  datatype Totals = Totals(revenue: real, impressions: real, clicks: real)

  function TotalsRevenue(t: Totals): real { t.revenue }
  function TotalsImpressions(t: Totals): real { t.impressions }
  function TotalsClicks(t: Totals): real { t.clicks }

  /** One record's contribution to its platform's entry. */
  function AddRecord(t: Totals, r: RevenueRecord): Totals
  {
    Totals(t.revenue + r.revenue, t.impressions + RecordImpressions(r), t.clicks + RecordClicks(r))
  }

  /** The `totals` record that the `forEach` over the records leaves behind. */
  function TotalsOf(s: seq<RevenueRecord>): map<Platform, Totals>
  {
    if s == [] then map[]
    else
      var m := TotalsOf(s[..|s| - 1]);
      var r := s[|s| - 1];
      m[r.platform := AddRecord(if r.platform in m then m[r.platform] else Totals(0.0, 0.0, 0.0), r)]
  }

  /** The sums of one platform's records. */
  function PlatformTotals(s: seq<RevenueRecord>, p: Platform): Totals
  {
    Totals(PlatformSum(s, RecordPlatform, RecordRevenue, p),
           PlatformSum(s, RecordPlatform, RecordImpressions, p),
           PlatformSum(s, RecordPlatform, RecordClicks, p))
  }

  lemma {:induction false} TotalsOfKeys(s: seq<RevenueRecord>)
    ensures TotalsOf(s).Keys == KeysOf(s, RecordPlatform)
  {
    if s != [] {
      TotalsOfKeys(s[..|s| - 1]);
    }
  }

  /** The entry of a platform that occurs is the sums of that platform's records. */
  lemma {:induction false} TotalsOfEntry(s: seq<RevenueRecord>, p: Platform)
    ensures p in TotalsOf(s) ==> TotalsOf(s)[p] == PlatformTotals(s, p)
  {
    if s != [] {
      var init, last := s[..|s| - 1], s[|s| - 1];
      assert s == init + [last];
      TotalsOfEntry(init, p);
      TotalsOfKeys(init);
      TotalsStep(init, last, p);
    }
  }

  /** One step of the `forEach`: the last record adds to its own platform's entry. */
  lemma TotalsStep(init: seq<RevenueRecord>, last: RevenueRecord, p: Platform)
    requires p in TotalsOf(init) <==> p in KeysOf(init, RecordPlatform)
    requires p in TotalsOf(init) ==> TotalsOf(init)[p] == PlatformTotals(init, p)
    ensures p in TotalsOf(init + [last]) ==> TotalsOf(init + [last])[p] == PlatformTotals(init + [last], p)
  {
    TotalsSnoc(init, last);
    PlatformTotalsSnoc(init, last, p);
    if p == last.platform && p !in TotalsOf(init) {
      PlatformTotalsAbsent(init, p);
    }
  }

  lemma TotalsSnoc(init: seq<RevenueRecord>, last: RevenueRecord)
    ensures TotalsOf(init + [last]) ==
            TotalsOf(init)[last.platform :=
              AddRecord(if last.platform in TotalsOf(init) then TotalsOf(init)[last.platform] else Totals(0.0, 0.0, 0.0), last)]
  {
    assert (init + [last])[..|init|] == init;
  }

  lemma PlatformTotalsSnoc(init: seq<RevenueRecord>, last: RevenueRecord, p: Platform)
    ensures PlatformTotals(init + [last], p) ==
            if last.platform == p then AddRecord(PlatformTotals(init, p), last) else PlatformTotals(init, p)
  {
    PlatformSumSnoc(init, last, RecordPlatform, RecordRevenue, p);
    PlatformSumSnoc(init, last, RecordPlatform, RecordImpressions, p);
    PlatformSumSnoc(init, last, RecordPlatform, RecordClicks, p);
  }

  lemma PlatformTotalsAbsent(s: seq<RevenueRecord>, p: Platform)
    requires p !in KeysOf(s, RecordPlatform)
    ensures PlatformTotals(s, p) == Totals(0.0, 0.0, 0.0)
  {
    KeySumAbsent(s, RecordPlatform, RecordRevenue, p);
    KeySumAbsent(s, RecordPlatform, RecordImpressions, p);
    KeySumAbsent(s, RecordPlatform, RecordClicks, p);
  }

  /**
   * `platformTotals` has an entry exactly for the platforms present, and each
   * entry sums revenue, impressions and clicks over that platform's records,
   * with absent metrics counted as 0.
   */
  lemma TotalsOfSpec(s: seq<RevenueRecord>)
    ensures TotalsOf(s).Keys == KeysOf(s, RecordPlatform)
    ensures forall p :: p in TotalsOf(s) ==> TotalsOf(s)[p] == PlatformTotals(s, p)
  {
    TotalsOfKeys(s);
    forall p | p in TotalsOf(s) ensures TotalsOf(s)[p] == PlatformTotals(s, p) {
      TotalsOfEntry(s, p);
    }
  }

  /** The `forEach` that fills `totals`. */
  method PlatformTotalsOf(s: seq<RevenueRecord>) returns (totals: map<Platform, Totals>)
    ensures totals == TotalsOf(s)
  {
    totals := map[];
    var i := 0;
    while i < |s|
      invariant 0 <= i <= |s|
      invariant totals == TotalsOf(s[..i])
    {
      var r := s[i];
      if r.platform !in totals {
        totals := totals[r.platform := Totals(0.0, 0.0, 0.0)];
      }
      totals := totals[r.platform := AddRecord(totals[r.platform], r)];
      assert s[..i + 1][..i] == s[..i];
      i := i + 1;
    }
    assert s[..i] == s;
  }

  /** An entry's field, or 0 for a platform without an entry. */
  function EntryField(m: map<Platform, Totals>, p: Platform, field: Totals -> real): real
  {
    if p in m then field(m[p]) else 0.0
  }

  /** Over the seven platforms, absent ones counting 0. */
  function SevenEntries(m: map<Platform, Totals>, field: Totals -> real): real
  {
    EntryField(m, Facebook, field) + EntryField(m, Instagram, field) + EntryField(m, TikTok, field) +
    EntryField(m, YouTube, field) + EntryField(m, Twitter, field) + EntryField(m, LinkedIn, field) +
    EntryField(m, AdSense, field)
  }

  /** Every platform's revenue appears in its entry, absent platforms having none. */
  lemma EntryIsPlatformSum(s: seq<RevenueRecord>, p: Platform)
    ensures EntryField(TotalsOf(s), p, TotalsRevenue) == PlatformSum(s, RecordPlatform, RecordRevenue, p)
    ensures EntryField(TotalsOf(s), p, TotalsImpressions) == PlatformSum(s, RecordPlatform, RecordImpressions, p)
    ensures EntryField(TotalsOf(s), p, TotalsClicks) == PlatformSum(s, RecordPlatform, RecordClicks, p)
  {
    TotalsOfKeys(s);
    TotalsOfEntry(s, p);
    if p !in TotalsOf(s) {
      KeySumAbsent(s, RecordPlatform, RecordRevenue, p);
      KeySumAbsent(s, RecordPlatform, RecordImpressions, p);
      KeySumAbsent(s, RecordPlatform, RecordClicks, p);
    }
  }

  /** `totalImpressions` and `totalClicks`, the left-to-right sums. */
  function TotalImpressions(s: seq<RevenueRecord>): real { Sum(s, RecordImpressions) }
  function TotalClicks(s: seq<RevenueRecord>): real { Sum(s, RecordClicks) }

  /** The overall sums equal the sums of the per-platform entries. */
  lemma TotalsAddUp(s: seq<RevenueRecord>)
    ensures TotalRevenue(s) == SevenEntries(TotalsOf(s), TotalsRevenue)
    ensures TotalImpressions(s) == SevenEntries(TotalsOf(s), TotalsImpressions)
    ensures TotalClicks(s) == SevenEntries(TotalsOf(s), TotalsClicks)
  {
    EntriesAreSums(s);
    SumByPlatform(s, RecordPlatform, RecordRevenue);
    SumByPlatform(s, RecordPlatform, RecordImpressions);
    SumByPlatform(s, RecordPlatform, RecordClicks);
  }

  lemma EntriesAreSums(s: seq<RevenueRecord>)
    ensures forall p :: EntryField(TotalsOf(s), p, TotalsRevenue) == PlatformSum(s, RecordPlatform, RecordRevenue, p)
    ensures forall p :: EntryField(TotalsOf(s), p, TotalsImpressions) == PlatformSum(s, RecordPlatform, RecordImpressions, p)
    ensures forall p :: EntryField(TotalsOf(s), p, TotalsClicks) == PlatformSum(s, RecordPlatform, RecordClicks, p)
  {
    forall p ensures EntryField(TotalsOf(s), p, TotalsRevenue) == PlatformSum(s, RecordPlatform, RecordRevenue, p)
      && EntryField(TotalsOf(s), p, TotalsImpressions) == PlatformSum(s, RecordPlatform, RecordImpressions, p)
      && EntryField(TotalsOf(s), p, TotalsClicks) == PlatformSum(s, RecordPlatform, RecordClicks, p)
    {
      EntryIsPlatformSum(s, p);
    }
  }

  // ---------------------------------------------------------------------------
  // Key indicators
  // ---------------------------------------------------------------------------

  /** `avgCTR`: clicks per hundred impressions, and 0 without impressions. */
  function AvgCtr(clicks: real, impressions: real): (ctr: real)
    ensures impressions <= 0.0 ==> ctr == 0.0
    ensures impressions > 0.0 ==> ctr * impressions == clicks * 100.0
    ensures impressions > 0.0 && clicks >= 0.0 ==> ctr >= 0.0
  {
    if impressions > 0.0 then (clicks / impressions) * 100.0 else 0.0
  }

  /** The divisor of `avgRPM`, `Math.max(1, n / 5)`: never below 1. */
  function RpmDays(n: nat): (d: real)
    ensures d >= 1.0 && d >= n as real / 5.0
    ensures d == 1.0 || d == n as real / 5.0
  {
    if 1.0 >= n as real / 5.0 then 1.0 else n as real / 5.0
  }

  /** `avgRPM`: the total revenue over the approximate number of days. */
  function AvgRpm(s: seq<RevenueRecord>): (rpm: real)
    ensures rpm * RpmDays(|s|) == TotalRevenue(s)
    ensures |s| <= 5 ==> rpm == TotalRevenue(s)
  {
    TotalRevenue(s) / RpmDays(|s|)
  }

  // ---------------------------------------------------------------------------
  // Revenue per day
  // ---------------------------------------------------------------------------

  function RecordDate(r: RevenueRecord): string { r.date }

  /** One entry of `grouped`: the day, its revenue, and its revenue per platform present. */
  datatype DayRevenue = DayRevenue(date: string, revenue: real, platforms: map<Platform, real>)

  /** One record's contribution to its day's entry. */
  function AddToDay(e: DayRevenue, r: RevenueRecord): DayRevenue
  {
    DayRevenue(e.date, e.revenue + r.revenue, e.platforms[r.platform := EntryOrZero(e.platforms, r.platform) + r.revenue])
  }

  /** The `grouped` record that the `forEach` over the records leaves behind. */
  function GroupByDate(s: seq<RevenueRecord>): map<string, DayRevenue>
  {
    if s == [] then map[]
    else
      var g := GroupByDate(s[..|s| - 1]);
      var r := s[|s| - 1];
      g[r.date := AddToDay(if r.date in g then g[r.date] else DayRevenue(r.date, 0.0, map[]), r)]
  }

  /** The records of one day, in order. */
  function OnDate(s: seq<RevenueRecord>, d: string): seq<RevenueRecord>
  {
    Filter(s, KeyIs(RecordDate, d))
  }

  /** What a day's entry should hold: the sum of the day's revenue, and that sum split by platform. */
  function DayOf(s: seq<RevenueRecord>, d: string): DayRevenue
  {
    DayFrom(d, OnDate(s, d))
  }

  /** The entry of day `d` built from the records `t` of that day. */
  function DayFrom(d: string, t: seq<RevenueRecord>): DayRevenue
  {
    DayRevenue(d, Sum(t, RecordRevenue), SumsBy(t, RecordPlatform, RecordRevenue))
  }

  lemma {:induction false} GroupByDateKeys(s: seq<RevenueRecord>)
    ensures GroupByDate(s).Keys == KeysOf(s, RecordDate)
  {
    if s != [] {
      GroupByDateKeys(s[..|s| - 1]);
    }
  }

  /** Each day's entry is the day's sums. */
  lemma {:induction false} GroupByDateEntry(s: seq<RevenueRecord>, d: string)
    ensures d in GroupByDate(s) ==> GroupByDate(s)[d] == DayOf(s, d)
  {
    if s != [] {
      var init, last := s[..|s| - 1], s[|s| - 1];
      assert s == init + [last];
      GroupByDateEntry(init, d);
      GroupByDateKeys(init);
      DayStep(init, last, d);
    }
  }

  lemma DayStep(init: seq<RevenueRecord>, last: RevenueRecord, d: string)
    requires d in GroupByDate(init) <==> d in KeysOf(init, RecordDate)
    requires d in GroupByDate(init) ==> GroupByDate(init)[d] == DayOf(init, d)
    ensures d in GroupByDate(init + [last]) ==> GroupByDate(init + [last])[d] == DayOf(init + [last], d)
  {
    GroupSnoc(init, last);
    DayOfSnoc(init, last, d);
    if last.date == d && d !in GroupByDate(init) {
      DayOfAbsent(init, d);
    }
  }

  lemma GroupSnoc(init: seq<RevenueRecord>, last: RevenueRecord)
    ensures var g := GroupByDate(init);
            GroupByDate(init + [last]) ==
            g[last.date := AddToDay(if last.date in g then g[last.date] else DayRevenue(last.date, 0.0, map[]), last)]
  {
    assert (init + [last])[..|init|] == init;
  }

  lemma DayOfSnoc(init: seq<RevenueRecord>, last: RevenueRecord, d: string)
    ensures DayOf(init + [last], d) == if last.date == d then AddToDay(DayOf(init, d), last) else DayOf(init, d)
  {
    OnDateSnoc(init, last, d);
    if last.date == d {
      DayFromSnoc(d, OnDate(init, d), last);
    }
  }

  lemma DayFromSnoc(d: string, t: seq<RevenueRecord>, last: RevenueRecord)
    ensures DayFrom(d, t + [last]) == AddToDay(DayFrom(d, t), last)
  {
    assert (t + [last])[..|t|] == t;
  }

  lemma OnDateSnoc(init: seq<RevenueRecord>, last: RevenueRecord, d: string)
    ensures OnDate(init + [last], d) == if last.date == d then OnDate(init, d) + [last] else OnDate(init, d)
  {
    FilterSnoc(init, last, KeyIs(RecordDate, d));
    assert KeyIs(RecordDate, d)(last) == (RecordDate(last) == d);
  }

  lemma DayOfAbsent(s: seq<RevenueRecord>, d: string)
    requires d !in KeysOf(s, RecordDate)
    ensures DayOf(s, d) == DayRevenue(d, 0.0, map[])
  {
    FilterNone(s, KeyIs(RecordDate, d));
  }

  /** The order in which `grouped` first receives each date, which `Object.values` follows. */
  function DateOrder(s: seq<RevenueRecord>): seq<string>
  {
    if s == [] then []
    else
      var o := DateOrder(s[..|s| - 1]);
      if s[|s| - 1].date in o then o else o + [s[|s| - 1].date]
  }

  /** Every date occurs in the order once. */
  lemma {:induction false} DateOrderSpec(s: seq<RevenueRecord>)
    ensures NoDuplicates(DateOrder(s))
    ensures forall d :: d in DateOrder(s) <==> d in KeysOf(s, RecordDate)
  {
    if s != [] {
      DateOrderSpec(s[..|s| - 1]);
    }
  }

  /** `Object.values(grouped)`, in the insertion order of the dates. */
  function Days(s: seq<RevenueRecord>): (r: seq<DayRevenue>)
    ensures |r| == |DateOrder(s)|
    ensures forall i :: 0 <= i < |r| ==> DateOrder(s)[i] in GroupByDate(s) && r[i] == GroupByDate(s)[DateOrder(s)[i]]
  {
    DateOrderSpec(s);
    GroupByDateKeys(s);
    var o := DateOrder(s);
    seq(|o|, i requires 0 <= i < |o| => GroupByDate(s)[o[i]])
  }

  predicate DayLe(a: DayRevenue, b: DayRevenue)
  {
    LexLe(a.date, b.date)
  }

  lemma DayLeTotalPreorder()
    ensures TotalPreorder(DayLe)
  {
    forall a, b ensures DayLe(a, b) || DayLe(b, a) {
      LexLeTotal(a.date, b.date);
    }
    forall a, b, c | DayLe(a, b) && DayLe(b, c) ensures DayLe(a, c) {
      LexLeTransitive(a.date, b.date, c.date);
    }
  }

  /** `dailyRevenue`: the day entries sorted by date (the display label of each date is left to the host). */
  function DailyRevenue(s: seq<RevenueRecord>): seq<DayRevenue>
  {
    SortBy(Days(s), DayLe)
  }

  /** The entries in insertion order are each their day's sums, and no two share a date. */
  lemma DaysSpec(s: seq<RevenueRecord>)
    ensures forall i :: 0 <= i < |Days(s)| ==> Days(s)[i] == DayOf(s, Days(s)[i].date)
    ensures forall i :: 0 <= i < |Days(s)| ==> Days(s)[i].date == DateOrder(s)[i]
    ensures NoDuplicates(Days(s))
  {
    var r, o := Days(s), DateOrder(s);
    DateOrderSpec(s);
    forall i | 0 <= i < |r| ensures r[i] == DayOf(s, o[i]) {
      GroupByDateEntry(s, o[i]);
    }
  }

  /** Each entry is its day's sums. */
  lemma DailyEntries(s: seq<RevenueRecord>)
    ensures forall i :: 0 <= i < |DailyRevenue(s)| ==>
              DailyRevenue(s)[i] == DayOf(s, DailyRevenue(s)[i].date) &&
              DailyRevenue(s)[i].date in KeysOf(s, RecordDate)
  {
    var r, days := DailyRevenue(s), Days(s);
    DaysSpec(s);
    DateOrderSpec(s);
    forall i | 0 <= i < |r| ensures r[i] == DayOf(s, r[i].date) && r[i].date in KeysOf(s, RecordDate) {
      assert r[i] in multiset(days);
      var k :| 0 <= k < |days| && days[k] == r[i];
      assert DateOrder(s)[k] in DateOrder(s);
    }
  }

  /** Every date of the records has an entry. */
  lemma DailyCovers(s: seq<RevenueRecord>, d: string)
    requires d in KeysOf(s, RecordDate)
    ensures exists i :: 0 <= i < |DailyRevenue(s)| && DailyRevenue(s)[i].date == d
  {
    var r, days := DailyRevenue(s), Days(s);
    DaysSpec(s);
    DateOrderSpec(s);
    var k :| 0 <= k < |DateOrder(s)| && DateOrder(s)[k] == d;
    assert days[k] in multiset(r);
    var i :| 0 <= i < |r| && r[i] == days[k];
  }

  /** The dates are distinct and ascending. */
  lemma DailyOrdered(s: seq<RevenueRecord>)
    ensures forall i, j :: 0 <= i < j < |DailyRevenue(s)| ==>
              DailyRevenue(s)[i].date != DailyRevenue(s)[j].date &&
              LexLe(DailyRevenue(s)[i].date, DailyRevenue(s)[j].date)
  {
    var r := DailyRevenue(s);
    DaysSpec(s);
    DailyEntries(s);
    NoDuplicatesPermutation(Days(s), r);
    DayLeTotalPreorder();
    SortBySorted(Days(s), DayLe);
  }

  /**
   * `dailyRevenue` holds one entry per distinct date, in ascending date order,
   * and each entry is its day's sums.
   */
  lemma DailyRevenueSpec(s: seq<RevenueRecord>)
    ensures forall i :: 0 <= i < |DailyRevenue(s)| ==>
              DailyRevenue(s)[i] == DayOf(s, DailyRevenue(s)[i].date) &&
              DailyRevenue(s)[i].date in KeysOf(s, RecordDate)
    ensures forall d :: d in KeysOf(s, RecordDate) ==> exists i :: 0 <= i < |DailyRevenue(s)| && DailyRevenue(s)[i].date == d
    ensures forall i, j :: 0 <= i < j < |DailyRevenue(s)| ==>
              DailyRevenue(s)[i].date != DailyRevenue(s)[j].date &&
              LexLe(DailyRevenue(s)[i].date, DailyRevenue(s)[j].date)
  {
    DailyEntries(s);
    forall d | d in KeysOf(s, RecordDate)
      ensures exists i :: 0 <= i < |DailyRevenue(s)| && DailyRevenue(s)[i].date == d
    {
      DailyCovers(s, d);
    }
    DailyOrdered(s);
  }

  /** A day's per-platform revenue is the sum of its records on that platform, 0 when there are none. */
  lemma DayPlatformEntry(s: seq<RevenueRecord>, d: string, p: Platform)
    ensures EntryOrZero(DayOf(s, d).platforms, p) == PlatformSum(OnDate(s, d), RecordPlatform, RecordRevenue, p)
  {
    var t := OnDate(s, d);
    SumsByKeys(t, RecordPlatform, RecordRevenue);
    SumsByEntry(t, RecordPlatform, RecordRevenue, p);
    if p !in SumsBy(t, RecordPlatform, RecordRevenue) {
      KeySumAbsent(t, RecordPlatform, RecordRevenue, p);
    }
  }

  /** A day's per-platform revenues add up to its revenue. */
  lemma DayPlatformsAddUp(s: seq<RevenueRecord>, d: string)
    ensures var m := DayOf(s, d).platforms;
            EntryOrZero(m, Facebook) + EntryOrZero(m, Instagram) + EntryOrZero(m, TikTok) +
            EntryOrZero(m, YouTube) + EntryOrZero(m, Twitter) + EntryOrZero(m, LinkedIn) +
            EntryOrZero(m, AdSense) == DayOf(s, d).revenue
  {
    SumByPlatform(OnDate(s, d), RecordPlatform, RecordRevenue);
    DayPlatformEntry(s, d, Facebook);
    DayPlatformEntry(s, d, Instagram);
    DayPlatformEntry(s, d, TikTok);
    DayPlatformEntry(s, d, YouTube);
    DayPlatformEntry(s, d, Twitter);
    DayPlatformEntry(s, d, LinkedIn);
    DayPlatformEntry(s, d, AdSense);
  }

  /** The `forEach` that fills `grouped`, with the order in which its keys were added. */
  method GroupDays(s: seq<RevenueRecord>) returns (grouped: map<string, DayRevenue>, order: seq<string>)
    ensures grouped == GroupByDate(s) && order == DateOrder(s)
  {
    grouped, order := map[], [];
    var i := 0;
    while i < |s|
      invariant 0 <= i <= |s|
      invariant grouped == GroupByDate(s[..i]) && order == DateOrder(s[..i])
    {
      var r := s[i];
      ghost var g0 := grouped;
      if r.date !in grouped {
        grouped := grouped[r.date := DayRevenue(r.date, 0.0, map[])];
      }
      if r.date !in order {
        order := order + [r.date];
      }
      var e := AddToEntry(grouped[r.date], r);
      grouped := grouped[r.date := e];
      assert grouped == g0[r.date := AddToDay(if r.date in g0 then g0[r.date] else DayRevenue(r.date, 0.0, map[]), r)];
      assert s[..i + 1][..i] == s[..i] && s[..i + 1][i] == r;
      i := i + 1;
    }
    assert s[..i] == s;
  }

  /** The body of the `forEach` on the entry of the record's day. */
  method AddToEntry(e: DayRevenue, r: RevenueRecord) returns (e': DayRevenue)
    ensures e' == AddToDay(e, r)
  {
    e' := e.(revenue := e.revenue + r.revenue);
    if r.platform !in e'.platforms || e'.platforms[r.platform] == 0.0 {
      e' := e'.(platforms := e'.platforms[r.platform := 0.0]);
    }
    e' := e'.(platforms := e'.platforms[r.platform := e'.platforms[r.platform] + r.revenue]);
    assert e'.platforms == e.platforms[r.platform := EntryOrZero(e.platforms, r.platform) + r.revenue];
  }

  /** `dailyRevenue`, computed as the page does: the `forEach`, then the values sorted by date. */
  method DailyRevenueOf(s: seq<RevenueRecord>) returns (days: seq<DayRevenue>)
    ensures days == DailyRevenue(s)
  {
    var grouped, order := GroupDays(s);
    DateOrderSpec(s);
    GroupByDateKeys(s);
    var values := seq(|order|, i requires 0 <= i < |order| => grouped[order[i]]);
    assert values == Days(s);
    days := SortBy(values, DayLe);
  }

  /** The chart's entries: each date replaced by its display label (`toLocaleDateString`, a host function). */
  function DailyChart(dayLabel: string -> string, s: seq<RevenueRecord>): seq<DayRevenue>
  {
    var days := DailyRevenue(s);
    seq(|days|, i requires 0 <= i < |days| => days[i].(date := dayLabel(days[i].date)))
  }

  // ---------------------------------------------------------------------------
  // Best days
  // ---------------------------------------------------------------------------

  /** The comparator `b.revenue - a.revenue` lets `a` stay before `b` exactly when this holds. */
  predicate RevenueAtLeast(a: DayRevenue, b: DayRevenue)
  {
    a.revenue >= b.revenue
  }

  lemma RevenueAtLeastPreorder()
    ensures TotalPreorder(RevenueAtLeast)
  {
  }

  /** `topEarningDays`: the chart's entries by decreasing revenue (ties in chart order), the first five. */
  function TopEarningDays(daily: seq<DayRevenue>): seq<DayRevenue>
  {
    var sorted := SortBy(daily, RevenueAtLeast);
    sorted[..if |sorted| < 5 then |sorted| else 5]
  }

  /**
   * At most five days are shown, all taken from the chart, by decreasing
   * revenue, and no day left out earned more than a day shown.
   */
  lemma TopEarningDaysSpec(daily: seq<DayRevenue>)
    ensures |TopEarningDays(daily)| == if |daily| < 5 then |daily| else 5
    ensures multiset(TopEarningDays(daily)) <= multiset(daily)
    ensures forall i, j :: 0 <= i < j < |TopEarningDays(daily)| ==>
              TopEarningDays(daily)[i].revenue >= TopEarningDays(daily)[j].revenue
    ensures forall x, y :: x in TopEarningDays(daily) && y in multiset(daily) - multiset(TopEarningDays(daily)) ==>
              x.revenue >= y.revenue
  {
    var sorted := SortBy(daily, RevenueAtLeast);
    var n := if |sorted| < 5 then |sorted| else 5;
    RevenueAtLeastPreorder();
    SortBySorted(daily, RevenueAtLeast);
    TopRest(sorted, n);
  }

  /** Cutting a sequence sorted by decreasing revenue: the head is a sub-multiset and dominates the rest. */
  lemma TopRest(sorted: seq<DayRevenue>, n: nat)
    requires n <= |sorted|
    requires SortedBy(sorted, RevenueAtLeast)
    ensures multiset(sorted[..n]) <= multiset(sorted)
    ensures forall x, y :: x in sorted[..n] && y in multiset(sorted) - multiset(sorted[..n]) ==> x.revenue >= y.revenue
  {
    var top, rest := sorted[..n], sorted[n..];
    CutMultiset(sorted, n);
    forall x: DayRevenue, y: DayRevenue | x in top && y in rest ensures x.revenue >= y.revenue {
      var i :| 0 <= i < |top| && top[i] == x;
      var j :| 0 <= j < |rest| && rest[j] == y;
      assert sorted[i] == x && sorted[n + j] == y;
    }
  }

  lemma CutMultiset<T>(s: seq<T>, n: nat)
    requires n <= |s|
    ensures multiset(s) == multiset(s[..n]) + multiset(s[n..])
    ensures multiset(s) - multiset(s[..n]) == multiset(s[n..])
  {
    assert s == s[..n] + s[n..];
  }

  // ---------------------------------------------------------------------------
  // CSV export
  // ---------------------------------------------------------------------------

  /** Number rendering of the runtime: `String(x)` and `x.toFixed(2)`. */
  datatype Formatter = Formatter(numberText: real -> string, fixed2: real -> string)

  const CsvHeader: seq<string> := ["Date", "Plateforme", "Revenu", "Impressions", "Clics", "CTR", "CPM"]

  /** The display name of `platformConfig`. */
  function PlatformName(p: Platform): string
  {
    match p
    case Facebook => "Facebook"
    case Instagram => "Instagram"
    case YouTube => "YouTube"
    case TikTok => "TikTok"
    case AdSense => "AdSense"
    case Twitter => "Twitter"
    case LinkedIn => "LinkedIn"
  }

  /** `x || 0` written into the row: a missing, NaN or zero count is written `0`. */
  function CountText(fmt: Formatter, n: Option<Number>): string
  {
    var v := OrZero(n);
    if v == 0.0 then "0" else fmt.numberText(v)
  }

  /** `x?.toFixed(2) || 0`: a missing rate is written `0`, a NaN one `NaN`. */
  function RateText(fmt: Formatter, n: Option<Number>): string
  {
    match n
    case None => "0"
    case Some(NaN) => "NaN"
    case Some(Finite(v)) => if fmt.fixed2(v) == "" then "0" else fmt.fixed2(v)
  }

  function ExportFields(fmt: Formatter, r: RevenueRecord): seq<string>
  {
    [r.date, PlatformName(r.platform), fmt.fixed2(r.revenue), CountText(fmt, r.impressions),
     CountText(fmt, r.clicks), RateText(fmt, r.ctr), RateText(fmt, r.cpm)]
  }

  function ExportLine(fmt: Formatter, r: RevenueRecord): string
  {
    Join(ExportFields(fmt, r), ",")
  }

  function ExportLines(fmt: Formatter, s: seq<RevenueRecord>): seq<string>
  {
    seq(|s|, i requires 0 <= i < |s| => ExportLine(fmt, s[i]))
  }

  /** The exported file's text: the header line, then one line per record. */
  function ExportCsv(fmt: Formatter, s: seq<RevenueRecord>): string
  {
    Join([Join(CsvHeader, ",")] + ExportLines(fmt, s), "\n")
  }

  /** The name the export is downloaded under. */
  function ExportFileName(range: DateRange): string
  {
    "revenus_" + range.startDate + "_" + range.endDate + ".csv"
  }

  /** No field holds a comma or a line break. */
  ghost predicate ExportSafe(fmt: Formatter, r: RevenueRecord)
  {
    forall k :: 0 <= k < |ExportFields(fmt, r)| ==> Free(ExportFields(fmt, r)[k], {',', '\n'})
  }

  /** No header name holds a comma or a line break. */
  lemma HeaderSafe()
    ensures forall k :: 0 <= k < |CsvHeader| ==> Free(CsvHeader[k], {',', '\n'})
  {
  }

  /** A record's missing or zero measures are written as `0`, and its revenue with two decimals. */
  lemma ExportDefaults(fmt: Formatter, r: RevenueRecord)
    ensures ExportFields(fmt, r)[0] == r.date && ExportFields(fmt, r)[2] == fmt.fixed2(r.revenue)
    ensures OrZero(r.impressions) == 0.0 ==> ExportFields(fmt, r)[3] == "0"
    ensures OrZero(r.clicks) == 0.0 ==> ExportFields(fmt, r)[4] == "0"
    ensures r.ctr.None? ==> ExportFields(fmt, r)[5] == "0"
    ensures r.cpm.None? ==> ExportFields(fmt, r)[6] == "0"
  {
  }

  /** A row splits back on commas into its seven fields. */
  lemma ExportLineFields(fmt: Formatter, r: RevenueRecord)
    requires ExportSafe(fmt, r)
    ensures Split(ExportLine(fmt, r), {','}) == ExportFields(fmt, r)
  {
    SplitJoin(ExportFields(fmt, r), ',', {','});
  }

  /**
   * The exported text splits on line breaks into the header and one line per
   * record, in the order of the filtered records, and each line splits back
   * into that record's fields.
   */
  lemma ExportCsvRoundTrip(fmt: Formatter, s: seq<RevenueRecord>)
    requires forall i :: 0 <= i < |s| ==> ExportSafe(fmt, s[i])
    ensures |Split(ExportCsv(fmt, s), {'\n'})| == |s| + 1
    ensures Split(Split(ExportCsv(fmt, s), {'\n'})[0], {','}) == CsvHeader
    ensures forall i :: 0 <= i < |s| ==>
              Split(Split(ExportCsv(fmt, s), {'\n'})[i + 1], {','}) == ExportFields(fmt, s[i])
  {
    var lines := [Join(CsvHeader, ",")] + ExportLines(fmt, s);
    HeaderSafe();
    SplitJoin(CsvHeader, ',', {','});
    forall i | 0 <= i < |lines| ensures Free(lines[i], {'\n'}) {
      if i == 0 {
        JoinFree(CsvHeader, ",", {'\n'});
      } else {
        LineFree(fmt, s[i - 1]);
      }
    }
    SplitJoin(lines, '\n', {'\n'});
    forall i | 0 <= i < |s| ensures Split(lines[i + 1], {','}) == ExportFields(fmt, s[i]) {
      ExportLineFields(fmt, s[i]);
    }
  }

  lemma LineFree(fmt: Formatter, r: RevenueRecord)
    requires ExportSafe(fmt, r)
    ensures Free(ExportLine(fmt, r), {'\n'})
  {
    var f := ExportFields(fmt, r);
    forall k | 0 <= k < |f| ensures Free(f[k], {'\n'}) {
      assert Free(f[k], {',', '\n'});
    }
    JoinFree(f, ",", {'\n'});
  }
}
