/**
 * The web analytics API: the overview that adds up the metrics the analytics
 * service reports for each selected property, the traffic sources endpoint,
 * and the request checks.
 *
 * The analytics service is a network client: what each of its calls returns,
 * or the message of the exception it throws, is an input here.
 */
module Analytics {
  import opened Collections
  import opened Text
  import opened Types

  /** What one call to the analytics service gives: its result, or the message of what it threw. */
  datatype Outcome<T> = Failed(message: string) | Fetched(value: T)

  /**
   * The metrics of one property: its scalar values by name (a name absent is
   * not set), and its traffic sources and devices when reported.
   */
  datatype SiteMetrics = SiteMetrics(
    values: map<string, real>,
    trafficSources: Option<map<string, real>>,
    devices: Option<map<string, real>>)

  /** An analytics account (a property of the user). */
  datatype Site = Site(id: int, propertyId: string, isActive: bool)

  /** The results of the calls that did not throw, in order. */
  function Succeeded<T>(s: seq<Outcome<T>>): (r: seq<T>)
    ensures |r| <= |s|
  {
    if s == [] then []
    else
      var init := Succeeded(s[..|s| - 1]);
      match s[|s| - 1]
      case Failed(_) => init
      case Fetched(v) => init + [v]
  }

  lemma {:induction false} SucceededConcat<T>(a: seq<Outcome<T>>, b: seq<Outcome<T>>)
    ensures Succeeded(a + b) == Succeeded(a) + Succeeded(b)
    decreases |b|
  {
    if b == [] {
      assert a + b == a;
    } else {
      var init, last := b[..|b| - 1], b[|b| - 1];
      assert (a + b)[..|a + b| - 1] == a + init;
      SucceededConcat(a, init);
      if last.Fetched? {
        assert Succeeded(a) + Succeeded(init) + [last.value] == Succeeded(a) + (Succeeded(init) + [last.value]);
      }
    }
  }

  // ---------------------------------------------------------------------------
  // Key-wise merge
  // ---------------------------------------------------------------------------

  /** `$acc[$k] = ($acc[$k] ?? 0) + $v` for every entry of `src`. */
  function Merge(acc: map<string, real>, src: map<string, real>): map<string, real>
  {
    map k | k in acc.Keys + src.Keys :: EntryOrZero(acc, k) + EntryOrZero(src, k)
  }

  /** The inner `foreach` over the entries of `src`, one key at a time in whatever order. */
  method MergeInto(acc: map<string, real>, src: map<string, real>) returns (r: map<string, real>)
    ensures r == Merge(acc, src)
  {
    r := acc;
    var todo := src.Keys;
    while todo != {}
      invariant todo <= src.Keys
      invariant r.Keys == acc.Keys + (src.Keys - todo)
      invariant forall k :: k in r ==> r[k] == EntryOrZero(acc, k) + (if k in src && k !in todo then src[k] else 0.0)
      decreases todo
    {
      var k :| k in todo;
      r := r[k := EntryOrZero(r, k) + src[k]];
      todo := todo - {k};
    }
  }

  lemma MergeEmpty(m: map<string, real>)
    ensures Merge(m, map[]) == m && Merge(map[], m) == m
  {
  }

  lemma MergeCommutes(a: map<string, real>, b: map<string, real>)
    ensures Merge(a, b) == Merge(b, a)
  {
  }

  lemma MergeAssociates(a: map<string, real>, b: map<string, real>, c: map<string, real>)
    ensures Merge(Merge(a, b), c) == Merge(a, Merge(b, c))
  {
  }

  /** The maps of `s`, as `f` reads them, merged one after the other into an empty map. */
  function MergeAll<T>(s: seq<T>, f: T -> map<string, real>): map<string, real>
  {
    if s == [] then map[] else Merge(MergeAll(s[..|s| - 1], f), f(s[|s| - 1]))
  }

  function EntryAt<T>(f: T -> map<string, real>, k: string): T -> real
  {
    x => EntryOrZero(f(x), k)
  }

  /** Each merged value is the sum of that key's values, a map without the key counting 0. */
  lemma {:induction false} MergeAllEntry<T>(s: seq<T>, f: T -> map<string, real>, k: string)
    ensures EntryOrZero(MergeAll(s, f), k) == Sum(s, EntryAt(f, k))
  {
    if s != [] {
      MergeAllEntry(s[..|s| - 1], f, k);
    }
  }

  /** A key is merged exactly when one of the maps has it. */
  lemma {:induction false} MergeAllKeys<T>(s: seq<T>, f: T -> map<string, real>, k: string)
    ensures k in MergeAll(s, f) <==> exists i :: 0 <= i < |s| && k in f(s[i])
  {
    if s != [] {
      var init := s[..|s| - 1];
      MergeAllKeys(init, f, k);
      if exists i :: 0 <= i < |init| && k in f(init[i]) {
        var i :| 0 <= i < |init| && k in f(init[i]);
        assert s[i] == init[i];
      }
      if exists i :: 0 <= i < |s| && k in f(s[i]) {
        var i :| 0 <= i < |s| && k in f(s[i]);
        if i < |init| {
          assert init[i] == s[i];
        }
      }
    }
  }

  // ---------------------------------------------------------------------------
  // Overview
  // ---------------------------------------------------------------------------

  datatype AnalyticsOverview = AnalyticsOverview(
    totalSessions: real,
    totalUsers: real,
    totalPageviews: real,
    avgBounceRate: real,
    avgSessionDuration: real,
    newUsers: real,
    returningUsers: real,
    conversions: real,
    revenue: real,
    trafficSources: map<string, real>,
    devices: map<string, real>)

  /** `$metrics[name] ?? 0`. */
  function ValueOf(name: string): SiteMetrics -> real
  {
    (m: SiteMetrics) => EntryOrZero(m.values, name)
  }

  /** The values of `name` that were set, in order (`isset` then append). */
  function Reported(s: seq<SiteMetrics>, name: string): (r: seq<real>)
    ensures |r| <= |s|
  {
    if s == [] then []
    else
      var init := Reported(s[..|s| - 1], name);
      if name in s[|s| - 1].values then init + [s[|s| - 1].values[name]] else init
  }

  function Identity(x: real): real { x }

  /** `array_sum($xs) / count($xs)` when there is some value, and the initial 0 otherwise. */
  function MeanOrZero(xs: seq<real>): real
  {
    if |xs| > 0 then Sum(xs, Identity) / |xs| as real else 0.0
  }

  function TrafficOf(m: SiteMetrics): map<string, real>
  {
    if m.trafficSources.Some? then m.trafficSources.value else map[]
  }

  function DevicesOf(m: SiteMetrics): map<string, real>
  {
    if m.devices.Some? then m.devices.value else map[]
  }

  /** The overview built from the service's answers for the selected properties. */
  function OverviewOf(results: seq<Outcome<SiteMetrics>>): AnalyticsOverview
  {
    var ok := Succeeded(results);
    AnalyticsOverview(
      Sum(ok, ValueOf("sessions")),
      Sum(ok, ValueOf("users")),
      Sum(ok, ValueOf("pageviews")),
      MeanOrZero(Reported(ok, "bounce_rate")),
      MeanOrZero(Reported(ok, "session_duration")),
      Sum(ok, ValueOf("new_users")),
      Sum(ok, ValueOf("returning_users")),
      Sum(ok, ValueOf("conversions")),
      Sum(ok, ValueOf("revenue")),
      MergeAll(ok, TrafficOf),
      MergeAll(ok, DevicesOf))
  }

  /** The totals accumulated so far, with the collected bounce rates and session durations. */
  datatype Progress = Progress(o: AnalyticsOverview, bounceRates: seq<real>, sessionDurations: seq<real>)

  ghost predicate ProgressOf(p: Progress, ok: seq<SiteMetrics>)
  {
    && p.o.totalSessions == Sum(ok, ValueOf("sessions"))
    && p.o.totalUsers == Sum(ok, ValueOf("users"))
    && p.o.totalPageviews == Sum(ok, ValueOf("pageviews"))
    && p.o.newUsers == Sum(ok, ValueOf("new_users"))
    && p.o.returningUsers == Sum(ok, ValueOf("returning_users"))
    && p.o.conversions == Sum(ok, ValueOf("conversions"))
    && p.o.revenue == Sum(ok, ValueOf("revenue"))
    && p.o.avgBounceRate == 0.0 && p.o.avgSessionDuration == 0.0
    && p.bounceRates == Reported(ok, "bounce_rate")
    && p.sessionDurations == Reported(ok, "session_duration")
    && p.o.trafficSources == MergeAll(ok, TrafficOf)
    && p.o.devices == MergeAll(ok, DevicesOf)
  }

  /** The `try` block for one property that answered. */
  method AddSite(p: Progress, m: SiteMetrics, ghost ok: seq<SiteMetrics>) returns (q: Progress)
    requires ProgressOf(p, ok)
    ensures ProgressOf(q, ok + [m])
  {
    var o := p.o;
    o := o.(totalSessions := o.totalSessions + EntryOrZero(m.values, "sessions"));
    o := o.(totalUsers := o.totalUsers + EntryOrZero(m.values, "users"));
    o := o.(totalPageviews := o.totalPageviews + EntryOrZero(m.values, "pageviews"));
    o := o.(newUsers := o.newUsers + EntryOrZero(m.values, "new_users"));
    o := o.(returningUsers := o.returningUsers + EntryOrZero(m.values, "returning_users"));
    o := o.(conversions := o.conversions + EntryOrZero(m.values, "conversions"));
    o := o.(revenue := o.revenue + EntryOrZero(m.values, "revenue"));
    var bounceRates, sessionDurations := p.bounceRates, p.sessionDurations;
    if "bounce_rate" in m.values {
      bounceRates := bounceRates + [m.values["bounce_rate"]];
    }
    if "session_duration" in m.values {
      sessionDurations := sessionDurations + [m.values["session_duration"]];
    }
    if m.trafficSources.Some? {
      var t := MergeInto(o.trafficSources, m.trafficSources.value);
      o := o.(trafficSources := t);
    } else {
      MergeEmpty(o.trafficSources);
    }
    if m.devices.Some? {
      var d := MergeInto(o.devices, m.devices.value);
      o := o.(devices := d);
    } else {
      MergeEmpty(o.devices);
    }
    q := Progress(o, bounceRates, sessionDurations);
    assert (ok + [m])[..|ok|] == ok;
  }

  /** `overview`'s loop over the selected properties, then the two averages. */
  method ComputeOverview(results: seq<Outcome<SiteMetrics>>) returns (o: AnalyticsOverview)
    ensures o == OverviewOf(results)
  {
    var p := Progress(AnalyticsOverview(0.0, 0.0, 0.0, 0.0, 0.0, 0.0, 0.0, 0.0, 0.0, map[], map[]), [], []);
    var i := 0;
    while i < |results|
      invariant 0 <= i <= |results|
      invariant ProgressOf(p, Succeeded(results[..i]))
    {
      assert results[..i + 1][..i] == results[..i];
      match results[i] {
        case Failed(_) =>
        case Fetched(m) =>
          p := AddSite(p, m, Succeeded(results[..i]));
      }
      i := i + 1;
    }
    assert results[..i] == results;
    o := p.o;
    if |p.bounceRates| > 0 {
      o := o.(avgBounceRate := Sum(p.bounceRates, Identity) / |p.bounceRates| as real);
    }
    if |p.sessionDurations| > 0 {
      o := o.(avgSessionDuration := Sum(p.sessionDurations, Identity) / |p.sessionDurations| as real);
    }
  }

  /** With no property, every figure is 0 and both maps are empty. */
  lemma NoSites()
    ensures OverviewOf([]) == AnalyticsOverview(0.0, 0.0, 0.0, 0.0, 0.0, 0.0, 0.0, 0.0, 0.0, map[], map[])
  {
  }

  /** A property whose call throws contributes nothing: the others are aggregated as if it were absent. */
  lemma FailureContributesNothing(a: seq<Outcome<SiteMetrics>>, msg: string, b: seq<Outcome<SiteMetrics>>)
    ensures OverviewOf(a + [Failed(msg)] + b) == OverviewOf(a + b)
  {
    SucceededConcat(a + [Failed(msg)], b);
    SucceededConcat(a, [Failed(msg)]);
    SucceededConcat(a, b);
    assert Succeeded<SiteMetrics>([Failed(msg)]) == [];
    assert Succeeded(a) + [] == Succeeded(a);
  }

  /**
   * Each total adds the properties' values, an unset value counting 0, and the
   * totals of two groups of properties add up.
   */
  lemma TotalsAdd(a: seq<Outcome<SiteMetrics>>, b: seq<Outcome<SiteMetrics>>, name: string)
    ensures Sum(Succeeded(a + b), ValueOf(name)) == Sum(Succeeded(a), ValueOf(name)) + Sum(Succeeded(b), ValueOf(name))
  {
    SucceededConcat(a, b);
    SumConcat(Succeeded(a), Succeeded(b), ValueOf(name));
  }

  /**
   * The average bounce rate is the mean over the properties that reported
   * one, and 0 when none did; with rates within [lo, hi] so is the mean.
   */
  lemma AverageBounceRate(results: seq<Outcome<SiteMetrics>>, lo: real, hi: real)
    ensures var xs := Reported(Succeeded(results), "bounce_rate");
            && (xs == [] ==> OverviewOf(results).avgBounceRate == 0.0)
            && (xs != [] ==> OverviewOf(results).avgBounceRate == Sum(xs, Identity) / |xs| as real)
            && (xs != [] && (forall i :: 0 <= i < |xs| ==> lo <= xs[i] <= hi) ==>
                  lo <= OverviewOf(results).avgBounceRate <= hi)
  {
    var xs := Reported(Succeeded(results), "bounce_rate");
    assert OverviewOf(results).avgBounceRate == MeanOrZero(xs);
    MeanBounds(xs, lo, hi);
  }

  /** The average session duration follows the same rule. */
  lemma AverageSessionDuration(results: seq<Outcome<SiteMetrics>>, lo: real, hi: real)
    ensures var xs := Reported(Succeeded(results), "session_duration");
            && (xs == [] ==> OverviewOf(results).avgSessionDuration == 0.0)
            && (xs != [] ==> OverviewOf(results).avgSessionDuration == Sum(xs, Identity) / |xs| as real)
            && (xs != [] && (forall i :: 0 <= i < |xs| ==> lo <= xs[i] <= hi) ==>
                  lo <= OverviewOf(results).avgSessionDuration <= hi)
  {
    var xs := Reported(Succeeded(results), "session_duration");
    assert OverviewOf(results).avgSessionDuration == MeanOrZero(xs);
    MeanBounds(xs, lo, hi);
  }

  /** The mean of a non-empty list: times its length it gives back the sum, and it lies within any bounds of the values. */
  lemma MeanBounds(xs: seq<real>, lo: real, hi: real)
    ensures xs == [] ==> MeanOrZero(xs) == 0.0
    ensures xs != [] ==> MeanOrZero(xs) * |xs| as real == Sum(xs, Identity)
    ensures xs != [] && (forall i :: 0 <= i < |xs| ==> lo <= xs[i] <= hi) ==> lo <= MeanOrZero(xs) <= hi
  {
    if xs != [] {
      if forall i :: 0 <= i < |xs| ==> lo <= xs[i] <= hi {
        SumBounds(xs, Identity, lo, hi);
      }
      Quotient(Sum(xs, Identity), |xs| as real, lo, hi);
    }
  }

  lemma Quotient(total: real, n: real, lo: real, hi: real)
    requires n > 0.0
    ensures (total / n) * n == total
    ensures n * lo <= total <= n * hi ==> lo <= total / n <= hi
  {
    var q := total / n;
    assert q * n == total;
  }

  /** A property reports a bounce rate into the mean exactly when the name is set, in order. */
  lemma {:induction false} ReportedSpec(s: seq<SiteMetrics>, name: string)
    ensures |Reported(s, name)| == |Filter(s, HasValue(name))|
    ensures forall j :: 0 <= j < |Reported(s, name)| ==> Reported(s, name)[j] == Filter(s, HasValue(name))[j].values[name]
  {
    if s != [] {
      var init, last := s[..|s| - 1], s[|s| - 1];
      assert s == init + [last];
      ReportedSpec(init, name);
      FilterSnoc(init, last, HasValue(name));
    }
  }

  function HasValue(name: string): SiteMetrics -> bool
  {
    (m: SiteMetrics) => name in m.values
  }

  /**
   * Traffic sources and devices are merged key-wise: a key appears when some
   * property reported it, with the sum of the reported values.
   */
  lemma MergedSources(results: seq<Outcome<SiteMetrics>>, k: string)
    ensures var ok := Succeeded(results);
            && (k in OverviewOf(results).trafficSources <==> exists i :: 0 <= i < |ok| && k in TrafficOf(ok[i]))
            && EntryOrZero(OverviewOf(results).trafficSources, k) == Sum(ok, EntryAt(TrafficOf, k))
            && (k in OverviewOf(results).devices <==> exists i :: 0 <= i < |ok| && k in DevicesOf(ok[i]))
            && EntryOrZero(OverviewOf(results).devices, k) == Sum(ok, EntryAt(DevicesOf, k))
  {
    var ok := Succeeded(results);
    MergeAllKeys(ok, TrafficOf, k);
    MergeAllEntry(ok, TrafficOf, k);
    MergeAllKeys(ok, DevicesOf, k);
    MergeAllEntry(ok, DevicesOf, k);
  }

  // ---------------------------------------------------------------------------
  // Traffic sources endpoint
  // ---------------------------------------------------------------------------

  function SourcesOf(m: map<string, real>): map<string, real> { m }

  /** `trafficSources`: every answering property's sources merged key-wise; a failing one is skipped. */
  method TrafficSources(results: seq<Outcome<map<string, real>>>) returns (sources: map<string, real>)
    ensures sources == MergeAll(Succeeded(results), SourcesOf)
  {
    sources := map[];
    var i := 0;
    while i < |results|
      invariant 0 <= i <= |results|
      invariant sources == MergeAll(Succeeded(results[..i]), SourcesOf)
    {
      assert results[..i + 1][..i] == results[..i];
      match results[i] {
        case Failed(_) =>
        case Fetched(m) =>
          sources := MergeInto(sources, m);
          assert Succeeded(results[..i + 1]) == Succeeded(results[..i]) + [m];
          assert (Succeeded(results[..i]) + [m])[..|Succeeded(results[..i])|] == Succeeded(results[..i]);
      }
      i := i + 1;
    }
    assert results[..i] == results;
  }

  /** The endpoint's value for a source is the sum of what the answering properties gave for it, 0 for none. */
  lemma TrafficSourcesSpec(results: seq<Outcome<map<string, real>>>, k: string)
    ensures var ok := Succeeded(results);
            && (k in MergeAll(ok, SourcesOf) <==> exists i :: 0 <= i < |ok| && k in ok[i])
            && EntryOrZero(MergeAll(ok, SourcesOf), k) == Sum(ok, EntryAt(SourcesOf, k))
  {
    MergeAllKeys(Succeeded(results), SourcesOf, k);
    MergeAllEntry(Succeeded(results), SourcesOf, k);
  }

  // ---------------------------------------------------------------------------
  // Requests
  // ---------------------------------------------------------------------------

  /** PHP's `empty` on a string: the empty string and `"0"`. */
  predicate EmptyText(s: string)
  {
    s == "" || s == "0"
  }

  function Chosen(propertyId: Option<string>): Site -> bool
  {
    (a: Site) => a.isActive && (propertyId.None? || EmptyText(propertyId.value) || a.propertyId == propertyId.value)
  }

  /** The active properties, narrowed to `property_id` when it is not empty. */
  function SelectedSites(sites: seq<Site>, propertyId: Option<string>): seq<Site>
  {
    Filter(sites, Chosen(propertyId))
  }

  lemma SelectedSitesSpec(sites: seq<Site>, propertyId: Option<string>)
    ensures Subsequence(SelectedSites(sites, propertyId), sites)
    ensures forall a :: a in SelectedSites(sites, propertyId) <==>
              a in sites && a.isActive &&
              (propertyId.None? || EmptyText(propertyId.value) || a.propertyId == propertyId.value)
    ensures forall a :: multiset(SelectedSites(sites, propertyId))[a] ==
              if a.isActive && (propertyId.None? || EmptyText(propertyId.value) || a.propertyId == propertyId.value)
              then multiset(sites)[a] else 0
  {
    FilterIsSubsequence(sites, Chosen(propertyId));
    FilterMultiset(sites, Chosen(propertyId));
    forall a ensures Chosen(propertyId)(a) ==
        (a.isActive && (propertyId.None? || EmptyText(propertyId.value) || a.propertyId == propertyId.value)) {
    }
  }

  /** A property id of `"0"` does not narrow: it is `empty` in PHP. */
  lemma ZeroPropertyIdDoesNotNarrow(sites: seq<Site>)
    ensures SelectedSites(sites, Some("0")) == SelectedSites(sites, None)
  {
    FilterCongruent(sites, Chosen(Some("0")), Chosen(None));
  }

  datatype Reply<T> = Unprocessable | Answer(value: T)

  /** `after_or_equal:start_date`. */
  predicate ValidRange(startDate: string, endDate: string)
  {
    LexLe(startDate, endDate)
  }

  /** The page count `topPages` asks the service for: `limit` in 1..50, 10 when absent. */
  function TopPagesLimit(startDate: string, endDate: string, limit: Option<int>): Reply<int>
  {
    if !ValidRange(startDate, endDate) || (limit.Some? && !(1 <= limit.value <= 50)) then Unprocessable
    else Answer(if limit.Some? then limit.value else 10)
  }

  lemma TopPagesLimitSpec(startDate: string, endDate: string, limit: Option<int>)
    ensures TopPagesLimit(startDate, endDate, limit).Answer? ==> 1 <= TopPagesLimit(startDate, endDate, limit).value <= 50
    ensures ValidRange(startDate, endDate) && limit.None? ==> TopPagesLimit(startDate, endDate, limit) == Answer(10)
    ensures !ValidRange(startDate, endDate) ==> TopPagesLimit(startDate, endDate, limit).Unprocessable?
    ensures ValidRange(startDate, endDate) && limit.Some? ==>
              (TopPagesLimit(startDate, endDate, limit) == Answer(limit.value) <==> 1 <= limit.value <= 50)
  {
  }

  /** `overview` on the user's properties, given the service's answer for each selected one. */
  method OverviewEndpoint(startDate: string, endDate: string, sites: seq<Site>, propertyId: Option<string>,
                          answer: Site -> Outcome<SiteMetrics>)
    returns (reply: Reply<AnalyticsOverview>, selected: seq<Site>)
    ensures selected == SelectedSites(sites, propertyId)
    ensures !ValidRange(startDate, endDate) <==> reply.Unprocessable?
    ensures ValidRange(startDate, endDate) ==>
              reply == Answer(OverviewOf(seq(|selected|, i requires 0 <= i < |selected| => answer(selected[i]))))
  {
    selected := SelectedSites(sites, propertyId);
    if !ValidRange(startDate, endDate) {
      return Unprocessable, selected;
    }
    var o := ComputeOverview(seq(|selected|, i requires 0 <= i < |selected| => answer(selected[i])));
    reply := Answer(o);
  }
}
