/**
 * The social metrics API: the overview that adds up each selected account's
 * metric rows over a date window, the synchronisation dispatch to the platform
 * clients, and the parameters of the posts listing.
 *
 * Dates are ISO `YYYY-MM-DD` strings, so the inclusive `whereBetween` on
 * `metric_date` is a comparison of strings.
 */
module SocialMetrics {
  import opened Collections
  import opened Text
  import opened Types

  /** The `metric_type` column: an enumeration of eighteen kinds. */
  datatype MetricType =
    | Followers | Views | Reach | Impressions | Engagement | Likes | Comments | Shares | Saves
    | Clicks | ProfileViews | WebsiteClicks | MinutesWatched | Subscribers | Revenue | WatchTime
    | AverageViewDuration | AudienceRetention

  /** The name of a metric kind as stored, which is the key of the grouped result. */
  function MetricKey(t: MetricType): string
  {
    match t
    case Followers => "followers"
    case Views => "views"
    case Reach => "reach"
    case Impressions => "impressions"
    case Engagement => "engagement"
    case Likes => "likes"
    case Comments => "comments"
    case Shares => "shares"
    case Saves => "saves"
    case Clicks => "clicks"
    case ProfileViews => "profile_views"
    case WebsiteClicks => "website_clicks"
    case MinutesWatched => "minutes_watched"
    case Subscribers => "subscribers"
    case Revenue => "revenue"
    case WatchTime => "watch_time"
    case AverageViewDuration => "average_view_duration"
    case AudienceRetention => "audience_retention"
  }

  /** A row of `social_metrics`. */
  datatype MetricRow = MetricRow(metricType: MetricType, metricDate: string, metricValue: real)

  /** A social account with its metric rows. */
  datatype Account = Account(id: int, platform: Platform, isActive: bool, metrics: seq<MetricRow>)

  function RowKey(m: MetricRow): string { MetricKey(m.metricType) }

  function RowValue(m: MetricRow): real { m.metricValue }

  function AccountPlatform(a: Account): Platform { a.platform }

  predicate Between(m: MetricRow, start: string, end: string)
  {
    LexLe(start, m.metricDate) && LexLe(m.metricDate, end)
  }

  function DatedWithin(start: string, end: string): MetricRow -> bool
  {
    m => Between(m, start, end)
  }

  /** The account's rows dated within `[start, end]`. */
  function RowsWithin(a: Account, start: string, end: string): seq<MetricRow>
  {
    Filter(a.metrics, DatedWithin(start, end))
  }

  /** `getMetricsForAccount`: the rows of the window grouped by type, each group summed. */
  function MetricsForAccount(a: Account, start: string, end: string): map<string, real>
  {
    SumsBy(RowsWithin(a, start, end), RowKey, RowValue)
  }

  /** The sum of the account's rows of kind `key` dated within the window. */
  function RowSum(a: Account, start: string, end: string, key: string): real
  {
    KeySum(RowsWithin(a, start, end), RowKey, RowValue, key)
  }

  /** `$metrics[key] ?? 0`. */
  function MetricOf(start: string, end: string, key: string): Account -> real
  {
    a => EntryOrZero(MetricsForAccount(a, start, end), key)
  }

  /**
   * A kind has an entry exactly when some row of that kind is dated within the
   * window, and the entry is the sum of those rows.
   */
  lemma MetricsForAccountSpec(a: Account, start: string, end: string, key: string)
    ensures key in MetricsForAccount(a, start, end) <==>
              exists i :: 0 <= i < |a.metrics| && RowKey(a.metrics[i]) == key && Between(a.metrics[i], start, end)
    ensures key in MetricsForAccount(a, start, end) ==> MetricsForAccount(a, start, end)[key] == RowSum(a, start, end, key)
  {
    var w := RowsWithin(a, start, end);
    SumsByKeys(w, RowKey, RowValue);
    SumsByEntry(w, RowKey, RowValue, key);
    KindInWindow(a, start, end, key);
  }

  /** A kind occurs among the window's rows exactly when a row of that kind is dated within the window. */
  lemma KindInWindow(a: Account, start: string, end: string, key: string)
    ensures key in KeysOf(RowsWithin(a, start, end), RowKey) <==>
              exists i :: 0 <= i < |a.metrics| && RowKey(a.metrics[i]) == key && Between(a.metrics[i], start, end)
  {
    if key in KeysOf(RowsWithin(a, start, end), RowKey) {
      KindInWindowFrom(a, start, end, key);
    }
    if exists i :: 0 <= i < |a.metrics| && RowKey(a.metrics[i]) == key && Between(a.metrics[i], start, end) {
      var i :| 0 <= i < |a.metrics| && RowKey(a.metrics[i]) == key && Between(a.metrics[i], start, end);
      KindInWindowTo(a, start, end, key, i);
    }
  }

  lemma KindInWindowFrom(a: Account, start: string, end: string, key: string)
    requires key in KeysOf(RowsWithin(a, start, end), RowKey)
    ensures exists i :: 0 <= i < |a.metrics| && RowKey(a.metrics[i]) == key && Between(a.metrics[i], start, end)
  {
    var w := RowsWithin(a, start, end);
    var j := LastIndexOf(w, RowKey, key);
    assert w[j] in w && DatedWithin(start, end)(w[j]);
    var i :| 0 <= i < |a.metrics| && a.metrics[i] == w[j];
  }

  lemma KindInWindowTo(a: Account, start: string, end: string, key: string, i: nat)
    requires i < |a.metrics| && RowKey(a.metrics[i]) == key && Between(a.metrics[i], start, end)
    ensures key in KeysOf(RowsWithin(a, start, end), RowKey)
  {
    var w := RowsWithin(a, start, end);
    assert DatedWithin(start, end)(a.metrics[i]);
    assert a.metrics[i] in w;
    var j :| 0 <= j < |w| && w[j] == a.metrics[i];
  }

  /** `?? 0` reads the sum of the matching rows whether or not the kind has an entry. */
  lemma MetricOrZero(a: Account, start: string, end: string, key: string)
    ensures MetricOf(start, end, key)(a) == RowSum(a, start, end, key)
  {
    var w := RowsWithin(a, start, end);
    SumsByKeys(w, RowKey, RowValue);
    SumsByEntry(w, RowKey, RowValue, key);
    if key !in KeysOf(w, RowKey) {
      KeySumAbsent(w, RowKey, RowValue, key);
    }
  }

  /** No metric kind is called `engagement_rate`. */
  lemma NoEngagementRateKind(t: MetricType)
    ensures MetricKey(t) != "engagement_rate"
  {
  }

  /** Only the `engagement` kind is stored under the name `engagement`. */
  lemma EngagementKey(t: MetricType)
    ensures MetricKey(t) == "engagement" <==> t == Engagement
  {
    if MetricKey(t) == "engagement" {
      assert MetricKey(t)[0] == 'e';
    }
  }

  // ---------------------------------------------------------------------------
  // Overview
  // ---------------------------------------------------------------------------

  datatype PlatformMetrics = PlatformMetrics(followers: real, views: real, reach: real, engagementRate: real)

  datatype Overview = Overview(
    totalFollowers: real,
    totalViews: real,
    totalReach: real,
    totalEngagement: real,
    totalLikes: real,
    totalComments: real,
    totalShares: real,
    platforms: map<Platform, PlatformMetrics>)

  /** The entry written for an account under its platform. */
  function PlatformEntry(start: string, end: string): Account -> PlatformMetrics
  {
    a =>
      var m := MetricsForAccount(a, start, end);
      PlatformMetrics(EntryOrZero(m, "followers"), EntryOrZero(m, "views"), EntryOrZero(m, "reach"),
                      EntryOrZero(m, "engagement_rate"))
  }

  /** The overview of a list of accounts, as the loop of `overview` leaves it. */
  function OverviewOf(accounts: seq<Account>, start: string, end: string): Overview
  {
    Overview(
      Sum(accounts, MetricOf(start, end, "followers")),
      Sum(accounts, MetricOf(start, end, "views")),
      Sum(accounts, MetricOf(start, end, "reach")),
      Sum(accounts, MetricOf(start, end, "engagement")),
      Sum(accounts, MetricOf(start, end, "likes")),
      Sum(accounts, MetricOf(start, end, "comments")),
      Sum(accounts, MetricOf(start, end, "shares")),
      KeyedBy(accounts, AccountPlatform, PlatformEntry(start, end)))
  }

  /** The `foreach` over the accounts, adding into the totals and overwriting the platform entries. */
  method ComputeOverview(accounts: seq<Account>, start: string, end: string) returns (o: Overview)
    ensures o == OverviewOf(accounts, start, end)
  {
    o := Overview(0.0, 0.0, 0.0, 0.0, 0.0, 0.0, 0.0, map[]);
    var i := 0;
    while i < |accounts|
      invariant 0 <= i <= |accounts|
      invariant o == OverviewOf(accounts[..i], start, end)
    {
      var a := accounts[i];
      var m := MetricsForAccount(a, start, end);
      o := o.(totalFollowers := o.totalFollowers + EntryOrZero(m, "followers"));
      o := o.(totalViews := o.totalViews + EntryOrZero(m, "views"));
      o := o.(totalReach := o.totalReach + EntryOrZero(m, "reach"));
      o := o.(totalEngagement := o.totalEngagement + EntryOrZero(m, "engagement"));
      o := o.(totalLikes := o.totalLikes + EntryOrZero(m, "likes"));
      o := o.(totalComments := o.totalComments + EntryOrZero(m, "comments"));
      o := o.(totalShares := o.totalShares + EntryOrZero(m, "shares"));
      o := o.(platforms := o.platforms[a.platform := PlatformMetrics(
        EntryOrZero(m, "followers"), EntryOrZero(m, "views"), EntryOrZero(m, "reach"), EntryOrZero(m, "engagement_rate"))]);
      assert accounts[..i + 1][..i] == accounts[..i] && accounts[..i + 1][i] == a;
      i := i + 1;
    }
    assert accounts[..i] == accounts;
  }

  /** Each total is the sum over the accounts of their rows of that kind in the window; a missing kind counts 0. */
  lemma TotalIsRowSum(accounts: seq<Account>, start: string, end: string, key: string)
    ensures Sum(accounts, MetricOf(start, end, key)) == Sum(accounts, RowSumOf(start, end, key))
  {
    forall i | 0 <= i < |accounts| ensures MetricOf(start, end, key)(accounts[i]) == RowSumOf(start, end, key)(accounts[i]) {
      MetricOrZero(accounts[i], start, end, key);
    }
    SumCongruent(accounts, MetricOf(start, end, key), RowSumOf(start, end, key));
  }

  function RowSumOf(start: string, end: string, key: string): Account -> real
  {
    a => RowSum(a, start, end, key)
  }

  /**
   * `total_engagement` adds the stored `engagement` rows only: accounts with
   * no such row in the window give 0, whatever their likes, comments and shares.
   */
  lemma EngagementFromStoredRows(accounts: seq<Account>, start: string, end: string)
    requires forall i, j :: 0 <= i < |accounts| && 0 <= j < |accounts[i].metrics| ==>
               accounts[i].metrics[j].metricType != Engagement || !Between(accounts[i].metrics[j], start, end)
    ensures OverviewOf(accounts, start, end).totalEngagement == 0.0
  {
    forall i | 0 <= i < |accounts| ensures MetricOf(start, end, "engagement")(accounts[i]) == Zero(accounts[i]) {
      NoEngagementRows(accounts[i], start, end);
    }
    SumCongruent(accounts, MetricOf(start, end, "engagement"), Zero);
    ZeroSum(accounts);
  }

  lemma NoEngagementRows(a: Account, start: string, end: string)
    requires forall j :: 0 <= j < |a.metrics| ==> a.metrics[j].metricType != Engagement || !Between(a.metrics[j], start, end)
    ensures MetricOf(start, end, "engagement")(a) == 0.0
  {
    MetricsForAccountSpec(a, start, end, "engagement");
    forall j | 0 <= j < |a.metrics| && Between(a.metrics[j], start, end) ensures RowKey(a.metrics[j]) != "engagement" {
      EngagementKey(a.metrics[j].metricType);
    }
  }

  function Zero(a: Account): real { 0.0 }

  lemma {:induction false} ZeroSum(s: seq<Account>)
    ensures Sum(s, Zero) == 0.0
  {
    if s != [] {
      ZeroSum(s[..|s| - 1]);
    }
  }

  /**
   * There is one platform entry per platform of the accounts, filled from the
   * last account of that platform; its `engagement_rate` is always 0, because
   * no metric kind has that name.
   */
  lemma OverviewPlatforms(accounts: seq<Account>, start: string, end: string)
    ensures OverviewOf(accounts, start, end).platforms.Keys == KeysOf(accounts, AccountPlatform)
    ensures forall p :: p in OverviewOf(accounts, start, end).platforms ==>
              var a := accounts[LastIndexOf(accounts, AccountPlatform, p)];
              OverviewOf(accounts, start, end).platforms[p] ==
              PlatformMetrics(MetricOf(start, end, "followers")(a), MetricOf(start, end, "views")(a),
                              MetricOf(start, end, "reach")(a), 0.0)
  {
    KeyedByLastWins(accounts, AccountPlatform, PlatformEntry(start, end));
    forall a: Account ensures "engagement_rate" !in MetricsForAccount(a, start, end) {
      var w := RowsWithin(a, start, end);
      SumsByKeys(w, RowKey, RowValue);
      if "engagement_rate" in KeysOf(w, RowKey) {
        var j := LastIndexOf(w, RowKey, "engagement_rate");
        NoEngagementRateKind(w[j].metricType);
      }
    }
  }

  /** With no account, every total is 0 and there are no platform entries. */
  lemma EmptyOverview(start: string, end: string)
    ensures OverviewOf([], start, end) == Overview(0.0, 0.0, 0.0, 0.0, 0.0, 0.0, 0.0, map[])
  {
  }

  // ---------------------------------------------------------------------------
  // Request
  // ---------------------------------------------------------------------------

  /** The platforms the request may name. */
  const RequestPlatforms: seq<string> := ["facebook", "instagram", "tiktok", "youtube", "twitter", "linkedin"]

  datatype OverviewRequest = OverviewRequest(startDate: string, endDate: string, platforms: Option<seq<string>>)

  /** `after_or_equal:start_date` and `platforms.*` in the six names. */
  predicate ValidOverviewRequest(r: OverviewRequest)
  {
    LexLe(r.startDate, r.endDate) &&
    (r.platforms.Some? ==> forall i :: 0 <= i < |r.platforms.value| ==> r.platforms.value[i] in RequestPlatforms)
  }

  /** The active accounts, narrowed to the requested platforms when some are requested. */
  function Included(platforms: seq<string>): Account -> bool
  {
    (a: Account) => a.isActive && (platforms == [] || PlatformKey(a.platform) in platforms)
  }

  function SelectedAccounts(accounts: seq<Account>, platforms: seq<string>): seq<Account>
  {
    Filter(accounts, Included(platforms))
  }

  /** A request either fails validation (HTTP 422) or is answered. */
  datatype Reply<T> = Unprocessable | Answer(value: T)

  /** `overview` on the user's accounts. */
  method OverviewEndpoint(accounts: seq<Account>, r: OverviewRequest) returns (reply: Reply<Overview>)
    ensures !ValidOverviewRequest(r) <==> reply.Unprocessable?
    ensures ValidOverviewRequest(r) ==>
              reply == Answer(OverviewOf(SelectedAccounts(accounts, if r.platforms.Some? then r.platforms.value else []),
                                         r.startDate, r.endDate))
  {
    if !ValidOverviewRequest(r) {
      return Unprocessable;
    }
    var platforms := if r.platforms.Some? then r.platforms.value else [];
    var o := ComputeOverview(SelectedAccounts(accounts, platforms), r.startDate, r.endDate);
    reply := Answer(o);
  }

  /**
   * The accounts counted are the active ones, in order; with platforms
   * requested, only those whose platform is requested.
   */
  lemma SelectedAccountsSpec(accounts: seq<Account>, platforms: seq<string>)
    ensures Subsequence(SelectedAccounts(accounts, platforms), accounts)
    ensures forall a :: a in SelectedAccounts(accounts, platforms) <==>
              a in accounts && a.isActive && (platforms == [] || PlatformKey(a.platform) in platforms)
    ensures forall a :: multiset(SelectedAccounts(accounts, platforms))[a] ==
              if a.isActive && (platforms == [] || PlatformKey(a.platform) in platforms) then multiset(accounts)[a] else 0
  {
    FilterIsSubsequence(accounts, Included(platforms));
    FilterMultiset(accounts, Included(platforms));
    forall a ensures Included(platforms)(a) == (a.isActive && (platforms == [] || PlatformKey(a.platform) in platforms)) {
    }
  }

  /** An empty platform list does not narrow: every active account is counted. */
  lemma NoPlatformsAllActive(accounts: seq<Account>)
    requires forall i :: 0 <= i < |accounts| ==> accounts[i].isActive
    ensures SelectedAccounts(accounts, []) == accounts
  {
    FilterAll(accounts, Included([]));
  }

  /** A valid request naming platforms never counts an AdSense account. */
  lemma ValidRequestSkipsAdSense(accounts: seq<Account>, r: OverviewRequest)
    requires ValidOverviewRequest(r) && r.platforms.Some? && r.platforms.value != []
    ensures forall a :: a in SelectedAccounts(accounts, r.platforms.value) ==> a.platform != AdSense
  {
    SelectedAccountsSpec(accounts, r.platforms.value);
    assert "adsense" !in RequestPlatforms;
  }

  // ---------------------------------------------------------------------------
  // Synchronisation
  // ---------------------------------------------------------------------------

  /** The four platform clients that can synchronise. */
  datatype SyncService = FacebookService | InstagramService | TikTokService | YouTubeService

  /** The `switch` on the account's platform. */
  function ServiceFor(p: Platform): Option<SyncService>
  {
    match p
    case Facebook => Some(FacebookService)
    case Instagram => Some(InstagramService)
    case TikTok => Some(TikTokService)
    case YouTube => Some(YouTubeService)
    case _ => None
  }

  datatype SyncReply =
    | SyncForbidden
    | SyncSucceeded(message: string)
    | SyncFailed(status: int, message: string, error: string)

  /**
   * `sync`. `authorized` is the account policy's verdict on viewing the
   * account; `thrown` is the message of the exception the called client
   * raises, if it raises one.
   */
  function Sync(p: Platform, authorized: bool, thrown: Option<string>): SyncReply
  {
    if !authorized then SyncForbidden
    else if ServiceFor(p).Some? && thrown.Some? then SyncFailed(500, "Erreur de synchronisation", thrown.value)
    else SyncSucceeded(SyncSuccessMessage)
  }

  /** The success message of `sync`, as the controller spells it. */
  const SyncSuccessMessage: string := "Synchronisation rÃ©ussie"

  /** The success message the analytics controller gives for its own synchronisation. */
  const IntendedSyncMessage: string := "Synchronisation réussie"

  /** The two bytes UTF-8 encodes a character of U+0080..U+07FF with. */
  function Utf8Pair(c: char): (r: seq<int>)
    requires 0x80 <= c as int < 0x800
    ensures |r| == 2 && 0xC2 <= r[0] <= 0xDF && 0x80 <= r[1] <= 0xBF
    ensures (r[0] - 0xC0) * 64 + (r[1] - 0x80) == c as int
  {
    [0xC0 + c as int / 64, 0x80 + c as int % 64]
  }

  /** Bytes read as Latin-1: each byte stands for the character of that code point. */
  function Latin1(bytes: seq<int>): (r: string)
    requires forall i :: 0 <= i < |bytes| ==> 0 <= bytes[i] < 256
    ensures |r| == |bytes|
    ensures forall i :: 0 <= i < |bytes| ==> r[i] as int == bytes[i]
  {
    seq(|bytes|, i requires 0 <= i < |bytes| => bytes[i] as char)
  }

  /**
   * The controller's success message is the intended one with its "é" encoded
   * twice: the two UTF-8 bytes of "é" were read back as Latin-1 characters, so
   * the client is shown "rÃ©ussie" instead of "réussie".
   */
  lemma SyncMessageDoubleEncoded()
    ensures IntendedSyncMessage == "Synchronisation r" + ['é'] + "ussie"
    ensures SyncSuccessMessage == "Synchronisation r" + Latin1(Utf8Pair('é')) + "ussie"
    ensures SyncSuccessMessage != IntendedSyncMessage
  {
    assert Utf8Pair('é') == [0xC3, 0xA9];
    assert Latin1([0xC3, 0xA9]) == "Ã©";
    assert |SyncSuccessMessage| != |IntendedSyncMessage|;
  }

  /** `sync` with the success message the analytics controller uses. */
  function SyncIntended(p: Platform, authorized: bool, thrown: Option<string>): (r: SyncReply)
    ensures r.SyncSucceeded? <==> Sync(p, authorized, thrown).SyncSucceeded?
    ensures r.SyncSucceeded? ==> r.message == IntendedSyncMessage
    ensures !r.SyncSucceeded? ==> r == Sync(p, authorized, thrown)
  {
    match Sync(p, authorized, thrown)
    case SyncSucceeded(_) => SyncSucceeded(IntendedSyncMessage)
    case other => other
  }

  /** Exactly Facebook, Instagram, TikTok and YouTube have a client, each its own. */
  lemma ServiceForSpec(p: Platform)
    ensures ServiceFor(p).Some? <==> p in {Facebook, Instagram, TikTok, YouTube}
    ensures forall q :: ServiceFor(p).Some? && ServiceFor(q) == ServiceFor(p) ==> q == p
  {
  }

  /**
   * A refused account gets 403; an account of another platform calls nothing
   * and succeeds; a client that throws gives 500 with its message; otherwise
   * the synchronisation succeeds.
   */
  lemma SyncSpec(p: Platform, authorized: bool, thrown: Option<string>)
    ensures !authorized ==> Sync(p, authorized, thrown).SyncForbidden?
    ensures authorized && ServiceFor(p).None? ==> Sync(p, authorized, thrown).SyncSucceeded?
    ensures authorized && ServiceFor(p).Some? && thrown.Some? ==>
              Sync(p, authorized, thrown) == SyncFailed(500, "Erreur de synchronisation", thrown.value)
    ensures Sync(p, authorized, thrown).SyncSucceeded? <==> authorized && (ServiceFor(p).None? || thrown.None?)
    ensures Sync(p, authorized, thrown).SyncSucceeded? ==> Sync(p, authorized, thrown).message == "Synchronisation rÃ©ussie"
  {
  }

  // ---------------------------------------------------------------------------
  // Posts listing
  // ---------------------------------------------------------------------------

  datatype PostsRequest = PostsRequest(
    startDate: string,
    endDate: string,
    platforms: Option<seq<string>>,
    sortBy: Option<string>,
    sortOrder: Option<string>,
    limit: Option<int>)

  /** The query the listing runs: platform filter, ordering column, direction and page size. */
  datatype PostsQuery = PostsQuery(platforms: seq<string>, sortBy: string, sortOrder: string, limit: int)

  const SortKeys: seq<string> := ["published_at", "views", "likes", "engagement"]

  predicate ValidPostsRequest(r: PostsRequest)
  {
    && LexLe(r.startDate, r.endDate)
    && (r.platforms.Some? ==> forall i :: 0 <= i < |r.platforms.value| ==> r.platforms.value[i] in RequestPlatforms)
    && (r.sortBy.Some? ==> r.sortBy.value in SortKeys)
    && (r.sortOrder.Some? ==> r.sortOrder.value in ["asc", "desc"])
    && (r.limit.Some? ==> 1 <= r.limit.value <= 100)
  }

  /** The validated parameters with their defaults, as written: the sort key is used as the column name. */
  function PostsQueryOf(r: PostsRequest): Reply<PostsQuery>
  {
    if !ValidPostsRequest(r) then Unprocessable
    else Answer(PostsQuery(
      if r.platforms.Some? then r.platforms.value else [],
      if r.sortBy.Some? then r.sortBy.value else "published_at",
      if r.sortOrder.Some? then r.sortOrder.value else "desc",
      if r.limit.Some? then r.limit.value else 50))
  }

  /**
   * Without options the listing is newest first, fifty per page; any answered
   * query has a page size in 1..100, a known direction and a known sort key.
   */
  lemma PostsQuerySpec(r: PostsRequest)
    ensures PostsQueryOf(r).Unprocessable? <==> !ValidPostsRequest(r)
    ensures ValidPostsRequest(r) && r.platforms.None? && r.sortBy.None? && r.sortOrder.None? && r.limit.None? ==>
              PostsQueryOf(r) == Answer(PostsQuery([], "published_at", "desc", 50))
    ensures PostsQueryOf(r).Answer? ==>
              var q := PostsQueryOf(r).value;
              1 <= q.limit <= 100 && q.sortOrder in ["asc", "desc"] && q.sortBy in SortKeys
  {
  }

  /** The columns of `social_posts` a query can order by. */
  const PostColumns: seq<string> := [
    "id", "social_account_id", "post_id", "content", "media_url", "post_type", "published_at",
    "likes_count", "comments_count", "shares_count", "views_count", "reach_count", "engagement_rate",
    "is_published", "metadata", "created_at", "updated_at"]

  /** An accepted sort key, `views`, reaches the query unchanged although it names no column of `social_posts`. */
  lemma SortByViewsNamesNoColumn(r: PostsRequest)
    requires ValidPostsRequest(r) && r.sortBy == Some("views")
    ensures PostsQueryOf(r).Answer? && PostsQueryOf(r).value.sortBy == "views"
    ensures "views" !in PostColumns
  {
    assert forall i :: 0 <= i < |PostColumns| ==> |PostColumns[i]| != |"views"|;
  }

  /** The column each sort key stands for. */
  function SortColumn(key: string): string
  {
    if key == "views" then "views_count"
    else if key == "likes" then "likes_count"
    else if key == "engagement" then "engagement_rate"
    else key
  }

  /** The listing's query with each sort key translated to its column. */
  function PostsQueryFixed(r: PostsRequest): Reply<PostsQuery>
  {
    match PostsQueryOf(r)
    case Unprocessable => Unprocessable
    case Answer(q) => Answer(q.(sortBy := SortColumn(q.sortBy)))
  }

  /** Every answered query then orders by a column of `social_posts`, and the defaults are untouched. */
  lemma PostsQueryFixedOrdersByColumn(r: PostsRequest)
    ensures PostsQueryFixed(r).Unprocessable? <==> !ValidPostsRequest(r)
    ensures PostsQueryFixed(r).Answer? ==> PostsQueryFixed(r).value.sortBy in PostColumns
    ensures r.sortBy.None? && ValidPostsRequest(r) ==> PostsQueryFixed(r) == PostsQueryOf(r)
  {
  }
}
