/**
 * The client-side data store: the accounts, posts, revenue records and import
 * batches that the pages share, the operations that replace them, the getters
 * over the revenue records and the social overview derived from them.
 */
module DataStore {
  import opened Collections
  import opened Text
  import opened Types

  /** `Math.max(...ids, 0) + 1`: one more than the largest id, and at least 1. */
  function NextAccountId(accounts: seq<SocialAccount>): (id: int)
    ensures id >= 1
    ensures forall i :: 0 <= i < |accounts| ==> accounts[i].id < id
    ensures id == 1 || exists i :: 0 <= i < |accounts| && accounts[i].id == id - 1
  {
    if accounts == [] then 1
    else
      var m := NextAccountId(accounts[..|accounts| - 1]);
      var last := accounts[|accounts| - 1].id;
      if last + 1 > m then last + 1 else m
  }

  /** No two accounts share an id. */
  ghost predicate DistinctIds(accounts: seq<SocialAccount>)
  {
    forall i, j :: 0 <= i < j < |accounts| ==> accounts[i].id != accounts[j].id
  }

  /** The in-memory state of the data provider. */
  class Store {
    var accounts: seq<SocialAccount>
    var posts: seq<SocialPost>
    var revenueData: seq<RevenueRecord>
    var importBatches: seq<ImportBatch>
    var dateRange: DateRange

    ghost predicate Valid()
      reads this
    {
      DistinctIds(accounts)
    }

    /** The provider starts from the given data and no import batches. */
    constructor (accounts0: seq<SocialAccount>, posts0: seq<SocialPost>,
                 revenue0: seq<RevenueRecord>, range0: DateRange)
      requires DistinctIds(accounts0)
      ensures Valid()
      ensures accounts == accounts0 && posts == posts0 && revenueData == revenue0
      ensures importBatches == [] && dateRange == range0
    {
      accounts, posts, revenueData := accounts0, posts0, revenue0;
      importBatches, dateRange := [], range0;
    }

    method SetDateRange(range: DateRange)
      modifies this
      ensures dateRange == range
      ensures accounts == old(accounts) && posts == old(posts)
      ensures revenueData == old(revenueData) && importBatches == old(importBatches)
    {
      dateRange := range;
    }

    /** The newest batch comes first; a batch with an id already present is still added. */
    method AddImportBatch(batch: ImportBatch)
      modifies this
      ensures importBatches == [batch] + old(importBatches)
      ensures accounts == old(accounts) && posts == old(posts)
      ensures revenueData == old(revenueData) && dateRange == old(dateRange)
    {
      importBatches := [batch] + importBatches;
    }

    /** New records go before the existing ones, which stay as they were. */
    method AddRevenueData(data: seq<RevenueRecord>)
      modifies this
      ensures revenueData == data + old(revenueData)
      ensures revenueData[|data|..] == old(revenueData)
      ensures accounts == old(accounts) && posts == old(posts)
      ensures importBatches == old(importBatches) && dateRange == old(dateRange)
    {
      revenueData := data + revenueData;
    }

    /** Appends the draft account under a fresh id; the id in `draft` is ignored. */
    method AddAccount(draft: SocialAccount)
      requires Valid()
      modifies this
      ensures Valid()
      ensures accounts == old(accounts) + [draft.(id := NextAccountId(old(accounts)))]
      ensures accounts[|accounts| - 1].id >= 1
      ensures forall i :: 0 <= i < |old(accounts)| ==> accounts[i].id != accounts[|accounts| - 1].id
      ensures posts == old(posts) && revenueData == old(revenueData)
      ensures importBatches == old(importBatches) && dateRange == old(dateRange)
    {
      var id := NextAccountId(accounts);
      accounts := accounts + [draft.(id := id)];
    }

    /** Drops every account with this id and keeps the rest in order. */
    method RemoveAccount(id: int)
      requires Valid()
      modifies this
      ensures Valid()
      ensures accounts == WithoutAccount(old(accounts), id)
      ensures posts == old(posts) && revenueData == old(revenueData)
      ensures importBatches == old(importBatches) && dateRange == old(dateRange)
    {
      var kept := WithoutAccount(accounts, id);
      WithoutAccountKeeps(accounts, id);
      accounts := kept;
    }
  }

  predicate HasOtherId(a: SocialAccount, id: int) { a.id != id }

  /** `accounts.filter(a => a.id !== id)`. */
  function WithoutAccount(accounts: seq<SocialAccount>, id: int): (r: seq<SocialAccount>)
    ensures forall a :: a in r <==> a in accounts && a.id != id
    ensures forall a :: multiset(r)[a] == if a.id != id then multiset(accounts)[a] else 0
    ensures Subsequence(r, accounts)
  {
    FilterIsSubsequence(accounts, a => HasOtherId(a, id));
    FilterMultiset(accounts, a => HasOtherId(a, id));
    Filter(accounts, a => HasOtherId(a, id))
  }

  /** Removing accounts keeps the ids distinct. */
  lemma {:induction false} WithoutAccountKeeps(accounts: seq<SocialAccount>, id: int)
    requires DistinctIds(accounts)
    ensures DistinctIds(WithoutAccount(accounts, id))
  {
    SubsequenceDistinct(WithoutAccount(accounts, id), accounts);
  }

  lemma {:induction false} SubsequenceDistinct(r: seq<SocialAccount>, s: seq<SocialAccount>)
    requires Subsequence(r, s)
    requires DistinctIds(s)
    ensures DistinctIds(r)
    decreases |s|
  {
    if r != [] && s != [] {
      if r[0] == s[0] {
        SubsequenceDistinct(r[1..], s[1..]);
        forall j | 0 < j < |r| ensures r[0].id != r[j].id {
          SubsequenceMember(r[1..], s[1..], j - 1);
        }
      } else {
        SubsequenceDistinct(r, s[1..]);
      }
    }
  }

  /** Every element of a subsequence is an element of the sequence. */
  lemma {:induction false} SubsequenceMember(r: seq<SocialAccount>, s: seq<SocialAccount>, k: int)
    requires Subsequence(r, s)
    requires 0 <= k < |r|
    ensures exists j :: 0 <= j < |s| && s[j] == r[k]
    decreases |s|
  {
    if r[0] == s[0] {
      if k == 0 {
        assert s[0] == r[0];
      } else {
        SubsequenceMember(r[1..], s[1..], k - 1);
        var j :| 0 <= j < |s[1..]| && s[1..][j] == r[1..][k - 1];
        assert s[j + 1] == r[k];
      }
    } else {
      SubsequenceMember(r, s[1..], k);
      var j :| 0 <= j < |s[1..]| && s[1..][j] == r[k];
      assert s[j + 1] == r[k];
    }
  }

  /** `getRevenueByPlatform`: exactly the records of `platform`, in store order. */
  function RevenueByPlatform(data: seq<RevenueRecord>, platform: Platform): (r: seq<RevenueRecord>)
    ensures forall x :: x in r <==> x in data && x.platform == platform
    ensures forall x :: multiset(r)[x] == if x.platform == platform then multiset(data)[x] else 0
    ensures Subsequence(r, data)
  {
    FilterIsSubsequence(data, x => RecordPlatform(x) == platform);
    FilterMultiset(data, x => RecordPlatform(x) == platform);
    Filter(data, x => RecordPlatform(x) == platform)
  }

  /** The record's date lies in the inclusive window, comparing strings. */
  predicate InWindow(r: RevenueRecord, startDate: string, endDate: string)
  {
    LexLe(startDate, r.date) && LexLe(r.date, endDate)
  }

  /** `getRevenueByDateRange`: exactly the records dated from `startDate` to `endDate`. */
  function RevenueByDateRange(data: seq<RevenueRecord>, startDate: string, endDate: string): (r: seq<RevenueRecord>)
    ensures forall x :: x in r <==> x in data && LexLe(startDate, x.date) && LexLe(x.date, endDate)
    ensures forall x :: multiset(r)[x] == if InWindow(x, startDate, endDate) then multiset(data)[x] else 0
    ensures Subsequence(r, data)
  {
    FilterIsSubsequence(data, x => InWindow(x, startDate, endDate));
    FilterMultiset(data, x => InWindow(x, startDate, endDate));
    Filter(data, x => InWindow(x, startDate, endDate))
  }

  /** `getTotalRevenue`: the sum of every record's revenue. */
  function TotalRevenue(data: seq<RevenueRecord>): real
  {
    Sum(data, RecordRevenue)
  }

  /** The revenue of one platform: the sum over all its records. */
  function PlatformRevenue(data: seq<RevenueRecord>, platform: Platform): real
  {
    PlatformSum(data, RecordPlatform, RecordRevenue, platform)
  }

  /** The total revenue splits into the seven per-platform revenues. */
  lemma TotalRevenueByPlatform(data: seq<RevenueRecord>)
    ensures TotalRevenue(data) ==
            PlatformRevenue(data, Facebook) + PlatformRevenue(data, Instagram) +
            PlatformRevenue(data, TikTok) + PlatformRevenue(data, YouTube) +
            PlatformRevenue(data, Twitter) + PlatformRevenue(data, LinkedIn) +
            PlatformRevenue(data, AdSense)
  {
    SumByPlatform(data, RecordPlatform, RecordRevenue);
  }

  /** Adding records adds their revenue to the total. */
  lemma TotalRevenueAdd(data: seq<RevenueRecord>, old_data: seq<RevenueRecord>)
    ensures TotalRevenue(data + old_data) == TotalRevenue(data) + TotalRevenue(old_data)
  {
    SumConcat(data, old_data, RecordRevenue);
  }

  predicate PostOf(p: SocialPost, accountId: int) { p.socialAccountId == accountId }

  /** The posts of one account, in order. */
  function PostsOf(posts: seq<SocialPost>, accountId: int): (r: seq<SocialPost>)
    ensures forall p :: p in r <==> p in posts && p.socialAccountId == accountId
    ensures forall p :: multiset(r)[p] == if p.socialAccountId == accountId then multiset(posts)[p] else 0
    ensures Subsequence(r, posts)
  {
    FilterIsSubsequence(posts, p => PostOf(p, accountId));
    FilterMultiset(posts, p => PostOf(p, accountId));
    Filter(posts, p => PostOf(p, accountId))
  }

  /**
   * The overview entry of one account: its followers, the views of its posts
   * (also reported as reach), the mean engagement rate of its posts (0 when it
   * has none, since the divisor `length || 1` is then 1), and the revenue of
   * every record of its platform.
   */
  function AccountStats(account: SocialAccount, posts: seq<SocialPost>, data: seq<RevenueRecord>): (r: PlatformStats)
    ensures r.followers == account.followersCount
    ensures r.views == Sum(PostsOf(posts, account.id), PostViews) && r.reach == r.views
    ensures PostsOf(posts, account.id) == [] ==> r.engagementRate == 0.0
    ensures r.engagementRate == Mean(Sum(PostsOf(posts, account.id), PostEngagementRate), |PostsOf(posts, account.id)|)
    ensures r.revenue == PlatformRevenue(data, account.platform)
  {
    var mine := PostsOf(posts, account.id);
    var views := Sum(mine, PostViews);
    PlatformStats(account.followersCount, views, views, Mean(Sum(mine, PostEngagementRate), |mine|),
                  PlatformRevenue(data, account.platform))
  }

  /** `total / (n || 1)`: the mean of `n` values summing to `total`, and 0 when there are none. */
  function Mean(total: real, n: nat): (m: real)
    ensures n == 0 ==> m == total
    ensures n > 0 ==> m * n as real == total
  {
    var divisor := if n == 0 then 1 else n;
    total / divisor as real
  }

  /** The mean engagement rate lies between the smallest and the largest rate of the account's posts. */
  lemma MeanEngagementBounded(account: SocialAccount, posts: seq<SocialPost>, data: seq<RevenueRecord>,
                              lo: real, hi: real)
    requires forall p :: p in posts && p.socialAccountId == account.id ==> lo <= p.engagementRate <= hi
    requires PostsOf(posts, account.id) != []
    ensures lo <= AccountStats(account, posts, data).engagementRate <= hi
  {
    var mine := PostsOf(posts, account.id);
    forall i | 0 <= i < |mine| ensures lo <= PostEngagementRate(mine[i]) <= hi {
      assert mine[i] in mine;
    }
    MeanRateBounded(mine, lo, hi);
  }

  lemma MeanRateBounded(mine: seq<SocialPost>, lo: real, hi: real)
    requires mine != []
    requires forall i :: 0 <= i < |mine| ==> lo <= PostEngagementRate(mine[i]) <= hi
    ensures lo <= Mean(Sum(mine, PostEngagementRate), |mine|) <= hi
  {
    var s := Sum(mine, PostEngagementRate);
    var n := |mine| as real;
    var m := Mean(s, |mine|);
    assert m * n == s;
    SumBounds(mine, PostEngagementRate, lo, hi);
    assert n * lo <= s <= n * hi;
    MeanBetween(m, n, s, lo, hi);
  }

  lemma MeanBetween(e: real, n: real, s: real, lo: real, hi: real)
    requires n > 0.0 && e * n == s && n * lo <= s <= n * hi
    ensures lo <= e <= hi
  {
  }

  function StatsOf(posts: seq<SocialPost>, data: seq<RevenueRecord>): SocialAccount -> PlatformStats
  {
    a => AccountStats(a, posts, data)
  }

  /**
   * The `platforms` record of the overview, as the `forEach` over the accounts
   * leaves it: each account writes the entry of its platform in turn.
   */
  function PlatformEntries(accounts: seq<SocialAccount>, posts: seq<SocialPost>, data: seq<RevenueRecord>)
    : map<Platform, PlatformStats>
  {
    KeyedBy(accounts, AccountPlatform, StatsOf(posts, data))
  }

  /** The `forEach` loop that fills `platforms`. */
  method PlatformBreakdown(accounts: seq<SocialAccount>, posts: seq<SocialPost>, data: seq<RevenueRecord>)
    returns (platforms: map<Platform, PlatformStats>)
    ensures platforms == PlatformEntries(accounts, posts, data)
  {
    platforms := map[];
    var i := 0;
    while i < |accounts|
      invariant 0 <= i <= |accounts|
      invariant platforms == KeyedBy(accounts[..i], AccountPlatform, StatsOf(posts, data))
    {
      var account := accounts[i];
      platforms := platforms[account.platform := AccountStats(account, posts, data)];
      assert accounts[..i + 1][..i] == accounts[..i];
      i := i + 1;
    }
    assert accounts[..i] == accounts;
  }

  /** The social overview derived from the accounts, posts and revenue records. */
  function SocialOverviewOf(accounts: seq<SocialAccount>, posts: seq<SocialPost>, data: seq<RevenueRecord>)
    : (o: SocialOverview)
    ensures o.totalFollowers == Sum(accounts, AccountFollowers)
    ensures o.totalViews == Sum(posts, PostViews) && o.totalReach == o.totalViews
    ensures o.totalLikes == Sum(posts, PostLikes)
    ensures o.totalComments == Sum(posts, PostComments)
    ensures o.totalShares == Sum(posts, PostShares)
    ensures o.totalEngagement == Sum(posts, PostInteractions)
    ensures o.totalRevenue == TotalRevenue(data)
    ensures o.platforms == PlatformEntries(accounts, posts, data)
    ensures o.platforms.Keys == KeysOf(accounts, AccountPlatform)
    ensures forall p :: p in o.platforms ==>
              o.platforms[p] == AccountStats(accounts[LastIndexOf(accounts, AccountPlatform, p)], posts, data)
  {
    var views := Sum(posts, PostViews);
    var likes, comments, shares := Sum(posts, PostLikes), Sum(posts, PostComments), Sum(posts, PostShares);
    EngagementIsInteractions(posts);
    KeyedByLastWins(accounts, AccountPlatform, StatsOf(posts, data));
    SocialOverview(Sum(accounts, AccountFollowers), views, views, likes + comments + shares,
                   likes, comments, shares, TotalRevenue(data), PlatformEntries(accounts, posts, data))
  }

  /** The likes, comments and shares of one post. */
  function PostInteractions(p: SocialPost): real { p.likes + p.comments + p.shares }

  /** Summing likes, comments and shares separately is summing each post's interactions. */
  lemma EngagementIsInteractions(posts: seq<SocialPost>)
    ensures Sum(posts, PostLikes) + Sum(posts, PostComments) + Sum(posts, PostShares) ==
            Sum(posts, PostInteractions)
  {
    var likesComments := (p: SocialPost) => p.likes + p.comments;
    SumAdd(posts, PostLikes, PostComments, likesComments);
    SumAdd(posts, likesComments, PostShares, PostInteractions);
  }

  /** Every account has its own platform. */
  ghost predicate DistinctPlatforms(accounts: seq<SocialAccount>)
  {
    DistinctKeys(accounts, AccountPlatform)
  }

  function AccountPlatform(a: SocialAccount): Platform { a.platform }

  /** The followers of the overview entry of `p`, or 0 when `p` has none. */
  function EntryFollowers(o: SocialOverview, p: Platform): real
  {
    if p in o.platforms then o.platforms[p].followers else 0.0
  }

  /**
   * When no two accounts share a platform, the total followers equal the sum of
   * the followers of the platform entries: no entry was overwritten.
   */
  lemma OverviewFollowersWhenDistinct(accounts: seq<SocialAccount>, posts: seq<SocialPost>, data: seq<RevenueRecord>)
    requires DistinctPlatforms(accounts)
    ensures var o := SocialOverviewOf(accounts, posts, data);
            o.totalFollowers ==
            EntryFollowers(o, Facebook) + EntryFollowers(o, Instagram) + EntryFollowers(o, TikTok) +
            EntryFollowers(o, YouTube) + EntryFollowers(o, Twitter) + EntryFollowers(o, LinkedIn) +
            EntryFollowers(o, AdSense)
  {
    var o := SocialOverviewOf(accounts, posts, data);
    var stats := StatsOf(posts, data);
    assert forall a :: stats(a).followers == a.followersCount;
    SumByPlatform(accounts, AccountPlatform, AccountFollowers);
    EntryFollowersOf(accounts, stats, Facebook);
    EntryFollowersOf(accounts, stats, Instagram);
    EntryFollowersOf(accounts, stats, TikTok);
    EntryFollowersOf(accounts, stats, YouTube);
    EntryFollowersOf(accounts, stats, Twitter);
    EntryFollowersOf(accounts, stats, LinkedIn);
    EntryFollowersOf(accounts, stats, AdSense);
  }

  lemma EntryFollowersOf(accounts: seq<SocialAccount>, stats: SocialAccount -> PlatformStats, p: Platform)
    requires DistinctPlatforms(accounts)
    requires forall a :: stats(a).followers == a.followersCount
    ensures var m := KeyedBy(accounts, AccountPlatform, stats);
            PlatformSum(accounts, AccountPlatform, AccountFollowers, p) ==
            if p in m then m[p].followers else 0.0
  {
    var m := KeyedBy(accounts, AccountPlatform, stats);
    KeyedByLastWins(accounts, AccountPlatform, stats);
    OnPlatformDistinct(accounts, AccountPlatform, p);
    var k := LastIndexOf(accounts, AccountPlatform, p);
    var mine := OnPlatform(accounts, AccountPlatform, p);
    if k >= 0 {
      var a := accounts[k];
      assert mine == [a];
      assert [a][..0] == [];
      assert Sum(mine, AccountFollowers) == a.followersCount;
      assert p in KeysOf(accounts, AccountPlatform);
      assert m[p] == stats(a);
    } else {
      assert mine == [];
      assert p !in m;
    }
  }
}
