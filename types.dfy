/**
 * The shared front-end records: platforms, revenue records, import batches,
 * social accounts and posts, and the social overview.
 *
 * JavaScript numbers are modelled as `real` (exact, without double rounding);
 * identifiers are `int`. An optional numeric field of a revenue record can hold
 * NaN (the result of `parseInt`/`parseFloat` on a cell that is not a number), so
 * it is an `Option<Number>`.
 */
module Types {
  import opened Collections

  datatype Option<+T> = None | Some(value: T)

  /** A JavaScript number as far as the model needs it: finite, or NaN. */
  datatype Number = Finite(value: real) | NaN

  /** `x || 0` on an optional number: undefined, NaN and 0 all give 0. */
  function OrZero(n: Option<Number>): real
  {
    match n
    case Some(Finite(v)) => v
    case _ => 0.0
  }

  /** The seven platforms of the `Platform` union type. */
  datatype Platform = Facebook | Instagram | TikTok | YouTube | Twitter | LinkedIn | AdSense

  /** Every platform, in the order of the union type. */
  const AllPlatforms: seq<Platform> := [Facebook, Instagram, TikTok, YouTube, Twitter, LinkedIn, AdSense]

  lemma AllPlatformsComplete(p: Platform)
    ensures p in AllPlatforms
  {
  }

  /** The elements of `s` whose platform is `p`, in order. */
  function OnPlatform<T(!new)>(s: seq<T>, key: T -> Platform, p: Platform): (r: seq<T>)
    ensures forall x :: x in r <==> x in s && key(x) == p
  {
    Filter(s, KeyIs(key, p))
  }

  lemma OnPlatformConcat<T(!new)>(a: seq<T>, b: seq<T>, key: T -> Platform, p: Platform)
    ensures OnPlatform(a + b, key, p) == OnPlatform(a, key, p) + OnPlatform(b, key, p)
  {
    FilterConcat(a, b, KeyIs(key, p));
  }

  lemma OnPlatformSingle<T(!new)>(x: T, key: T -> Platform, p: Platform)
    ensures OnPlatform([x], key, p) == if key(x) == p then [x] else []
  {
    assert [x][1..] == [];
  }

  /** No two elements have the same platform. */
  ghost predicate DistinctKeys<T>(s: seq<T>, key: T -> Platform)
  {
    forall i, j :: 0 <= i < j < |s| ==> key(s[i]) != key(s[j])
  }

  /** With distinct platforms, the elements of one platform are none, or exactly the last one on it. */
  lemma {:induction false} OnPlatformDistinct<T(!new)>(s: seq<T>, key: T -> Platform, p: Platform)
    requires DistinctKeys(s, key)
    ensures OnPlatform(s, key, p) ==
            if LastIndexOf(s, key, p) < 0 then [] else [s[LastIndexOf(s, key, p)]]
  {
    if s != [] {
      var init, last := s[..|s| - 1], s[|s| - 1];
      assert s == init + [last];
      OnPlatformConcat(init, [last], key, p);
      OnPlatformSingle(last, key, p);
      assert DistinctKeys(init, key) by {
        forall i, j | 0 <= i < j < |init| ensures key(init[i]) != key(init[j]) {
          assert init[i] == s[i] && init[j] == s[j];
        }
      }
      OnPlatformDistinct(init, key, p);
      if key(last) == p {
        assert LastIndexOf(init, key, p) == -1 by {
          forall j | 0 <= j < |init| ensures key(init[j]) != p {
            assert init[j] == s[j];
          }
        }
        assert OnPlatform(s, key, p) == [] + [last];
      } else {
        var k := LastIndexOf(init, key, p);
        assert LastIndexOf(s, key, p) == k;
        assert OnPlatform(s, key, p) == OnPlatform(init, key, p) + [];
        assert k >= 0 ==> s[k] == init[k];
      }
    }
  }

  /** The sum of `f` over the elements of `s` whose platform is `p`. */
  function PlatformSum<T(!new)>(s: seq<T>, key: T -> Platform, f: T -> real, p: Platform): real
  {
    KeySum(s, key, f, p)
  }

  /** Appending one element adds its value to its own platform's sum only. */
  lemma PlatformSumSnoc<T(!new)>(s: seq<T>, last: T, key: T -> Platform, f: T -> real, p: Platform)
    ensures PlatformSum(s + [last], key, f, p) ==
            PlatformSum(s, key, f, p) + (if key(last) == p then f(last) else 0.0)
  {
    KeySumSnoc(s, last, key, f, p);
  }

  /**
   * Grouping by platform loses nothing: the sum over a sequence is the sum of
   * the seven per-platform sums.
   */
  lemma {:induction false} SumByPlatform<T(!new)>(s: seq<T>, key: T -> Platform, f: T -> real)
    ensures Sum(s, f) ==
            PlatformSum(s, key, f, Facebook) + PlatformSum(s, key, f, Instagram) +
            PlatformSum(s, key, f, TikTok) + PlatformSum(s, key, f, YouTube) +
            PlatformSum(s, key, f, Twitter) + PlatformSum(s, key, f, LinkedIn) +
            PlatformSum(s, key, f, AdSense)
  {
    if s != [] {
      var init, last := s[..|s| - 1], s[|s| - 1];
      assert s == init + [last];
      SumByPlatform(init, key, f);
      PlatformSumSnoc(init, last, key, f, Facebook);
      PlatformSumSnoc(init, last, key, f, Instagram);
      PlatformSumSnoc(init, last, key, f, TikTok);
      PlatformSumSnoc(init, last, key, f, YouTube);
      PlatformSumSnoc(init, last, key, f, Twitter);
      PlatformSumSnoc(init, last, key, f, LinkedIn);
      PlatformSumSnoc(init, last, key, f, AdSense);
    }
  }

  /** The string a platform has in the union type and in stored records. */
  function PlatformKey(p: Platform): string
  {
    match p
    case Facebook => "facebook"
    case Instagram => "instagram"
    case TikTok => "tiktok"
    case YouTube => "youtube"
    case Twitter => "twitter"
    case LinkedIn => "linkedin"
    case AdSense => "adsense"
  }

  /** Reads a platform string; exactly the seven keys are accepted. */
  function ParsePlatform(s: string): (r: Option<Platform>)
    ensures r.Some? ==> PlatformKey(r.value) == s
    ensures forall p :: PlatformKey(p) == s ==> r == Some(p)
  {
    if s == "facebook" then Some(Facebook)
    else if s == "instagram" then Some(Instagram)
    else if s == "tiktok" then Some(TikTok)
    else if s == "youtube" then Some(YouTube)
    else if s == "twitter" then Some(Twitter)
    else if s == "linkedin" then Some(LinkedIn)
    else if s == "adsense" then Some(AdSense)
    else None
  }

  /** Where a revenue record came from. */
  datatype Source = Api | Csv | Manual

  /** `RevenueData`: one revenue amount of one platform on one ISO date. */
  datatype RevenueRecord = RevenueRecord(
    id: int,
    platform: Platform,
    date: string,
    revenue: real,
    currency: string,
    impressions: Option<Number>,
    clicks: Option<Number>,
    ctr: Option<Number>,
    cpm: Option<Number>,
    estimatedEarnings: Option<Number>,
    source: Source)

  datatype ImportStatus = Pending | Processing | Completed | Error

  datatype FileType = CsvFile | ExcelFile

  /** The audit record of one spreadsheet import. */
  datatype ImportBatch = ImportBatch(
    id: string,
    platform: Platform,
    fileName: string,
    fileType: FileType,
    rowCount: nat,
    importedCount: nat,
    status: ImportStatus,
    createdAt: string,
    completedAt: Option<string>,
    errors: Option<seq<string>>)

  datatype SocialAccount = SocialAccount(
    id: int,
    platform: Platform,
    accountId: string,
    accountName: string,
    accountUsername: Option<string>,
    profilePicture: Option<string>,
    followersCount: real,
    isActive: bool)

  datatype PostType = Image | Video | Carousel | Story | Reel | Short | TextPost | Link

  datatype SocialPost = SocialPost(
    id: int,
    socialAccountId: int,
    postId: string,
    content: Option<string>,
    mediaUrl: Option<string>,
    postType: PostType,
    publishedAt: string,
    likes: real,
    comments: real,
    shares: real,
    views: real,
    reach: real,
    engagementRate: real,
    revenue: Option<real>,
    socialAccount: Option<SocialAccount>)

  /** Field readers, passed where a sum or a filter takes a function. */
  function RecordPlatform(r: RevenueRecord): Platform { r.platform }
  function RecordRevenue(r: RevenueRecord): real { r.revenue }
  function AccountFollowers(a: SocialAccount): real { a.followersCount }
  function PostViews(p: SocialPost): real { p.views }
  function PostLikes(p: SocialPost): real { p.likes }
  function PostComments(p: SocialPost): real { p.comments }
  function PostShares(p: SocialPost): real { p.shares }
  function PostEngagementRate(p: SocialPost): real { p.engagementRate }

  /** An inclusive window of ISO dates. */
  datatype DateRange = DateRange(startDate: string, endDate: string)

  datatype PlatformStats = PlatformStats(
    followers: real,
    views: real,
    reach: real,
    engagementRate: real,
    revenue: real)

  /** `platforms` is keyed by platform, so it holds at most one entry per platform. */
  datatype SocialOverview = SocialOverview(
    totalFollowers: real,
    totalViews: real,
    totalReach: real,
    totalEngagement: real,
    totalLikes: real,
    totalComments: real,
    totalShares: real,
    totalRevenue: real,
    platforms: map<Platform, PlatformStats>)
}
