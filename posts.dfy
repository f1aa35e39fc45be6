/**
 * The publications page's filter: a post is listed when it matches the search
 * box (a case-insensitive substring of its content) and the platform selector
 * (the platform of the account it was loaded with).
 */
module Posts {
  import opened Collections
  import opened Text
  import opened Types

  /** The search test: an empty query matches everything; otherwise the content must be present and hold it. */
  predicate MatchesSearch(post: SocialPost, query: string)
  {
    query == "" || (post.content.Some? && Contains(Lower(post.content.value), Lower(query)))
  }

  /** The platform test: an empty selection matches everything; otherwise the post's account must be on it. */
  predicate MatchesPlatform(post: SocialPost, platform: string)
  {
    platform == "" || (post.socialAccount.Some? && PlatformKey(post.socialAccount.value.platform) == platform)
  }

  function Shown(query: string, platform: string): SocialPost -> bool
  {
    post => MatchesSearch(post, query) && MatchesPlatform(post, platform)
  }

  /** `filteredPosts`. */
  function FilteredPosts(posts: seq<SocialPost>, query: string, platform: string): seq<SocialPost>
  {
    Filter(posts, Shown(query, platform))
  }

  /**
   * The list keeps the store's order, and a post is listed, as often as it is
   * stored, exactly when it passes both tests.
   */
  lemma FilteredPostsSpec(posts: seq<SocialPost>, query: string, platform: string)
    ensures Subsequence(FilteredPosts(posts, query, platform), posts)
    ensures forall x :: x in FilteredPosts(posts, query, platform) <==>
              x in posts && MatchesSearch(x, query) && MatchesPlatform(x, platform)
    ensures forall x :: multiset(FilteredPosts(posts, query, platform))[x] ==
              if MatchesSearch(x, query) && MatchesPlatform(x, platform) then multiset(posts)[x] else 0
  {
    var keep := Shown(query, platform);
    FilterIsSubsequence(posts, keep);
    FilterMultiset(posts, keep);
    forall x ensures keep(x) == (MatchesSearch(x, query) && MatchesPlatform(x, platform)) {
    }
  }

  /** With an empty search box and no platform chosen, every post is listed, in order. */
  lemma NoFilterShowsAll(posts: seq<SocialPost>)
    ensures FilteredPosts(posts, "", "") == posts
  {
    FilterAll(posts, Shown("", ""));
  }

  /** A post without content never matches a non-empty query. */
  lemma NoContentNeverFound(post: SocialPost, query: string)
    requires query != "" && post.content.None?
    ensures !MatchesSearch(post, query)
  {
  }

  /** A post loaded without its account never matches a chosen platform. */
  lemma NoAccountNeverOnPlatform(post: SocialPost, platform: string)
    requires platform != "" && post.socialAccount.None?
    ensures !MatchesPlatform(post, platform)
  {
  }

  /**
   * A non-empty query matches exactly when the lower-cased query occurs at
   * some position of the lower-cased content.
   */
  lemma SearchIsSubstring(post: SocialPost, query: string)
    requires query != ""
    ensures MatchesSearch(post, query) <==>
              post.content.Some? && exists i :: OccursAt(Lower(post.content.value), Lower(query), i)
  {
    if post.content.Some? {
      ContainsIff(Lower(post.content.value), Lower(query));
    }
  }

  /** The search ignores the case of the query. */
  lemma SearchIgnoresCase(post: SocialPost, query: string)
    ensures MatchesSearch(post, query) == MatchesSearch(post, Lower(query))
  {
    LowerIdempotent(query);
    if query != [] {
      assert Lower(query)[0] == LowerChar(query[0]);
    }
  }

  /** Accented capitals are folded too: the query "école" finds a post reading "École". */
  lemma AccentedQueryFound(post: SocialPost)
    requires post.content == Some("École")
    ensures MatchesSearch(post, "école")
  {
    assert Lower("École") == "école";
    assert Lower("école") == "école";
    assert Lower("École")[..|"école"|] == "école";
  }

  /** A non-empty query holding a character absent from the lower-cased content does not match it. */
  lemma ForeignCharacterNotFound(post: SocialPost, query: string, c: char)
    requires post.content.Some?
    requires c in Lower(query) && c !in Lower(post.content.value)
    ensures !MatchesSearch(post, query)
  {
    MissingChar(Lower(post.content.value), Lower(query), c);
  }
}
