/**
 * The Blog page's derived values: the search and tag filter over posts, the
 * split into featured and regular posts, the header statistics (total views,
 * number of distinct topics) and the tag badges of a regular post card.
 */
module BlogPage {
  import opened Js
  import opened Seqs

  datatype Post = Post(
    id: int,
    slug: string,
    title: string,
    excerpt: string,
    content: string,
    author: string,
    date: string,
    readTime: string,
    tags: seq<string>,
    category: string,
    featured: bool,
    views: int)

  const AllTags := "all"

  /** Some tag of the post contains the lowered term, ignoring case. */
  predicate SomeTagMatches(tags: seq<string>, searchTerm: string) {
    exists i | 0 <= i < |tags| :: Includes(Lower(tags[i]), Lower(searchTerm))
  }

  predicate MatchesSearch(post: Post, searchTerm: string) {
    Includes(Lower(post.title), Lower(searchTerm))
    || Includes(Lower(post.excerpt), Lower(searchTerm))
    || SomeTagMatches(post.tags, searchTerm)
  }

  predicate Matches(post: Post, searchTerm: string, selectedTag: string) {
    MatchesSearch(post, searchTerm) && (selectedTag == AllTags || selectedTag in post.tags)
  }

  function Matcher(searchTerm: string, selectedTag: string): Post -> bool {
    post => Matches(post, searchTerm, selectedTag)
  }

  /** `filteredPosts`. */
  function FilteredPosts(posts: seq<Post>, searchTerm: string, selectedTag: string): (r: seq<Post>)
    ensures |r| <= |posts|
    ensures forall i :: 0 <= i < |r| ==> Matches(r[i], searchTerm, selectedTag)
  {
    Filter(posts, Matcher(searchTerm, selectedTag))
  }

  predicate IsFeatured(post: Post) {
    post.featured
  }

  predicate IsRegular(post: Post) {
    !post.featured
  }

  /** `featuredPosts`. */
  function FeaturedPosts(filtered: seq<Post>): (r: seq<Post>)
    ensures |r| <= |filtered| && forall i :: 0 <= i < |r| ==> r[i].featured
  {
    Filter(filtered, IsFeatured)
  }

  /** `regularPosts`. */
  function RegularPosts(filtered: seq<Post>): (r: seq<Post>)
    ensures |r| <= |filtered| && forall i :: 0 <= i < |r| ==> !r[i].featured
  {
    Filter(filtered, IsRegular)
  }

  /** A post whose tag contains the term is found even when its title and excerpt do not. */
  lemma TagHitIsSearchHit(post: Post, searchTerm: string, i: int)
    requires 0 <= i < |post.tags| && Includes(Lower(post.tags[i]), Lower(searchTerm))
    ensures MatchesSearch(post, searchTerm)
  {
  }

  /** A post is listed exactly when it passes the search and the tag is 'all' or one of its tags. */
  lemma FilteredMembership(posts: seq<Post>, searchTerm: string, selectedTag: string, post: Post)
    ensures post in FilteredPosts(posts, searchTerm, selectedTag) <==>
      post in posts && MatchesSearch(post, searchTerm) && (selectedTag == AllTags || selectedTag in post.tags)
  {
    FilterMembership(posts, Matcher(searchTerm, selectedTag), post);
  }

  /**
   * Featured and regular posts partition the filtered posts: each keeps the
   * filtered order, each post goes to exactly one side according to its flag,
   * and together they hold every filtered post as often as it occurs.
   */
  lemma FeaturedRegularPartition(filtered: seq<Post>)
    ensures IsSubsequence(FeaturedPosts(filtered), filtered) && IsSubsequence(RegularPosts(filtered), filtered)
    ensures forall p :: p in FeaturedPosts(filtered) <==> p in filtered && p.featured
    ensures forall p :: p in RegularPosts(filtered) <==> p in filtered && !p.featured
    ensures multiset(FeaturedPosts(filtered)) + multiset(RegularPosts(filtered)) == multiset(filtered)
    ensures |FeaturedPosts(filtered)| + |RegularPosts(filtered)| == |filtered|
  {
    FilterIsSubsequence(filtered, IsFeatured);
    FilterIsSubsequence(filtered, IsRegular);
    forall p
      ensures p in FeaturedPosts(filtered) <==> p in filtered && p.featured
      ensures p in RegularPosts(filtered) <==> p in filtered && !p.featured
    {
      FilterMembership(filtered, IsFeatured, p);
      FilterMembership(filtered, IsRegular, p);
    }
    FilterSplit(filtered, IsFeatured, IsRegular);
  }

  /** `posts.reduce((acc, post) => acc + post.views, 0)`. */
  function TotalViews(posts: seq<Post>): (r: int)
    ensures (forall i :: 0 <= i < |posts| ==> posts[i].views >= 0) ==> r >= 0
  {
    if posts == [] then 0 else TotalViews(posts[..|posts| - 1]) + posts[|posts| - 1].views
  }

  lemma {:induction false} TotalViewsCons(post: Post, rest: seq<Post>)
    ensures TotalViews([post] + rest) == post.views + TotalViews(rest)
    decreases |rest|
  {
    if rest != [] {
      var s := [post] + rest;
      assert s[..|s| - 1] == [post] + rest[..|rest| - 1];
      TotalViewsCons(post, rest[..|rest| - 1]);
    }
  }

  /** The views of the featured and the regular posts add up to the views of all of them. */
  lemma {:induction false} ViewsSplit(posts: seq<Post>)
    ensures TotalViews(Filter(posts, IsFeatured)) + TotalViews(Filter(posts, IsRegular)) == TotalViews(posts)
  {
    if posts != [] {
      ViewsSplit(posts[1..]);
      var rf, rr := Filter(posts[1..], IsFeatured), Filter(posts[1..], IsRegular);
      assert posts == [posts[0]] + posts[1..];
      FilterCons(posts[0], posts[1..], IsFeatured);
      FilterCons(posts[0], posts[1..], IsRegular);
      TotalViewsCons(posts[0], posts[1..]);
      if posts[0].featured {
        TotalViewsCons(posts[0], rf);
        assert [] + rr == rr;
      } else {
        TotalViewsCons(posts[0], rr);
        assert [] + rf == rf;
      }
    }
  }

  /** The distinct tags of `posts.flatMap(post => post.tags)`. */
  function TagSet(posts: seq<Post>): (r: set<string>)
    ensures forall t :: t in r <==> exists i | 0 <= i < |posts| :: t in posts[i].tags
  {
    if posts == [] then {}
    else
      var rest := TagSet(posts[1..]);
      assert forall i :: 1 <= i < |posts| ==> posts[i] == posts[1..][i - 1];
      (set t | t in posts[0].tags) + rest
  }

  /** Sum of the number of tags of each post. */
  function TagOccurrences(posts: seq<Post>): nat {
    if posts == [] then 0 else |posts[0].tags| + TagOccurrences(posts[1..])
  }

  /** The 'Topics' statistic, `new Set(posts.flatMap(post => post.tags)).size`. */
  function TopicCount(posts: seq<Post>): (r: nat)
    ensures r <= TagOccurrences(posts)
  {
    TagSetBounded(posts);
    |TagSet(posts)|
  }

  lemma {:induction false} TagSetBounded(posts: seq<Post>)
    ensures |TagSet(posts)| <= TagOccurrences(posts)
  {
    if posts != [] {
      TagSetBounded(posts[1..]);
      SeqSetBounded(posts[0].tags);
      assert TagSet(posts) == (set t | t in posts[0].tags) + TagSet(posts[1..]);
      SetUnionBounded((set t | t in posts[0].tags), TagSet(posts[1..]));
    }
  }

  lemma SetUnionBounded<T>(a: set<T>, b: set<T>)
    ensures |a + b| <= |a| + |b|
  {
    assert |a + b| == |a| + |b| - |a * b|;
  }

  lemma {:induction false} SeqSetBounded<T>(s: seq<T>)
    ensures |set x | x in s| <= |s|
  {
    if s != [] {
      SeqSetBounded(s[1..]);
      assert (set x | x in s) == {s[0]} + (set x | x in s[1..]);
      SetUnionBounded({s[0]}, (set x | x in s[1..]));
    }
  }

  /** What a regular post card shows of its tags: the first three, and a '+n' badge for the rest. */
  datatype TagBadges = TagBadges(shown: seq<string>, more: Option<nat>)

  function CardTagBadges(tags: seq<string>): (r: TagBadges)
    ensures |r.shown| <= 3 && |r.shown| <= |tags| && r.shown == tags[..|r.shown|]
    ensures |r.shown| == |tags| || |r.shown| == 3
    ensures r.more.Some? <==> |tags| > 3
    ensures |r.shown| + (if r.more.Some? then r.more.value else 0) == |tags|
  {
    var n := if |tags| < 3 then |tags| else 3;
    TagBadges(tags[..n], if |tags| > 3 then Some(|tags| - 3) else None)
  }

  /** The 'All Articles' heading is rendered when there are featured posts to set apart. */
  predicate ShowsAllArticlesHeading(filtered: seq<Post>) {
    |FeaturedPosts(filtered)| > 0
  }

  /** The empty-state message is rendered when no post passes the filter. */
  predicate ShowsNoArticles(filtered: seq<Post>) {
    |filtered| == 0
  }

  /** The heading appears exactly when some filtered post is featured; with nothing filtered, no card section has posts. */
  lemma HeadingAndEmptyState(filtered: seq<Post>)
    ensures ShowsAllArticlesHeading(filtered) <==> exists i | 0 <= i < |filtered| :: filtered[i].featured
    ensures ShowsNoArticles(filtered) <==> FeaturedPosts(filtered) == [] && RegularPosts(filtered) == []
  {
    FilterEmptyIff(filtered, IsFeatured);
    FilterSplit(filtered, IsFeatured, IsRegular);
  }
}
