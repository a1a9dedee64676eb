/** The blog store (src/stores/blog.ts): the list of posts, seeded once and persisted
    under the `choukette_blog_posts` key, its date-sorted, featured and per-category views,
    lookup by id and the view counter. */
module Blog {
  import opened Wrappers
  import opened Seqs
  import opened Text
  import opened Entities
  import opened Storage

  // ---------------------------------------------------------------------------
  // Pictures

  /** `getBakeryImage`: the picture at `index` modulo the number of pictures, falling back to
      the first picture when that entry is the empty string; nothing when there are none. */
  function GetBakeryImage(paths: seq<string>, index: nat): (r: Option<string>)
    ensures r.Some? <==> |paths| > 0
    ensures r.Some? ==> r.value in paths
    ensures r.Some? && paths[index % |paths|] != "" ==> r.value == paths[index % |paths|]
  {
    if |paths| == 0 then None
    else if paths[index % |paths|] != "" then Some(paths[index % |paths|])
    else Some(paths[0])
  }

  // ---------------------------------------------------------------------------
  // Seed data

  /** Post `k` (0-based) of the seed: id `k + 1` and the `k`-th bakery picture. */
  function Article(k: nat, paths: seq<string>, publishedAt: int, category: BlogCategory, readTime: int,
                   views: Option<int>, featured: bool): (p: BlogPost)
    ensures p.id == NatToString(k + 1) && p.imageUrl == GetBakeryImage(paths, k)
  {
    BlogPost(NatToString(k + 1), publishedAt, category, GetBakeryImage(paths, k), readTime, views, featured)
  }

  /** Post `k` (0-based) of the list `generateMockPosts` builds; publication instants are
      written `YYYYMMDDhhmm` (UTC). Title, excerpt, body, author and tags are not kept. */
  function SeedPost(k: nat, paths: seq<string>): (p: BlogPost)
    requires k < 20
    ensures p.id == NatToString(k + 1) && p.imageUrl == GetBakeryImage(paths, k)
  {
    match k
    case 0 => Article(k, paths, 202401151000, Technique, 8, Some(1245), true)
    case 1 => Article(k, paths, 202401121430, Business, 6, Some(892), false)
    case 2 => Article(k, paths, 202401100915, Recettes, 12, Some(2156), true)
    case 3 => Article(k, paths, 202401081645, Tendances, 5, Some(678), false)
    case 4 => Article(k, paths, 202401051120, Conseils, 7, Some(1432), false)
    case 5 => Article(k, paths, 202401030800, Actualites, 4, Some(567), false)
    case 6 => Article(k, paths, 202312281030, Technique, 6, Some(934), false)
    case 7 => Article(k, paths, 202312251400, Business, 5, Some(721), false)
    case 8 => Article(k, paths, 202312220900, Recettes, 15, Some(1890), false)
    case 9 => Article(k, paths, 202312201315, Tendances, 6, Some(456), false)
    case 10 => Article(k, paths, 202312181045, Conseils, 5, Some(1123), false)
    case 11 => Article(k, paths, 202312150800, Actualites, 3, Some(2341), true)
    case 12 => Article(k, paths, 202312121130, Technique, 7, Some(678), false)
    case 13 => Article(k, paths, 202312101520, Business, 6, Some(445), false)
    case 14 => Article(k, paths, 202312080930, Recettes, 10, Some(1678), false)
    case 15 => Article(k, paths, 202312051400, Tendances, 5, Some(789), false)
    case 16 => Article(k, paths, 202312031015, Conseils, 5, Some(623), false)
    case 17 => Article(k, paths, 202312010800, Actualites, 2, Some(3124), true)
    case 18 => Article(k, paths, 202311281100, Technique, 8, Some(1456), false)
    case _ => Article(k, paths, 202311251330, Business, 5, Some(567), false)
  }

  /** The 20 seed posts, given the bakery pictures found at build time. */
  function SeedPosts(paths: seq<string>): (r: seq<BlogPost>)
    ensures |r| == 20
  {
    seq(20, k requires 0 <= k < 20 => SeedPost(k, paths))
  }

  /** Seed post ids are "1" to "20", hence distinct. */
  lemma SeedPostIdsDistinct(paths: seq<string>)
    ensures forall i, j :: 0 <= i < j < 20 ==> SeedPosts(paths)[i].id != SeedPosts(paths)[j].id
  {
    forall i, j | 0 <= i < j < 20
      ensures SeedPosts(paths)[i].id != SeedPosts(paths)[j].id
    {
      if SeedPosts(paths)[i].id == SeedPosts(paths)[j].id {
        NatToStringInjective(i + 1, j + 1);
      }
    }
  }

  /** Each seed post is strictly newer than the next one. */
  lemma SeedPostsNewestFirst(paths: seq<string>)
    ensures forall k :: 0 <= k < 19 ==> SeedPost(k, paths).publishedAt > SeedPost(k + 1, paths).publishedAt
  {
    forall k | 0 <= k < 19 ensures SeedPost(k, paths).publishedAt > SeedPost(k + 1, paths).publishedAt {
      if k < 10 {
        SeedNewerEarly(paths, k);
      } else {
        SeedNewerLate(paths, k);
      }
    }
  }

  lemma SeedNewerEarly(paths: seq<string>, k: nat)
    requires k < 10
    ensures SeedPost(k, paths).publishedAt > SeedPost(k + 1, paths).publishedAt
  {
  }

  lemma SeedNewerLate(paths: seq<string>, k: nat)
    requires 10 <= k < 19
    ensures SeedPost(k, paths).publishedAt > SeedPost(k + 1, paths).publishedAt
  {
  }

  // ---------------------------------------------------------------------------
  // Sorting by date

  /** Newest first: no post is older than a post after it. */
  predicate Descending(s: seq<BlogPost>) {
    forall i, j :: 0 <= i < j < |s| ==> s[i].publishedAt >= s[j].publishedAt
  }

  /** Place `x` after every post at least as recent, before the first older one. */
  function Insert(x: BlogPost, sorted: seq<BlogPost>): (r: seq<BlogPost>)
    ensures multiset(r) == multiset(sorted) + multiset{x}
    decreases |sorted|
  {
    if sorted == [] then [x]
    else if sorted[0].publishedAt < x.publishedAt then [x] + sorted
    else
      assert sorted == [sorted[0]] + sorted[1..];
      [sorted[0]] + Insert(x, sorted[1..])
  }

  lemma {:induction false} InsertDescending(x: BlogPost, sorted: seq<BlogPost>)
    requires Descending(sorted)
    ensures Descending(Insert(x, sorted))
    decreases |sorted|
  {
    if sorted != [] && sorted[0].publishedAt >= x.publishedAt {
      var rest := Insert(x, sorted[1..]);
      assert Descending(sorted[1..]) by { DescendingTail(sorted); }
      InsertDescending(x, sorted[1..]);
      forall y | y in rest ensures sorted[0].publishedAt >= y.publishedAt {
        assert y in multiset(rest);
        if y != x {
          assert y in multiset(sorted[1..]);
          var j :| 0 <= j < |sorted[1..]| && sorted[1..][j] == y;
          assert sorted[j + 1] == y;
        }
      }
      DescendingCons(sorted[0], rest);
    }
  }

  lemma DescendingTail(s: seq<BlogPost>)
    requires Descending(s) && s != []
    ensures Descending(s[1..])
  {
    forall i, j | 0 <= i < j < |s[1..]| ensures s[1..][i].publishedAt >= s[1..][j].publishedAt {
      assert s[1..][i] == s[i + 1] && s[1..][j] == s[j + 1];
    }
  }

  /** A post at least as recent as every post of a newest-first list can go in front of it. */
  lemma DescendingCons(x: BlogPost, s: seq<BlogPost>)
    requires Descending(s) && forall y :: y in s ==> x.publishedAt >= y.publishedAt
    ensures Descending([x] + s)
  {
    var r := [x] + s;
    forall i, j | 0 <= i < j < |r| ensures r[i].publishedAt >= r[j].publishedAt {
      assert r[j] == s[j - 1];
      if i > 0 {
        assert r[i] == s[i - 1];
      }
    }
  }

  /** A post no newer than the last of a sorted list goes to the end. */
  lemma {:induction false} InsertOldest(x: BlogPost, sorted: seq<BlogPost>)
    requires forall i :: 0 <= i < |sorted| ==> sorted[i].publishedAt >= x.publishedAt
    ensures Insert(x, sorted) == sorted + [x]
    decreases |sorted|
  {
    if sorted != [] {
      InsertOldest(x, sorted[1..]);
    }
  }

  /** `sortedPosts`: a copy of the posts ordered newest first; posts with the same instant keep
      their relative order, as in the stable `Array.prototype.sort`. */
  function SortedPosts(posts: seq<BlogPost>): seq<BlogPost>
    decreases |posts|
  {
    if posts == [] then [] else Insert(posts[|posts| - 1], SortedPosts(posts[..|posts| - 1]))
  }

  /** The sorted view holds exactly the posts, each as many times as it occurs, newest first. */
  lemma {:induction false} SortedPostsSpec(posts: seq<BlogPost>)
    ensures multiset(SortedPosts(posts)) == multiset(posts)
    ensures |SortedPosts(posts)| == |posts|
    ensures Descending(SortedPosts(posts))
    decreases |posts|
  {
    if posts != [] {
      var init := posts[..|posts| - 1];
      SortedPostsSpec(init);
      InsertDescending(posts[|posts| - 1], SortedPosts(init));
      assert posts == init + [posts[|posts| - 1]];
      assert multiset(posts) == multiset(init) + multiset{posts[|posts| - 1]};
    }
    assert |SortedPosts(posts)| == |multiset(SortedPosts(posts))|;
  }

  /** Posts already newest first are left as they are; in particular sorting twice is sorting once. */
  lemma {:induction false} SortedWhenDescending(posts: seq<BlogPost>)
    requires Descending(posts)
    ensures SortedPosts(posts) == posts
    decreases |posts|
  {
    if posts != [] {
      var init, last := posts[..|posts| - 1], posts[|posts| - 1];
      assert Descending(init) by {
        forall i, j | 0 <= i < j < |init| ensures init[i].publishedAt >= init[j].publishedAt {
          assert init[i] == posts[i] && init[j] == posts[j];
        }
      }
      SortedWhenDescending(init);
      forall i | 0 <= i < |init| ensures init[i].publishedAt >= last.publishedAt {
        assert init[i] == posts[i];
      }
      InsertOldest(last, init);
      assert init + [last] == posts;
    }
  }

  lemma SortTwice(posts: seq<BlogPost>)
    ensures SortedPosts(SortedPosts(posts)) == SortedPosts(posts)
  {
    SortedPostsSpec(posts);
    SortedWhenDescending(SortedPosts(posts));
  }

  /** A selection from a newest-first list is newest first. */
  lemma {:induction false} FilterDescending(s: seq<BlogPost>, p: BlogPost -> bool)
    requires Descending(s)
    ensures Descending(Filter(s, p))
    decreases |s|
  {
    if s != [] {
      DescendingTail(s);
      FilterDescending(s[1..], p);
      if p(s[0]) {
        var rest := Filter(s[1..], p);
        forall y | y in rest ensures s[0].publishedAt >= y.publishedAt {
          var k :| 0 <= k < |s[1..]| && s[1..][k] == y;
          assert s[k + 1] == y;
        }
        DescendingCons(s[0], rest);
      }
    }
  }

  /** A list in which each post is at least as recent as the next is newest first. */
  lemma {:induction false} AdjacentDescending(s: seq<BlogPost>)
    requires forall k :: 0 <= k < |s| - 1 ==> s[k].publishedAt >= s[k + 1].publishedAt
    ensures Descending(s)
    decreases |s|
  {
    if s != [] {
      var tail := s[1..];
      forall k | 0 <= k < |tail| - 1 ensures tail[k].publishedAt >= tail[k + 1].publishedAt {
        assert tail[k] == s[k + 1] && tail[k + 1] == s[k + 2];
      }
      AdjacentDescending(tail);
      forall y | y in tail ensures s[0].publishedAt >= y.publishedAt {
        var k :| 0 <= k < |tail| && tail[k] == y;
        assert Descending(tail);
        if k > 0 {
          assert tail[0].publishedAt >= tail[k].publishedAt;
        }
      }
      DescendingCons(s[0], tail);
      assert [s[0]] + tail == s;
    }
  }

  /** The seed is already newest first, so sorting leaves it as it is and its latest post is
      post "1". */
  lemma SeedPostsSorted(paths: seq<string>)
    ensures Descending(SeedPosts(paths))
    ensures SortedPosts(SeedPosts(paths)) == SeedPosts(paths)
    ensures LatestPost(SeedPosts(paths)) == Some(SeedPosts(paths)[0]) && SeedPosts(paths)[0].id == "1"
  {
    var s := SeedPosts(paths);
    SeedPostsNewestFirst(paths);
    assert forall k :: 0 <= k < 19 ==> s[k].publishedAt >= s[k + 1].publishedAt;
    AdjacentDescending(s);
    SortedWhenDescending(s);
  }

  // ---------------------------------------------------------------------------
  // Views of the sorted list

  predicate IsFeatured(p: BlogPost) {
    p.featured
  }

  /** `featuredPosts`: the featured posts, newest first. */
  function FeaturedPosts(posts: seq<BlogPost>): seq<BlogPost> {
    Filter(SortedPosts(posts), IsFeatured)
  }

  /** A post is listed as featured exactly when it is one of the posts and is featured; the
      list is newest first. */
  lemma FeaturedPostsSpec(posts: seq<BlogPost>)
    ensures forall p :: p in FeaturedPosts(posts) <==> p in posts && p.featured
    ensures Descending(FeaturedPosts(posts))
  {
    var sorted := SortedPosts(posts);
    SortedPostsSpec(posts);
    FilterDescending(sorted, IsFeatured);
    forall p ensures p in FeaturedPosts(posts) <==> p in posts && p.featured {
      assert p in sorted <==> p in multiset(sorted);
      assert p in posts <==> p in multiset(posts);
      if p in FeaturedPosts(posts) {
        var i :| 0 <= i < |FeaturedPosts(posts)| && FeaturedPosts(posts)[i] == p;
      }
      if p in sorted && p.featured {
        var i :| 0 <= i < |sorted| && sorted[i] == p;
      }
    }
  }

  function InCategory(category: string): BlogPost -> bool {
    (p: BlogPost) => CategoryName(p.category) == category
  }

  /** `postsByCategory(category)`: the posts whose category is exactly that string, newest first. */
  function PostsByCategory(posts: seq<BlogPost>, category: string): seq<BlogPost> {
    Filter(SortedPosts(posts), InCategory(category))
  }

  /** A post is listed under a category exactly when it is one of the posts and its category
      has that name; the list is newest first, and a string naming no category lists nothing. */
  lemma PostsByCategorySpec(posts: seq<BlogPost>, category: string)
    ensures forall p :: p in PostsByCategory(posts, category) <==> p in posts && CategoryName(p.category) == category
    ensures Descending(PostsByCategory(posts, category))
    ensures (forall c :: CategoryName(c) != category) ==> PostsByCategory(posts, category) == []
  {
    var sorted := SortedPosts(posts);
    var r := PostsByCategory(posts, category);
    SortedPostsSpec(posts);
    FilterDescending(sorted, InCategory(category));
    forall p ensures p in r <==> p in posts && CategoryName(p.category) == category {
      assert p in sorted <==> p in multiset(sorted);
      assert p in posts <==> p in multiset(posts);
      if p in r {
        var i :| 0 <= i < |r| && r[i] == p;
      }
      if p in sorted && CategoryName(p.category) == category {
        var i :| 0 <= i < |sorted| && sorted[i] == p;
      }
    }
    if forall c :: CategoryName(c) != category {
      FilterNone(sorted, InCategory(category));
    }
  }

  /** `latestPost`: the first sorted post, or nothing when there are no posts. */
  function LatestPost(posts: seq<BlogPost>): Option<BlogPost> {
    var sorted := SortedPosts(posts);
    if |sorted| == 0 then None else Some(sorted[0])
  }

  /** There is a latest post exactly when there are posts; it is one of them and no post is
      newer. */
  lemma LatestPostSpec(posts: seq<BlogPost>)
    ensures LatestPost(posts).None? <==> posts == []
    ensures LatestPost(posts).Some? ==>
      LatestPost(posts).value in posts &&
      forall p :: p in posts ==> p.publishedAt <= LatestPost(posts).value.publishedAt
  {
    var sorted := SortedPosts(posts);
    SortedPostsSpec(posts);
    if sorted != [] {
      assert sorted[0] in multiset(posts);
      forall p | p in posts ensures p.publishedAt <= sorted[0].publishedAt {
        assert p in multiset(sorted);
        var i :| 0 <= i < |sorted| && sorted[i] == p;
      }
    }
  }

  // ---------------------------------------------------------------------------
  // Lookup and view counter

  function PostIdIs(id: string): BlogPost -> bool {
    (p: BlogPost) => p.id == id
  }

  /** `getPostById`: the first post with that id, if any. */
  function GetPostById(posts: seq<BlogPost>, id: string): (r: Option<BlogPost>)
    ensures r.Some? <==> exists i :: 0 <= i < |posts| && posts[i].id == id
    ensures r.Some? ==> exists i :: 0 <= i < |posts| && posts[i] == r.value && r.value.id == id &&
                                    forall j :: 0 <= j < i ==> posts[j].id != id
  {
    var r := Find(posts, PostIdIs(id));
    assert r.Some? ==> exists i :: 0 <= i < |posts| && posts[i] == r.value && PostIdIs(id)(posts[i]) &&
                                   forall j :: 0 <= j < i ==> !PostIdIs(id)(posts[j]);
    r
  }

  /** `post.views || 0`. */
  function ViewCount(p: BlogPost): int {
    if p.views.Some? then p.views.value else 0
  }

  /** The list after `incrementViews(id)`: the first post with that id counts one more view. */
  function BumpViews(posts: seq<BlogPost>, id: string): seq<BlogPost> {
    match FindIndex(posts, PostIdIs(id))
    case None => posts
    case Some(k) => posts[k := posts[k].(views := Some(ViewCount(posts[k]) + 1))]
  }

  /** The first post with the id (at `k`) has one more view than before (counting a missing
      count as 0); every other field of it and every other post stays as it was. */
  lemma BumpViewsSpec(posts: seq<BlogPost>, id: string, k: nat)
    requires k < |posts| && posts[k].id == id && forall j :: 0 <= j < k ==> posts[j].id != id
    ensures |BumpViews(posts, id)| == |posts|
    ensures BumpViews(posts, id)[k] == posts[k].(views := Some(ViewCount(posts[k]) + 1))
    ensures forall i :: 0 <= i < |posts| && i != k ==> BumpViews(posts, id)[i] == posts[i]
  {
    assert PostIdIs(id)(posts[k]);
  }

  /** With an id that no post has, the list is left as it is. */
  lemma BumpViewsUnknown(posts: seq<BlogPost>, id: string)
    requires forall i :: 0 <= i < |posts| ==> posts[i].id != id
    ensures BumpViews(posts, id) == posts
  {
  }

  /** Two increments of a post that had no views leave it at two views. */
  lemma TwoIncrements(posts: seq<BlogPost>, id: string, k: nat)
    requires k < |posts| && posts[k].id == id && forall j :: 0 <= j < k ==> posts[j].id != id
    requires ViewCount(posts[k]) == 0
    ensures BumpViews(BumpViews(posts, id), id)[k].views == Some(2)
  {
    BumpViewsSpec(posts, id, k);
    var once := BumpViews(posts, id);
    BumpViewsSpec(once, id, k);
  }

  // ---------------------------------------------------------------------------
  // Persistence

  /** Reading `choukette_blog_posts`: nothing usable there (absent or empty), text that does
      not parse into a list of posts, or the list. */
  function StoredPosts(entries: map<string, Raw>): (r: Parsed<seq<BlogPost>>)
    ensures r.NotFound? <==> Lookup(entries, BLOG_POSTS_KEY).None?
  {
    match Lookup(entries, BLOG_POSTS_KEY)
    case None => NotFound
    case Some(Encoded(PostsJson(posts))) => Value(posts)
    case Some(_) => Corrupt
  }

  /** Whatever list is written is what the next read returns. */
  lemma StoredPostsRoundTrip(entries: map<string, Raw>, posts: seq<BlogPost>)
    ensures StoredPosts(entries[BLOG_POSTS_KEY := Encoded(PostsJson(posts))]) == Value(posts)
  {
  }

  // ---------------------------------------------------------------------------
  // The store

  class BlogStore {
    var posts: seq<BlogPost>
    const storage: LocalStorage

    /** Store creation: `generateMockPosts`. A stored value that does not parse makes the
        source throw; the model then leaves the list empty. */
    constructor (storage: LocalStorage, paths: seq<string>)
      modifies storage
      ensures this.storage == storage
      ensures StoredPosts(old(storage.entries)).NotFound? ==>
        posts == SeedPosts(paths) && storage.entries == old(storage.entries)[BLOG_POSTS_KEY := Encoded(PostsJson(posts))]
      ensures StoredPosts(old(storage.entries)).Value? ==>
        posts == StoredPosts(old(storage.entries)).value && storage.entries == old(storage.entries)
      ensures StoredPosts(old(storage.entries)).Corrupt? ==> posts == [] && storage.entries == old(storage.entries)
    {
      posts := [];
      this.storage := storage;
      new;
      var _ := GenerateMockPosts(paths);
    }

    /** `generateMockPosts`: without a stored list, install the seed and store it; with one,
        adopt it and write nothing. `parsed` is false when the stored text does not parse. */
    method GenerateMockPosts(paths: seq<string>) returns (parsed: bool)
      modifies this, storage
      ensures parsed <==> !StoredPosts(old(storage.entries)).Corrupt?
      ensures StoredPosts(old(storage.entries)).NotFound? ==>
        posts == SeedPosts(paths) && storage.entries == old(storage.entries)[BLOG_POSTS_KEY := Encoded(PostsJson(posts))]
      ensures StoredPosts(old(storage.entries)).Value? ==>
        posts == StoredPosts(old(storage.entries)).value && storage.entries == old(storage.entries)
      ensures StoredPosts(old(storage.entries)).Corrupt? ==> posts == old(posts) && storage.entries == old(storage.entries)
    {
      var mockPosts := SeedPosts(paths);
      var stored := storage.GetItem(BLOG_POSTS_KEY);
      if stored.None? || !Truthy(stored.value) {
        posts := mockPosts;
        storage.SetItem(BLOG_POSTS_KEY, Encoded(PostsJson(mockPosts)));
        return true;
      }
      match stored.value
      case Encoded(PostsJson(list)) =>
        posts := list;
        return true;
      case _ =>
        return false;
    }

    /** `incrementViews`: count one more view of the first post with that id and store the whole
        list; with an unknown id nothing changes and nothing is written. */
    method IncrementViews(postId: string)
      modifies this, storage
      ensures posts == BumpViews(old(posts), postId)
      ensures (exists i :: 0 <= i < |old(posts)| && old(posts)[i].id == postId) ==>
        storage.entries == old(storage.entries)[BLOG_POSTS_KEY := Encoded(PostsJson(posts))]
      ensures (forall i :: 0 <= i < |old(posts)| ==> old(posts)[i].id != postId) ==>
        storage.entries == old(storage.entries)
    {
      var found := FindIndex(posts, PostIdIs(postId));
      if found.Some? {
        var k := found.value;
        posts := posts[k := posts[k].(views := Some(ViewCount(posts[k]) + 1))];
        storage.SetItem(BLOG_POSTS_KEY, Encoded(PostsJson(posts)));
      }
    }
  }
}
