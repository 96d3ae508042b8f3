/** The blog catalogue: a constant list of posts in two categories and the
    three lookups the pages use, a filter by category, a find by slug and a
    leading slice. */
module BlogData {
  import opened Util

  /** The two category keys a post may carry. */
  datatype Category = ProjectManagement | Trading

  /** A post's metadata; the excerpt, the optional body text and the
      optional image are display data and are not modelled. */
  datatype BlogPost = BlogPost(slug: string, title: string, category: Category, date: string, readTime: string)

  /** The key under which a category is named in URLs and in
      `blogCategories`. */
  function CategoryKey(c: Category): (k: string)
    ensures k == "project-management" || k == "trading"
  {
    match c
    case ProjectManagement => "project-management"
    case Trading => "trading"
  }

  /** The keys name the categories one to one, so every post's category has
      an entry in `blogCategories`. */
  lemma CategoryKeyInjective(a: Category, b: Category)
    ensures CategoryKey(a) == CategoryKey(b) <==> a == b
  {
  }

  /** The posts, newest project-management post first, as listed. */
  const BlogPosts: seq<BlogPost> := [
      BlogPost("top-10-project-manager-qualities", "Top 10 Project Manager Qualities", ProjectManagement, "2024-01-15", "5 min read"),
      BlogPost("project-management-life-cycle", "The Project Management Life Cycle", ProjectManagement, "2024-01-10", "8 min read"),
      BlogPost("what-is-project-management", "What is Project Management?", ProjectManagement, "2024-01-05", "6 min read"),
      BlogPost("project-charter-essentials", "Project Charter Essentials", ProjectManagement, "2023-12-28", "7 min read"),
      BlogPost("top-project-management-qualifications", "Top Project Management Qualifications", ProjectManagement, "2023-12-20", "6 min read"),
      BlogPost("project-proposals-guide", "Complete Guide to Project Proposals", ProjectManagement, "2023-12-15", "10 min read"),
      BlogPost("how-to-get-pm-certified", "How to Get Certified as a Project Manager", ProjectManagement, "2023-12-10", "8 min read"),
      BlogPost("become-it-project-manager", "How to Become an IT Project Manager", ProjectManagement, "2023-12-05", "9 min read"),
      BlogPost("become-senior-pm", "How to Become a Senior Project Manager", ProjectManagement, "2023-11-28", "7 min read"),
      BlogPost("top-pm-tools-2020", "Top 10 Project Management Tools in 2020", ProjectManagement, "2023-11-20", "12 min read"),
      BlogPost("earned-value-management", "Earned Value Management", ProjectManagement, "2023-11-15", "10 min read"),
      BlogPost("agile-project-management", "Agile Project Management", ProjectManagement, "2023-11-10", "8 min read"),
      BlogPost("agile-frameworks", "Agile Project Management Frameworks", ProjectManagement, "2023-11-05", "11 min read"),
      BlogPost("project-risk-management", "Project Risk Management", ProjectManagement, "2023-10-28", "9 min read"),
      BlogPost("project-resource-management", "Project Resource Management", ProjectManagement, "2023-10-20", "8 min read"),
      BlogPost("resource-management-tips", "Resource Management Tips", ProjectManagement, "2023-10-15", "6 min read"),
      BlogPost("characteristics-of-a-project", "Characteristics of a Project", ProjectManagement, "2023-10-10", "5 min read"),
      BlogPost("code-of-ethics", "Code of Ethics in Project Management", ProjectManagement, "2023-10-05", "7 min read"),
      BlogPost("project-scheduling", "Project Scheduling", ProjectManagement, "2023-09-28", "10 min read"),
      BlogPost("product-manager-vs-project-manager", "Product Manager vs Project Manager", ProjectManagement, "2023-09-20", "6 min read"),
      BlogPost("options-trading-strategies", "Advanced Options Trading Strategies", Trading, "2024-01-12", "12 min read"),
      BlogPost("algo-trading-intro", "Introduction to Algorithmic Trading", Trading, "2024-01-08", "10 min read")
    ]

  /** No two posts share a slug. */
  predicate DistinctSlugs(posts: seq<BlogPost>)
  {
    forall i, j :: 0 <= i < j < |posts| ==> posts[i].slug != posts[j].slug
  }

  /** The post at `i` shares its slug with no later post. */
  predicate SlugUnrepeated(posts: seq<BlogPost>, i: int)
    requires 0 <= i < |posts|
  {
    forall j :: i < j < |posts| ==> posts[i].slug != posts[j].slug
  }

  /** Distinctness, one post at a time. */
  lemma DistinctSlugsByPosition(posts: seq<BlogPost>)
    requires forall i :: 0 <= i < |posts| ==> SlugUnrepeated(posts, i)
    ensures DistinctSlugs(posts)
  {
    forall i, j | 0 <= i < j < |posts|
      ensures posts[i].slug != posts[j].slug
    {
      assert SlugUnrepeated(posts, i);
    }
  }

  /** The slug checks, split in three ranges of positions to keep each
      comparison batch small. */
  lemma SlugUnrepeatedAt(i: int)
    requires 0 <= i < |BlogPosts|
    ensures SlugUnrepeated(BlogPosts, i)
  {
    if i < 5 {
      SlugUnrepeatedFirst(i);
    } else if i < 11 {
      SlugUnrepeatedMiddle(i);
    }
  }

  lemma SlugUnrepeatedFirst(i: int)
    requires 0 <= i < 5
    ensures SlugUnrepeated(BlogPosts, i)
  {
  }

  lemma SlugUnrepeatedMiddle(i: int)
    requires 5 <= i < 11
    ensures SlugUnrepeated(BlogPosts, i)
  {
  }

  lemma BlogPostsHaveDistinctSlugs()
    ensures DistinctSlugs(BlogPosts)
  {
    forall i | 0 <= i < |BlogPosts|
      ensures SlugUnrepeated(BlogPosts, i)
    {
      SlugUnrepeatedAt(i);
    }
    DistinctSlugsByPosition(BlogPosts);
  }

  /** `getBlogsByCategory`: the posts filed under the category key, in
      list order; a key naming no category gives none. */
  function ByCategory(posts: seq<BlogPost>, category: string): (r: seq<BlogPost>)
    ensures |r| <= |posts|
  {
    if |posts| == 0 then []
    else Filed(posts[0], category) + ByCategory(posts[1..], category)
  }

  /** The one post as a list when it is filed under the key, else nothing. */
  function Filed(p: BlogPost, category: string): (r: seq<BlogPost>)
    ensures |r| <= 1
  {
    if CategoryKey(p.category) == category then [p] else []
  }

  /** A post is listed under a key exactly when it is one of the posts and
      its category has that key. */
  lemma {:induction false} ByCategoryMembers(posts: seq<BlogPost>, category: string)
    ensures forall p :: p in ByCategory(posts, category) <==> p in posts && CategoryKey(p.category) == category
  {
    if |posts| > 0 {
      ByCategoryMembers(posts[1..], category);
      assert posts == [posts[0]] + posts[1..];
    }
  }

  /** A key naming no category lists no post. */
  lemma UnknownCategoryEmpty(posts: seq<BlogPost>, category: string)
    requires category != "project-management" && category != "trading"
    ensures ByCategory(posts, category) == []
  {
    ByCategoryMembers(posts, category);
  }

  /** Filtering keeps the list order: it distributes over concatenation. */
  lemma {:induction false} ByCategoryAppend(a: seq<BlogPost>, b: seq<BlogPost>, category: string)
    ensures ByCategory(a + b, category) == ByCategory(a, category) + ByCategory(b, category)
    decreases |a|
  {
    if |a| == 0 {
      assert a + b == b;
    } else {
      var h := Filed(a[0], category);
      assert (a + b)[0] == a[0];
      assert (a + b)[1..] == a[1..] + b;
      ByCategoryAppend(a[1..], b, category);
      calc {
        ByCategory(a + b, category);
        h + ByCategory(a[1..] + b, category);
        h + (ByCategory(a[1..], category) + ByCategory(b, category));
        (h + ByCategory(a[1..], category)) + ByCategory(b, category);
      }
    }
  }

  /** Every post is under exactly one of the two keys, so the two category
      pages together list every post once. */
  lemma {:induction false} CategoryCountsSum(posts: seq<BlogPost>)
    ensures |ByCategory(posts, "project-management")| + |ByCategory(posts, "trading")| == |posts|
  {
    if |posts| > 0 {
      CategoryCountsSum(posts[1..]);
    }
  }

  /** `getBlogBySlug`: the first post with the slug, or nothing when no
      post has it. */
  function BlogBySlug(posts: seq<BlogPost>, slug: string): (r: Option<BlogPost>)
    ensures r.None? <==> forall i :: 0 <= i < |posts| ==> posts[i].slug != slug
    ensures r.Some? ==> exists i :: (0 <= i < |posts| && posts[i] == r.value && r.value.slug == slug &&
                                     forall j :: 0 <= j < i ==> posts[j].slug != slug)
  {
    if |posts| == 0 then None
    else if posts[0].slug == slug then Some(posts[0])
    else
      var rest := BlogBySlug(posts[1..], slug);
      assert rest.Some? ==> exists i :: (0 <= i < |posts| && posts[i] == rest.value && rest.value.slug == slug &&
                                         forall j :: 0 <= j < i ==> posts[j].slug != slug) by {
        if rest.Some? {
          var i :| 0 <= i < |posts[1..]| && posts[1..][i] == rest.value && rest.value.slug == slug &&
                   forall j :: 0 <= j < i ==> posts[1..][j].slug != slug;
          assert posts[i + 1] == rest.value;
          forall j | 0 <= j < i + 1
            ensures posts[j].slug != slug
          {
            if j > 0 {
              assert posts[j] == posts[1..][j - 1];
            }
          }
        }
      }
      assert rest.None? ==> forall i :: 0 <= i < |posts| ==> posts[i].slug != slug by {
        if rest.None? {
          forall i | 0 < i < |posts|
            ensures posts[i].slug != slug
          {
            assert posts[i] == posts[1..][i - 1];
          }
        }
      }
      rest
  }

  /** With distinct slugs, every post is reached through its own slug. */
  lemma SlugFindsPost(posts: seq<BlogPost>, i: int)
    requires DistinctSlugs(posts) && 0 <= i < |posts|
    ensures BlogBySlug(posts, posts[i].slug) == Some(posts[i])
  {
    var r := BlogBySlug(posts, posts[i].slug);
    var k :| 0 <= k < |posts| && posts[k] == r.value && r.value.slug == posts[i].slug &&
             forall j :: 0 <= j < k ==> posts[j].slug != posts[i].slug;
    if k < i {
      assert posts[k].slug != posts[i].slug;
    }
  }

  /** Every post of the catalogue has its page. */
  lemma EveryPostHasItsPage(i: int)
    requires 0 <= i < |BlogPosts|
    ensures BlogBySlug(BlogPosts, BlogPosts[i].slug) == Some(BlogPosts[i])
  {
    BlogPostsHaveDistinctSlugs();
    SlugFindsPost(BlogPosts, i);
  }

  /** How many posts the home page features when it names no count. */
  const DefaultFeatured := 3

  /** `getFeaturedBlogs(count)`, that is `slice(0, count)`: the leading
      posts, `count` of them (all when fewer), and for a negative count all
      but the last `-count`. */
  function FeaturedBlogs(posts: seq<BlogPost>, count: int): (r: seq<BlogPost>)
    ensures |r| <= |posts| && r == posts[..|r|]
    ensures count >= 0 ==> |r| == if count < |posts| then count else |posts|
    ensures count < 0 ==> |r| == if |posts| + count > 0 then |posts| + count else 0
  {
    var end := if count < 0 then (if |posts| + count > 0 then |posts| + count else 0)
               else if count < |posts| then count else |posts|;
    posts[..end]
  }

  /** Featured posts are catalogue posts in catalogue order, and a larger
      non-negative count only extends the list. */
  lemma FeaturedGrows(posts: seq<BlogPost>, m: int, n: int)
    requires 0 <= m <= n
    ensures FeaturedBlogs(posts, m) == FeaturedBlogs(posts, n)[..|FeaturedBlogs(posts, m)|]
    ensures forall p :: p in FeaturedBlogs(posts, n) ==> p in posts
  {
    var a := FeaturedBlogs(posts, m);
    var b := FeaturedBlogs(posts, n);
    assert |a| <= |b|;
    assert b[..|a|] == posts[..|b|][..|a|] == posts[..|a|];
    forall p | p in b
      ensures p in posts
    {
      var k :| 0 <= k < |b| && b[k] == p;
      assert posts[k] == p;
    }
  }

  /** The home page shows the three newest project-management posts. */
  lemma DefaultFeaturedPosts()
    ensures |FeaturedBlogs(BlogPosts, DefaultFeatured)| == 3
    ensures forall p :: p in FeaturedBlogs(BlogPosts, DefaultFeatured) ==> p.category == ProjectManagement
    ensures FeaturedBlogs(BlogPosts, DefaultFeatured)[0].slug == "top-10-project-manager-qualities"
  {
    var f := FeaturedBlogs(BlogPosts, DefaultFeatured);
    assert f == BlogPosts[..3];
    assert f == [BlogPosts[0], BlogPosts[1], BlogPosts[2]];
  }
}
