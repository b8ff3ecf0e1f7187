/**
 * The blogs listing of src/pages/Blogs.tsx: the loaded document, the category-then-search
 * filter effect over its posts, the featured/regular split of the shown list, and the
 * category colour lookup.
 */
module BlogsPage {
  import opened Basics
  import opened Strings
  import Seqs
  import opened ContentCache

  datatype Category = Category(name: string, color: string, count: int)

  /** The blogs document as far as the page reads it; a missing array is `None`. */
  datatype BlogsDoc = BlogsDoc(posts: Option<seq<Post>>, categories: Option<seq<Category>>)

  /** The list the filter effect computes from the loaded posts. */
  function VisiblePosts(posts: seq<Post>, category: string, query: string): (r: seq<Post>)
    ensures Seqs.IsSubseq(r, posts)
    ensures forall i | 0 <= i < |r| :: InCategory(r[i], category) && InSearch(r[i], query)
    ensures forall post | post in posts && InCategory(post, category) && InSearch(post, query) :: post in r
    ensures multiset(r) <= multiset(posts)
    ensures forall post | post in posts
              :: multiset(r)[post] == if InCategory(post, category) && InSearch(post, query) then multiset(posts)[post] else 0
  {
    var byCategory := if category != "All" then FilterBlogsByCategory(posts, category) else posts;
    var r := if !IsBlank(query) then SearchBlogs(byCategory, query) else byCategory;
    // both steps are no-ops exactly where the page skips them
    assert r == SearchBlogs(FilterBlogsByCategory(posts, category), query);
    VisibleKeepsOrderAndMembers(posts, category, query);
    VisibleCounts(posts, category, query);
    r
  }

  /** The two filter steps compose into an order-preserving subsequence of exactly the posts that pass both. */
  lemma VisibleKeepsOrderAndMembers(posts: seq<Post>, category: string, query: string)
    ensures var r := SearchBlogs(FilterBlogsByCategory(posts, category), query);
            && Seqs.IsSubseq(r, posts)
            && (forall i | 0 <= i < |r| :: InCategory(r[i], category) && InSearch(r[i], query))
            && (forall post | post in posts && InCategory(post, category) && InSearch(post, query) :: post in r)
  {
    var byCategory := FilterBlogsByCategory(posts, category);
    var r := SearchBlogs(byCategory, query);
    Seqs.IsSubseqReflexive(posts);
    Seqs.IsSubseqReflexive(byCategory);
    Seqs.IsSubseqTransitive(r, byCategory, posts);
    forall i | 0 <= i < |r|
      ensures InCategory(r[i], category) && InSearch(r[i], query)
    {
      assert r[i] in byCategory;
    }
    forall post | post in posts && InCategory(post, category) && InSearch(post, query)
      ensures post in r
    {
      assert post in byCategory;
    }
  }

  /** The counts of the two filter steps compose: a post is kept as often as it occurs when it passes both. */
  lemma VisibleCounts(posts: seq<Post>, category: string, query: string)
    ensures var r := SearchBlogs(FilterBlogsByCategory(posts, category), query);
            && multiset(r) <= multiset(posts)
            && forall post | post in posts
                 :: multiset(r)[post] == if InCategory(post, category) && InSearch(post, query) then multiset(posts)[post] else 0
  {
    var byCategory := FilterBlogsByCategory(posts, category);
    var r := SearchBlogs(byCategory, query);
    forall post | post in posts
      ensures multiset(r)[post] == if InCategory(post, category) && InSearch(post, query) then multiset(posts)[post] else 0
    {
      if post !in byCategory {
        assert multiset(byCategory)[post] == 0;
      }
    }
  }

  /** `filteredPosts.filter(post => post.featured)`. */
  function FeaturedPosts(posts: seq<Post>): seq<Post> {
    Seqs.Filter(posts, (post: Post) => post.featured)
  }

  /** `filteredPosts.filter(post => !post.featured)`. */
  function RegularPosts(posts: seq<Post>): seq<Post> {
    Seqs.Filter(posts, (post: Post) => !post.featured)
  }

  /** The body of the listing section. */
  datatype Listing =
    | NoBlogsFound
    | Listing(featured: seq<Post>, heading: string, regular: seq<Post>)  // `featured` empty: the section is hidden

  function ListingView(shown: seq<Post>, category: string): (v: Listing)
    ensures v.NoBlogsFound? <==> shown == []
    ensures v.Listing? ==> multiset(v.featured) + multiset(v.regular) == multiset(shown)
    ensures v.Listing? ==> Seqs.IsSubseq(v.featured, shown) && Seqs.IsSubseq(v.regular, shown)
    ensures v.Listing? ==> forall i | 0 <= i < |v.featured| :: v.featured[i].featured
    ensures v.Listing? ==> forall i | 0 <= i < |v.regular| :: !v.regular[i].featured
    ensures v.Listing? ==> (|v.featured| > 0 <==> exists i | 0 <= i < |shown| :: shown[i].featured)
    ensures v.Listing? ==> v.heading == if category == "All" then "Latest Posts" else category + " Posts"
  {
    if shown == [] then NoBlogsFound
    else
      var featured, regular := FeaturedPosts(shown), RegularPosts(shown);
      Seqs.FilterPartition(shown, (post: Post) => post.featured, (post: Post) => !post.featured);
      Seqs.FilterNonEmpty(shown, (post: Post) => post.featured);
      Listing(featured, if category == "All" then "Latest Posts" else category + " Posts", regular)
  }

  /** `getCategoryColor(name)`: the colour of the first category so named, `'primary'` when there is none or its colour is empty. */
  function CategoryColor(categories: Option<seq<Category>>, name: string): (color: string)
    ensures color != ""
    ensures categories.None? || (forall i | 0 <= i < |categories.value| :: categories.value[i].name != name) ==> color == "primary"
    ensures categories.Some? ==>
              forall k | 0 <= k < |categories.value| && categories.value[k].name == name
                           && (forall j | 0 <= j < k :: categories.value[j].name != name)
                :: color == if categories.value[k].color != "" then categories.value[k].color else "primary"
  {
    if categories.None? then "primary"
    else
      match Seqs.Find(categories.value, (cat: Category) => cat.name == name)
      case None => "primary"
      case Some(cat) => if cat.color != "" then cat.color else "primary"
  }

  /** The page's state. `blogsData` is `None` while it is `null` or after a `null` or `undefined` payload. */
  class Page {
    var blogsData: Option<BlogsDoc>
    var filteredPosts: seq<Post>
    var loading: bool
    var searchQuery: string
    var selectedCategory: string

    constructor()
      ensures blogsData.None? && filteredPosts == [] && loading
      ensures searchQuery == "" && selectedCategory == "All"
    {
      blogsData := None;
      filteredPosts := [];
      loading := true;
      searchQuery := "";
      selectedCategory := "All";
    }

    /** Posts are loaded: the document is present and has a `posts` array. */
    predicate HasPosts()
      reads this
    {
      blogsData.Some? && blogsData.value.posts.Some?
    }

    /** The filter effect: reassigns the list step by step, or does nothing without loaded posts. */
    method Refilter()
      modifies this
      ensures HasPosts() ==> filteredPosts == VisiblePosts(blogsData.value.posts.value, selectedCategory, searchQuery)
      ensures !HasPosts() ==> filteredPosts == old(filteredPosts)
      ensures blogsData == old(blogsData) && loading == old(loading)
      ensures searchQuery == old(searchQuery) && selectedCategory == old(selectedCategory)
    {
      if !HasPosts() {
        return;
      }
      var filtered := blogsData.value.posts.value;
      if selectedCategory != "All" {
        filtered := FilterBlogsByCategory(filtered, selectedCategory);
      }
      if !IsBlank(searchQuery) {
        filtered := SearchBlogs(filtered, searchQuery);
      }
      filteredPosts := filtered;
    }

    /**
     * The loading effect, followed by the filter effect when it changed `blogsData`. `Ok(None)` is a
     * `null` or `undefined` payload: reading `.posts` of it throws, which the page catches, so the list
     * stays as it was. The other falsy payloads (`0`, `false`, `""`) have no `posts` and behave as
     * `Some(BlogsDoc(None, None))`: the list becomes `[]`.
     */
    method LoadData(fetched: Result<Option<BlogsDoc>, Error>)
      modifies this
      ensures !loading
      ensures blogsData == if fetched.Ok? then fetched.value else old(blogsData)
      ensures filteredPosts ==
                if fetched.Ok? && fetched.value.Some? then
                  match fetched.value.value.posts
                  case None => []
                  case Some(posts) => VisiblePosts(posts, selectedCategory, searchQuery)
                else old(filteredPosts)
      ensures searchQuery == old(searchQuery) && selectedCategory == old(selectedCategory)
    {
      if fetched.Ok? {
        blogsData := fetched.value;
        if fetched.value.Some? {
          filteredPosts := fetched.value.value.posts.GetOr([]);
        }
      }
      loading := false;
      if fetched.Ok? {
        Refilter();
      }
    }

    method SetSearchQuery(query: string)
      modifies this
      ensures searchQuery == query && selectedCategory == old(selectedCategory)
      ensures HasPosts() ==> filteredPosts == VisiblePosts(blogsData.value.posts.value, selectedCategory, query)
      ensures !HasPosts() ==> filteredPosts == old(filteredPosts)
      ensures blogsData == old(blogsData) && loading == old(loading)
    {
      searchQuery := query;
      Refilter();
    }

    method SetCategory(category: string)
      modifies this
      ensures selectedCategory == category && searchQuery == old(searchQuery)
      ensures HasPosts() ==> filteredPosts == VisiblePosts(blogsData.value.posts.value, category, searchQuery)
      ensures !HasPosts() ==> filteredPosts == old(filteredPosts)
      ensures blogsData == old(blogsData) && loading == old(loading)
    {
      selectedCategory := category;
      Refilter();
    }
  }
}
