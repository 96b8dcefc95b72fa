/**
 * The blog list: posts filtered by category (`'Semua'` means every category)
 * and by a case-insensitive search over the title and the excerpt.
 */
module Blog {
  import opened Seqs
  import opened Text

  datatype BlogPost = BlogPost(
    id: string,
    title: string,
    excerpt: string,
    content: string,
    image: string,
    author: string,
    date: string,
    category: string,
    readTime: int)

  /** The posts the screen lists; each belongs to one of the offered categories other than 'Semua'. */
  function MockPosts(): (posts: seq<BlogPost>)
    ensures |posts| == 3
    ensures forall i :: 0 <= i < |posts| ==> posts[i].category in Categories[1..]
  {
    [ BlogPost("1", "Pentingnya Zakat dalam Kehidupan Muslim",
               "Memahami makna dan manfaat zakat dalam kehidupan bermasyarakat", "Lorem ipsum...",
               "https://example.com/zakat-article.jpg", "Ustadz Ahmad", "15 Jan 2024", "Ibadah", 5),
      BlogPost("2", "Program Pemberdayaan UMKM NU",
               "Bagaimana NU membantu mengembangkan UMKM di Indonesia", "Lorem ipsum...",
               "https://example.com/umkm-article.jpg", "Tim Ekonomi NU", "14 Jan 2024", "Ekonomi", 7),
      BlogPost("3", "Kegiatan Sosial NU Peduli",
               "Laporan kegiatan sosial NU Peduli di berbagai daerah", "Lorem ipsum...",
               "https://example.com/social-article.jpg", "Admin Pusat", "13 Jan 2024", "Sosial", 4) ]
  }

  /** The category that selects every post. */
  const AllCategories: string := "Semua"

  /** The category chips the screen offers. */
  const Categories: seq<string> := [AllCategories, "Ibadah", "Ekonomi", "Sosial", "Pendidikan"]

  /** 'Semua' matches every post; any other category only the posts filed under it. */
  predicate MatchesCategory(post: BlogPost, selectedCategory: string)
    ensures selectedCategory == AllCategories ==> MatchesCategory(post, selectedCategory)
    ensures selectedCategory != AllCategories ==>
      (MatchesCategory(post, selectedCategory) <==> post.category == selectedCategory)
  {
    selectedCategory == AllCategories || post.category == selectedCategory
  }

  /** The lower-cased query occurs in the lower-cased title or excerpt. */
  predicate MatchesSearch(post: BlogPost, searchQuery: string) {
    Includes(ToLower(post.title), ToLower(searchQuery)) ||
    Includes(ToLower(post.excerpt), ToLower(searchQuery))
  }

  /**
   * `filteredPosts`: the posts, in their order, that pass both the category and
   * the search test.
   */
  function FilteredPosts(posts: seq<BlogPost>, selectedCategory: string, searchQuery: string)
    : (r: seq<BlogPost>)
    ensures IsSubsequence(r, posts) && |r| <= |posts|
    ensures forall p {:trigger p in r} :: p in r <==>
      p in posts && MatchesCategory(p, selectedCategory) && MatchesSearch(p, searchQuery)
    ensures forall p {:trigger multiset(r)[p]} ::
      multiset(r)[p] == (if MatchesCategory(p, selectedCategory) && MatchesSearch(p, searchQuery)
                         then multiset(posts)[p] else 0)
  {
    Filter(posts, p => MatchesCategory(p, selectedCategory) && MatchesSearch(p, searchQuery))
  }

  /** The empty query matches every post. */
  lemma EmptySearchMatches(post: BlogPost)
    ensures MatchesSearch(post, "")
  {
    IncludesEmpty(ToLower(post.title));
  }

  /** The screen's initial filter ('Semua', empty query) lists every post, in order. */
  lemma InitialFilterListsAll(posts: seq<BlogPost>)
    ensures FilteredPosts(posts, AllCategories, "") == posts
  {
    forall i | 0 <= i < |posts|
      ensures MatchesCategory(posts[i], AllCategories) && MatchesSearch(posts[i], "")
    {
      EmptySearchMatches(posts[i]);
    }
    FilterKeepsAll(posts, p => MatchesCategory(p, AllCategories) && MatchesSearch(p, ""));
  }

  /** The search is case-insensitive: an upper-cased query finds the same posts. */
  lemma SearchIgnoresCase(post: BlogPost, searchQuery: string)
    ensures MatchesSearch(post, ToUpper(searchQuery)) == MatchesSearch(post, searchQuery)
  {
    ToLowerOfToUpper(searchQuery);
  }

  /** Content and author are not searched. */
  lemma SearchIgnoresContentAndAuthor(post: BlogPost, content: string, author: string, searchQuery: string)
    ensures MatchesSearch(post.(content := content, author := author), searchQuery)
         == MatchesSearch(post, searchQuery)
  {
  }

  /** The offered category 'Pendidikan' lists no post, whatever the query. */
  lemma PendidikanIsEmpty(searchQuery: string)
    ensures "Pendidikan" in Categories
    ensures FilteredPosts(MockPosts(), "Pendidikan", searchQuery) == []
  {
    var posts := MockPosts();
    assert forall i :: 0 <= i < |posts| ==> posts[i].category != "Pendidikan";
    FilterKeepsNone(posts, p => MatchesCategory(p, "Pendidikan") && MatchesSearch(p, searchQuery));
  }
}
