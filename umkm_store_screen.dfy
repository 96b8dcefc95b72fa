/**
 * The small-business store: products filtered by category (`'All'` means every
 * category) and by a case-insensitive search over the name and the seller.
 */
module UmkmStore {
  import opened Seqs
  import opened Text

  datatype Product = Product(
    id: string,
    name: string,
    price: int,
    image: string,
    seller: string,
    category: string,
    rating: real,
    sold: int)

  /** The products the screen lists; each belongs to one of the offered categories other than 'All'. */
  function MockProducts(): (products: seq<Product>)
    ensures |products| == 3
    ensures forall i :: 0 <= i < |products| ==> products[i].category in Categories[1..]
  {
    [ Product("1", "Batik Tulis Motif Mega Mendung", 450000, "https://example.com/batik1.jpg",
              "Batik Cirebon Collection", "Fashion", 4.8, 50),
      Product("2", "Kopi Arabika Gayo", 85000, "https://example.com/coffee1.jpg",
              "Gayo Coffee House", "F&B", 4.9, 120),
      Product("3", "Tas Anyaman Rotan", 175000, "https://example.com/bag1.jpg",
              "Pengrajin Rotan Jaya", "Accessories", 4.7, 35) ]
  }

  /** The category that selects every product. */
  const AllCategories: string := "All"

  /** The category chips the screen offers. */
  const Categories: seq<string> := [AllCategories, "Fashion", "F&B", "Accessories", "Craft", "Home Decor"]

  /** 'All' matches every product; any other category only the products filed under it. */
  predicate MatchesCategory(product: Product, selectedCategory: string)
    ensures selectedCategory == AllCategories ==> MatchesCategory(product, selectedCategory)
    ensures selectedCategory != AllCategories ==>
      (MatchesCategory(product, selectedCategory) <==> product.category == selectedCategory)
  {
    selectedCategory == AllCategories || product.category == selectedCategory
  }

  /** The lower-cased query occurs in the lower-cased name or seller. */
  predicate MatchesSearch(product: Product, searchQuery: string) {
    Includes(ToLower(product.name), ToLower(searchQuery)) ||
    Includes(ToLower(product.seller), ToLower(searchQuery))
  }

  /**
   * `filteredProducts`: the products, in their order, that pass both the
   * category and the search test.
   */
  function FilteredProducts(products: seq<Product>, selectedCategory: string, searchQuery: string)
    : (r: seq<Product>)
    ensures IsSubsequence(r, products) && |r| <= |products|
    ensures forall p {:trigger p in r} :: p in r <==>
      p in products && MatchesCategory(p, selectedCategory) && MatchesSearch(p, searchQuery)
    ensures forall p {:trigger multiset(r)[p]} ::
      multiset(r)[p] == (if MatchesCategory(p, selectedCategory) && MatchesSearch(p, searchQuery)
                         then multiset(products)[p] else 0)
  {
    Filter(products, p => MatchesCategory(p, selectedCategory) && MatchesSearch(p, searchQuery))
  }

  /** An empty query keeps exactly the products that pass the category test. */
  lemma EmptySearchKeepsCategory(products: seq<Product>, selectedCategory: string)
    ensures FilteredProducts(products, selectedCategory, "")
         == Filter(products, p => MatchesCategory(p, selectedCategory))
  {
    forall p: Product ensures MatchesSearch(p, "") {
      IncludesEmpty(ToLower(p.name));
    }
    FilterSameTest(products, p => MatchesCategory(p, selectedCategory) && MatchesSearch(p, ""),
                   p => MatchesCategory(p, selectedCategory));
  }

  /** The search is case-insensitive: an upper-cased query finds the same products. */
  lemma SearchIgnoresCase(product: Product, searchQuery: string)
    ensures MatchesSearch(product, ToUpper(searchQuery)) == MatchesSearch(product, searchQuery)
  {
    ToLowerOfToUpper(searchQuery);
  }

  /** A category no mock product is filed under lists nothing, whatever the query. */
  lemma {:induction false} UnusedCategoryIsEmpty(category: string, searchQuery: string)
    requires category != AllCategories
    requires forall i :: 0 <= i < |MockProducts()| ==> MockProducts()[i].category != category
    ensures FilteredProducts(MockProducts(), category, searchQuery) == []
  {
    FilterKeepsNone(MockProducts(), p => MatchesCategory(p, category) && MatchesSearch(p, searchQuery));
  }

  /** The offered categories 'Craft' and 'Home Decor' list no product, whatever the query. */
  lemma {:induction false} CraftAndHomeDecorAreEmpty(searchQuery: string)
    ensures "Craft" in Categories && "Home Decor" in Categories
    ensures FilteredProducts(MockProducts(), "Craft", searchQuery) == []
    ensures FilteredProducts(MockProducts(), "Home Decor", searchQuery) == []
  {
    UnusedCategoryIsEmpty("Craft", searchQuery);
    UnusedCategoryIsEmpty("Home Decor", searchQuery);
  }
}
