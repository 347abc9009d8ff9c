/**
 * The product listing shared by the storefront (`ModernStorefront`), the public
 * catalog (`PublicCatalog`) and the dashboard grid (`ProductGrid`): each of them
 * keeps its own copy of the same product records, filters them by a search term
 * and a category chip, counts products per category and keeps a favourites list.
 */
module Catalog {
  import Seqs
  import Text

  /** A product card. `ProductGrid`'s records have no availability flag. */
  datatype Product = Product(
    id: string,
    name: string,
    category: string,
    price: real,
    stock: int,
    description: string,
    available: bool)

  /** The category chip that selects every product. */
  const AllCategories := "all"

  /** Case-insensitive search in the name or the description. */
  predicate MatchesSearch(p: Product, term: string) {
    Text.Contains(Text.Lower(p.name), Text.Lower(term))
    || Text.Contains(Text.Lower(p.description), Text.Lower(term))
  }

  predicate MatchesCategory(p: Product, selected: string) {
    selected == AllCategories || p.category == selected
  }

  predicate Matches(p: Product, term: string, selected: string) {
    MatchesSearch(p, term) && MatchesCategory(p, selected)
  }

  function Matcher(term: string, selected: string): Product -> bool {
    (p: Product) => Matches(p, term, selected)
  }

  function SearchMatcher(term: string): Product -> bool {
    (p: Product) => MatchesSearch(p, term)
  }

  function CategoryMatcher(category: string): Product -> bool {
    (p: Product) => p.category == category
  }

  /** `filteredProducts`: the products matching both the search and the chip. */
  function FilteredProducts(products: seq<Product>, term: string, selected: string): seq<Product> {
    Seqs.Filter(products, Matcher(term, selected))
  }

  /** The result holds exactly the matching products, in catalogue order. */
  lemma FilteredProductsExact(products: seq<Product>, term: string, selected: string)
    ensures forall p :: p in FilteredProducts(products, term, selected) <==>
      p in products && Matches(p, term, selected)
    ensures Seqs.IsSubsequence(FilteredProducts(products, term, selected), products)
  {
    Seqs.FilterExact(products, Matcher(term, selected));
  }

  /** With an empty search and the "all" chip, nothing is filtered out. */
  lemma FilterNothing(products: seq<Product>)
    ensures FilteredProducts(products, "", AllCategories) == products
  {
    forall i | 0 <= i < |products| ensures Matcher("", AllCategories)(products[i]) {
      Text.ContainsEmpty(Text.Lower(products[i].name));
    }
    Seqs.FilterAll(products, Matcher("", AllCategories));
  }

  /** Under the "all" chip only the search predicate decides. */
  lemma {:induction false} AllChipIsSearchOnly(products: seq<Product>, term: string)
    ensures FilteredProducts(products, term, AllCategories) == Seqs.Filter(products, SearchMatcher(term))
  {
    if products != [] {
      AllChipIsSearchOnly(products[1..], term);
    }
  }

  /** The number shown on a category chip (`categories[...].count`). */
  function CategoryCount(products: seq<Product>, category: string): nat {
    if category == AllCategories then |products|
    else |Seqs.Filter(products, CategoryMatcher(category))|
  }

  /** A chip's count is the number of products listed once that chip is
      selected with an empty search box. */
  lemma {:induction false} CountMatchesSelection(products: seq<Product>, category: string)
    ensures CategoryCount(products, category) == |FilteredProducts(products, "", category)|
    ensures CategoryCount(products, category) <= |products|
  {
    if category == AllCategories {
      FilterNothing(products);
    } else if products != [] {
      CountMatchesSelection(products[1..], category);
      Text.ContainsEmpty(Text.Lower(products[0].name));
    }
  }

  function NotEqual(id: string): string -> bool {
    (x: string) => x != id
  }

  /** `toggleFavorite`: drop the id when present, append it otherwise. */
  function Toggled(favorites: seq<string>, id: string): seq<string> {
    if id in favorites then Seqs.Filter(favorites, NotEqual(id)) else favorites + [id]
  }

  /** Toggling flips the membership of the id and of nothing else. */
  lemma ToggledMembership(favorites: seq<string>, id: string)
    ensures id in Toggled(favorites, id) <==> id !in favorites
    ensures forall x :: x != id ==> (x in Toggled(favorites, id) <==> x in favorites)
  {
    forall x ensures x in Seqs.Filter(favorites, NotEqual(id)) <==> x in favorites && x != id {
      Seqs.FilterMembership(favorites, NotEqual(id), x);
    }
  }

  /** Toggling twice restores the membership; starting from an absent id it
      restores the very same list. */
  lemma ToggledTwice(favorites: seq<string>, id: string)
    ensures forall x :: x in Toggled(Toggled(favorites, id), id) <==> x in favorites
    ensures id !in favorites ==> Toggled(Toggled(favorites, id), id) == favorites
  {
    ToggledMembership(favorites, id);
    ToggledMembership(Toggled(favorites, id), id);
    if id !in favorites {
      Seqs.FilterConcat(favorites, [id], NotEqual(id));
      Seqs.FilterAll(favorites, NotEqual(id));
      assert Seqs.Filter([id], NotEqual(id)) == [];
    }
  }
}
