/**
 * The dashboard product grid (`ProductGrid`): the search term and category
 * come from the parent as props; the grid keeps the favourites and marks
 * low stock.
 */
module ProductGrid {
  import Seqs
  import Catalog

  /** The grid's records carry no availability flag; every one is listed as available. */
  function SeedProducts(): seq<Catalog.Product> {
    [ Catalog.Product("1", "iPhone 15 Pro Max", "smartphones", 8999.99, 12,
        "O mais avan\U{00E7}ado iPhone com c\U{00E2}mera profissional", true),
      Catalog.Product("2", "Samsung Galaxy S24 Ultra", "smartphones", 7499.99, 8,
        "Smartphone premium com S Pen integrada", true),
      Catalog.Product("3", "AirPods Pro 2\U{00AA} Gen", "acessorios", 1899.99, 25,
        "Fones com cancelamento ativo de ru\U{00ED}do", true),
      Catalog.Product("4", "Apple Watch Series 9", "acessorios", 3299.99, 15,
        "Smartwatch com recursos avan\U{00E7}ados de sa\U{00FA}de", true),
      Catalog.Product("5", "iPad Pro 12.9", "tablets", 8999.99, 6,
        "Tablet profissional com chip M2", true),
      Catalog.Product("6", "MacBook Air M3", "tablets", 12499.99, 4,
        "Notebook ultraport\U{00E1}til com chip M3", true) ]
  }

  /** The "Estoque baixo" badge. */
  predicate LowStock(p: Catalog.Product) {
    p.stock <= 5
  }

  function LowStockMatcher(): Catalog.Product -> bool {
    (p: Catalog.Product) => LowStock(p)
  }

  /** In the seeded grid only the MacBook (4 units) carries the badge; the
      iPad's 6 units are just above the limit. */
  lemma SeedLowStock()
    ensures Seqs.Filter(SeedProducts(), LowStockMatcher()) == [SeedProducts()[5]]
    ensures !LowStock(SeedProducts()[4])
  {
    var ps := SeedProducts();
    assert ps[1..][1..][1..][1..][1..][1..] == [];
  }

  class ProductGrid {
    const products: seq<Catalog.Product>
    var favorites: seq<string>

    constructor ()
      ensures products == SeedProducts() && favorites == []
    {
      products := SeedProducts();
      favorites := [];
    }

    /** `filteredProducts` for the props `searchTerm` and `category`. */
    function Shown(searchTerm: string, category: string): seq<Catalog.Product> {
      Catalog.FilteredProducts(products, searchTerm, category)
    }

    /** The grid lists exactly the matching products in order; under "all" the
        search alone decides. */
    lemma ShownSpec(searchTerm: string, category: string)
      ensures forall p :: p in Shown(searchTerm, category) <==>
        p in products && Catalog.Matches(p, searchTerm, category)
      ensures Seqs.IsSubsequence(Shown(searchTerm, category), products)
      ensures category == Catalog.AllCategories ==>
        Shown(searchTerm, category) == Seqs.Filter(products, Catalog.SearchMatcher(searchTerm))
    {
      Catalog.FilteredProductsExact(products, searchTerm, category);
      if category == Catalog.AllCategories {
        Catalog.AllChipIsSearchOnly(products, searchTerm);
      }
    }

    /** `toggleFavorite`; toggling the same id twice restores which ids are favourites. */
    method ToggleFavorite(id: string)
      modifies this`favorites
      ensures favorites == Catalog.Toggled(old(favorites), id)
      ensures id in favorites <==> id !in old(favorites)
      ensures forall x :: x != id ==> (x in favorites <==> x in old(favorites))
      ensures forall x :: x in Catalog.Toggled(favorites, id) <==> x in old(favorites)
    {
      Catalog.ToggledMembership(favorites, id);
      Catalog.ToggledTwice(favorites, id);
      favorites := Catalog.Toggled(favorites, id);
    }
  }
}
