/**
 * The public catalogue page (`PublicCatalog`): the shop window customers see,
 * with category chips, a search box, favourites, stock badges and a WhatsApp
 * link per product. Currency formatting and URI encoding are browser functions
 * and enter as parameters.
 */
module PublicCatalog {
  import Text
  import Catalog

  /** A category chip: the value it selects, its label and its count. */
  datatype Chip = Chip(id: string, name: string, count: nat)

  /** `categories`: "Todos" and the three fixed categories, each with its count. */
  function Chips(products: seq<Catalog.Product>): (r: seq<Chip>)
    ensures |r| == 4 && r[0].id == Catalog.AllCategories && r[0].count == |products|
  {
    [ Chip(Catalog.AllCategories, "Todos", Catalog.CategoryCount(products, Catalog.AllCategories)),
      Chip("smartphones", "Smartphones", Catalog.CategoryCount(products, "smartphones")),
      Chip("tablets", "Tablets", Catalog.CategoryCount(products, "tablets")),
      Chip("acessorios", "Acess\U{00F3}rios", Catalog.CategoryCount(products, "acessorios")) ]
  }

  /** Every chip counts the products listed when it is selected with an empty
      search box. */
  lemma ChipsSpec(products: seq<Catalog.Product>)
    ensures forall i :: 0 <= i < |Chips(products)| ==>
      Chips(products)[i].count == |Catalog.FilteredProducts(products, "", Chips(products)[i].id)|
  {
    var r := Chips(products);
    forall i | 0 <= i < |r|
      ensures r[i].count == |Catalog.FilteredProducts(products, "", r[i].id)|
    {
      Catalog.CountMatchesSelection(products, r[i].id);
    }
  }

  function SeedProducts(): seq<Catalog.Product> {
    [ Catalog.Product("1", "iPhone 15 Pro Max", "smartphones", 8999.99, 12,
        "O mais avan\U{00E7}ado iPhone com c\U{00E2}mera profissional", true),
      Catalog.Product("2", "Samsung Galaxy S24 Ultra", "smartphones", 7499.99, 0,
        "Smartphone premium com S Pen integrada", false),
      Catalog.Product("3", "AirPods Pro 2\U{00AA} Gen", "acessorios", 1899.99, 25,
        "Fones com cancelamento ativo de ru\U{00ED}do", true),
      Catalog.Product("4", "Apple Watch Series 9", "acessorios", 3299.99, 15,
        "Smartwatch com recursos avan\U{00E7}ados de sa\U{00FA}de", true),
      Catalog.Product("5", "iPad Pro 12.9", "tablets", 8999.99, 0,
        "Tablet profissional com chip M2", false) ]
  }

  /** The seeded catalogue's chips read 5, 2, 1 and 2. */
  lemma SeedChips()
    ensures [Chips(SeedProducts())[0].count, Chips(SeedProducts())[1].count,
             Chips(SeedProducts())[2].count, Chips(SeedProducts())[3].count] == [5, 2, 1, 2]
  {
    var ps := SeedProducts();
    assert ps[1..][1..][1..][1..][1..] == [];
  }

  /** The message for an available product: its name and formatted price. */
  function InterestMessage(name: string, price: string): string {
    "Ol\U{00E1}! Tenho interesse no produto " + ("*" + name + "*") + (" por " + price
      + ". Poderia me dar mais informa\U{00E7}\U{00F5}es?")
  }

  /** The message for an unavailable product: a request to be told when it is back. */
  function NotifyMessage(name: string): string {
    "Ol\U{00E1}! Gostaria de ser avisado quando o produto " + ("*" + name + "*")
      + " estiver dispon\U{00ED}vel."
  }

  function WhatsAppMessage(p: Catalog.Product, formatPrice: real -> string): string {
    if p.available then InterestMessage(p.name, formatPrice(p.price)) else NotifyMessage(p.name)
  }

  /** Both messages name the product in bold; the price is quoted only for an
      available product, so the notify-me text ignores price and formatter. */
  lemma WhatsAppMessageSpec(p: Catalog.Product, formatPrice: real -> string, otherPrice: real, otherFormat: real -> string)
    ensures Text.Contains(WhatsAppMessage(p, formatPrice), "*" + p.name + "*")
    ensures p.available ==> Text.Contains(WhatsAppMessage(p, formatPrice), formatPrice(p.price))
    ensures !p.available ==>
      WhatsAppMessage(p, formatPrice) == WhatsAppMessage(p.(price := otherPrice), otherFormat)
  {
    var bold := "*" + p.name + "*";
    if p.available {
      Text.ContainsMiddle("Ol\U{00E1}! Tenho interesse no produto ", bold,
        " por " + formatPrice(p.price) + ". Poderia me dar mais informa\U{00E7}\U{00F5}es?");
      var head := "Ol\U{00E1}! Tenho interesse no produto " + bold + " por ";
      Text.ContainsMiddle(head, formatPrice(p.price), ". Poderia me dar mais informa\U{00E7}\U{00F5}es?");
      assert WhatsAppMessage(p, formatPrice)
        == head + formatPrice(p.price) + ". Poderia me dar mais informa\U{00E7}\U{00F5}es?";
    } else {
      Text.ContainsMiddle("Ol\U{00E1}! Gostaria de ser avisado quando o produto ", bold,
        " estiver dispon\U{00ED}vel.");
    }
  }

  const LinkBase := "https://wa.me/"

  /** `generateWhatsAppLink`. */
  function WhatsAppLink(whatsappNumber: string, p: Catalog.Product, formatPrice: real -> string,
                        encode: string -> string): string
  {
    LinkBase + whatsappNumber + "?text=" + encode(WhatsAppMessage(p, formatPrice))
  }

  /** With a number and an encoded message free of '?' (the URI encoder escapes
      it), the link splits at '?' into the chat address and the text parameter. */
  lemma WhatsAppLinkSpec(whatsappNumber: string, p: Catalog.Product, formatPrice: real -> string,
                         encode: string -> string)
    requires '?' !in whatsappNumber
    requires '?' !in encode(WhatsAppMessage(p, formatPrice))
    ensures Text.Split(WhatsAppLink(whatsappNumber, p, formatPrice, encode), '?')
      == [LinkBase + whatsappNumber, "text=" + encode(WhatsAppMessage(p, formatPrice))]
  {
    var address := LinkBase + whatsappNumber;
    var query := "text=" + encode(WhatsAppMessage(p, formatPrice));
    assert '?' !in address by {
      assert forall i :: 0 <= i < |LinkBase| ==> LinkBase[i] != '?';
    }
    var segments := [address, query];
    assert Text.Join(segments[1..], '?') == query;
    assert Text.Join(segments, '?') == WhatsAppLink(whatsappNumber, p, formatPrice, encode);
    Text.SplitJoin(segments, '?');
  }

  /** The "Indisponível" badge. */
  predicate UnavailableBadge(p: Catalog.Product) {
    !p.available
  }

  /** The "Últimas N unidades" badge. */
  predicate LastUnitsBadge(p: Catalog.Product, showStock: bool) {
    showStock && p.available && p.stock <= 5
  }

  /** The two badges share a corner and never show together; an unavailable
      product always shows the first, whatever its stock. */
  lemma BadgesSpec(p: Catalog.Product, showStock: bool)
    ensures !(UnavailableBadge(p) && LastUnitsBadge(p, showStock))
    ensures LastUnitsBadge(p, showStock) ==> p.available && p.stock <= 5
    ensures !showStock ==> !LastUnitsBadge(p, showStock)
  {
  }

  class PublicCatalog {
    const products: seq<Catalog.Product>
    const whatsappNumber: string
    const showStock: bool
    var searchTerm: string
    var selectedCategory: string
    var favorites: seq<string>

    /** The page with its props; the defaults are "5545999999999" and showing stock. */
    constructor (whatsappNumber: string, showStock: bool)
      ensures products == SeedProducts()
      ensures this.whatsappNumber == whatsappNumber && this.showStock == showStock
      ensures searchTerm == "" && selectedCategory == Catalog.AllCategories && favorites == []
    {
      products := SeedProducts();
      this.whatsappNumber := whatsappNumber;
      this.showStock := showStock;
      searchTerm, selectedCategory, favorites := "", Catalog.AllCategories, [];
    }

    /** The product cards shown (`filteredProducts`). */
    function Shown(): seq<Catalog.Product>
      reads this
    {
      Catalog.FilteredProducts(products, searchTerm, selectedCategory)
    }

    method SetSearchTerm(term: string)
      modifies this`searchTerm
      ensures searchTerm == term
    {
      searchTerm := term;
    }

    /** A chip click. */
    method SelectCategory(id: string)
      modifies this`selectedCategory
      ensures selectedCategory == id
    {
      selectedCategory := id;
    }

    /** `toggleFavorite`: the heart flips the product's membership and no other. */
    method ToggleFavorite(id: string)
      modifies this`favorites
      ensures favorites == Catalog.Toggled(old(favorites), id)
      ensures id in favorites <==> id !in old(favorites)
      ensures forall x :: x != id ==> (x in favorites <==> x in old(favorites))
    {
      Catalog.ToggledMembership(favorites, id);
      favorites := Catalog.Toggled(favorites, id);
    }
  }
}
