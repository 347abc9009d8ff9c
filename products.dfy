/**
 * The product, brand and category registers (`ProductManager`): three
 * append-only lists, each with its own form, plus the simulated description
 * generator.
 */
module Products {
  import opened Wrappers
  import Seqs
  import Numbers

  /** A registered product. `image` is always null in the form and is not modelled. */
  datatype Product = Product(
    id: int,
    name: string,
    warranty: int,
    controlType: string,
    price: Numbers.Number,
    description: string,
    condition: string,
    brand: string,
    category: string,
    status: string)

  /** The new-product form: every field is the text typed or selected. */
  datatype ProductForm = ProductForm(
    name: string,
    warranty: string,
    controlType: string,
    price: string,
    description: string,
    condition: string,
    brand: string,
    category: string)

  /** A brand or a category. */
  datatype Entry = Entry(id: int, name: string, description: string)

  datatype EntryForm = EntryForm(name: string, description: string)

  const BlankProductForm := ProductForm("", "", "", "", "", "", "", "")

  const BlankEntryForm := EntryForm("", "")

  function ProductId(p: Product): int { p.id }

  function EntryId(e: Entry): int { e.id }

  /** The product `handleAddProduct` builds: the price parsed as a float, the
      warranty parsed as an integer with NaN read as 0, and status "active". */
  function NewProduct(id: int, form: ProductForm): (p: Product)
    ensures p.id == id && p.status == "active" && p.name == form.name
    ensures p.price == Numbers.ParseFloat(form.price)
    ensures p.warranty == Numbers.ParseInt(form.warranty).GetOr(0)
    ensures p.controlType == form.controlType && p.description == form.description
    ensures p.condition == form.condition && p.brand == form.brand && p.category == form.category
  {
    Product(id, form.name, Numbers.ParseInt(form.warranty).GetOr(0), form.controlType,
      Numbers.ParseFloat(form.price), form.description, form.condition, form.brand,
      form.category, "active")
  }

  /** The warranty as the template prints it: the typed text, or "12" when empty. */
  function WarrantyText(warranty: string): (r: string)
    ensures r != []
    ensures warranty != "" ==> r == warranty
  {
    if warranty == "" then "12" else warranty
  }

  /** The text `generateDescription` produces. */
  function GeneratedDescription(name: string, warranty: string): (r: string)
  {
    name + " - Produto de alta qualidade com excelente custo-benef\U{00ED}cio. "
    + "Ideal para uso profissional e pessoal. Garantia de "
    + WarrantyText(warranty) + " meses."
  }

  /** The generated text opens with the product name and closes with the
      warranty in months, 12 when none was typed. */
  lemma GeneratedDescriptionSpec(name: string, warranty: string)
    ensures var d := GeneratedDescription(name, warranty);
      var tail := WarrantyText(warranty) + " meses.";
      && |d| > |name| + |tail|
      && d[..|name|] == name
      && d[|d| - |tail|..] == tail
    ensures warranty == "" ==> WarrantyText(warranty) == "12"
  {
    var d := GeneratedDescription(name, warranty);
    var tail := WarrantyText(warranty) + " meses.";
    var middle := " - Produto de alta qualidade com excelente custo-benef\U{00ED}cio. "
      + "Ideal para uso profissional e pessoal. Garantia de ";
    assert d == name + middle + tail;
    assert d[..|name|] == name;
    assert d[|d| - |tail|..] == tail;
  }

  function SeedProducts(): (r: seq<Product>)
    ensures Seqs.PositionalIds(r, ProductId)
  {
    [ Product(1, "iPhone 13 Pro Max 256GB", 12, "unique", Numbers.Finite(4200.00),
        "Smartphone Apple com c\U{00E2}mera profissional", "new", "Apple", "Smartphone", "active") ]
  }

  function SeedBrands(): (r: seq<Entry>)
    ensures Seqs.PositionalIds(r, EntryId)
  {
    [ Entry(1, "Apple", "Produtos Apple Inc."), Entry(2, "Samsung", "Samsung Electronics") ]
  }

  function SeedCategories(): (r: seq<Entry>)
    ensures Seqs.PositionalIds(r, EntryId)
  {
    [ Entry(1, "Smartphone", "Telefones celulares"), Entry(2, "Tablet", "Tablets e iPads") ]
  }

  class ProductManager {
    var products: seq<Product>
    var brands: seq<Entry>
    var categories: seq<Entry>
    var newProduct: ProductForm
    var newBrand: EntryForm
    var newCategory: EntryForm

    ghost predicate Valid()
      reads this
    {
      && Seqs.PositionalIds(products, ProductId)
      && Seqs.PositionalIds(brands, EntryId)
      && Seqs.PositionalIds(categories, EntryId)
    }

    constructor ()
      ensures Valid()
      ensures products == SeedProducts() && brands == SeedBrands() && categories == SeedCategories()
      ensures newProduct == BlankProductForm
      ensures newBrand == BlankEntryForm && newCategory == BlankEntryForm
    {
      products, brands, categories := SeedProducts(), SeedBrands(), SeedCategories();
      newProduct := BlankProductForm;
      newBrand, newCategory := BlankEntryForm, BlankEntryForm;
    }

    /** An edit of the product form (each input's `onChange`). */
    method EditProductForm(form: ProductForm)
      modifies this`newProduct
      ensures newProduct == form
    {
      newProduct := form;
    }

    method EditBrandForm(form: EntryForm)
      modifies this`newBrand
      ensures newBrand == form
    {
      newBrand := form;
    }

    method EditCategoryForm(form: EntryForm)
      modifies this`newCategory
      ensures newCategory == form
    {
      newCategory := form;
    }

    /** `handleAddProduct`: with a name, a price and a control type, appends the
        product numbered `length + 1` and blanks the form; otherwise does nothing. */
    method AddProduct() returns (added: bool)
      requires Valid()
      modifies this`products, this`newProduct
      ensures Valid()
      ensures added <==>
        old(newProduct).name != "" && old(newProduct).price != "" && old(newProduct).controlType != ""
      ensures added ==>
        && products == old(products) + [NewProduct(|old(products)| + 1, old(newProduct))]
        && newProduct == BlankProductForm
      ensures !added ==> products == old(products) && newProduct == old(newProduct)
    {
      added := newProduct.name != "" && newProduct.price != "" && newProduct.controlType != "";
      if added {
        var p := NewProduct(|products| + 1, newProduct);
        Seqs.PositionalIdsAppend(products, ProductId, p);
        products := products + [p];
        newProduct := BlankProductForm;
      }
    }

    /** `handleAddBrand`: with a name, appends the brand numbered `length + 1`
        and blanks the brand form. */
    method AddBrand() returns (added: bool)
      requires Valid()
      modifies this`brands, this`newBrand
      ensures Valid()
      ensures added <==> old(newBrand).name != ""
      ensures added ==>
        && brands == old(brands) + [Entry(|old(brands)| + 1, old(newBrand).name, old(newBrand).description)]
        && newBrand == BlankEntryForm
      ensures !added ==> brands == old(brands) && newBrand == old(newBrand)
    {
      added := newBrand.name != "";
      if added {
        var b := Entry(|brands| + 1, newBrand.name, newBrand.description);
        Seqs.PositionalIdsAppend(brands, EntryId, b);
        brands := brands + [b];
        newBrand := BlankEntryForm;
      }
    }

    /** `handleAddCategory`: the same for categories; brands and products are
        outside its frame. */
    method AddCategory() returns (added: bool)
      requires Valid()
      modifies this`categories, this`newCategory
      ensures Valid()
      ensures added <==> old(newCategory).name != ""
      ensures added ==>
        && categories == old(categories) + [Entry(|old(categories)| + 1, old(newCategory).name, old(newCategory).description)]
        && newCategory == BlankEntryForm
      ensures !added ==> categories == old(categories) && newCategory == old(newCategory)
    {
      added := newCategory.name != "";
      if added {
        var c := Entry(|categories| + 1, newCategory.name, newCategory.description);
        Seqs.PositionalIdsAppend(categories, EntryId, c);
        categories := categories + [c];
        newCategory := BlankEntryForm;
      }
    }

    /** `generateDescription`: with a name, replaces only the form's description. */
    method GenerateDescription()
      modifies this`newProduct
      ensures old(newProduct).name == "" ==> newProduct == old(newProduct)
      ensures old(newProduct).name != "" ==>
        newProduct == old(newProduct).(description := GeneratedDescription(old(newProduct).name, old(newProduct).warranty))
    {
      if newProduct.name != "" {
        newProduct := newProduct.(description := GeneratedDescription(newProduct.name, newProduct.warranty));
      }
    }
  }
}
