/**
 * The product catalog screen: a searchable list of products, a modal form that adds a
 * product or edits one, and a delete that asks for confirmation first. The random id
 * of a new product and the answer to the confirmation dialog are parameters.
 */
module Products {
  import opened Wrappers
  import opened Seqs
  import opened Text

  datatype Product = Product(
    id: string,
    hsCode: string,
    name: string,
    unit: string,
    defaultRate: real,
    taxPercent: real)

  /** The modal's form buffer: a product without its id. */
  datatype ProductForm = ProductForm(
    hsCode: string,
    name: string,
    unit: string,
    defaultRate: real,
    taxPercent: real)

  /** The form an "Add New Product" click starts from. */
  const BlankForm: ProductForm := ProductForm("", "", "PCS", 0.0, 18.0)

  /** The products the screen starts with. */
  const SeedProducts: seq<Product> := [
    Product("1", "5205.1100", "Cotton Yarn 20/1 Carded", "KG", 485.50, 18.0),
    Product("2", "5208.1100", "Grey Fabric 60x60/90x88", "MTR", 145.00, 18.0),
    Product("3", "6109.1000", "Mens Cotton T-Shirt (White)", "PCS", 850.00, 18.0),
    Product("4", "3907.6100", "Polyester Staple Fiber", "KG", 320.00, 18.0),
    Product("5", "2710.1900", "Industrial Grade Lubricant X1", "LTR", 650.00, 18.0)
  ]

  /** The five editable fields of a product, as the edit form is filled from it: the
      product is its form plus its id. */
  function FormOf(p: Product): (f: ProductForm)
    ensures FromForm(f, p.id) == p
  {
    ProductForm(p.hsCode, p.name, p.unit, p.defaultRate, p.taxPercent)
  }

  /** `{ ...p, ...formData }`: the form's fields over the product, which keeps its id;
      none of the product's old fields survives. */
  function WithForm(p: Product, f: ProductForm): (r: Product)
    ensures r == FromForm(f, p.id)
  {
    p.(hsCode := f.hsCode, name := f.name, unit := f.unit, defaultRate := f.defaultRate, taxPercent := f.taxPercent)
  }

  /** `{ ...formData, id }`: a new product carrying the given id and every field of the form. */
  function FromForm(f: ProductForm, id: string): (r: Product)
    ensures r.id == id
    ensures r.hsCode == f.hsCode && r.name == f.name && r.unit == f.unit
    ensures r.defaultRate == f.defaultRate && r.taxPercent == f.taxPercent
  {
    Product(id, f.hsCode, f.name, f.unit, f.defaultRate, f.taxPercent)
  }

  /** Opening the edit form and saving it unchanged gives back the same product, and a
      product built from a form carries exactly that form. */
  lemma FormRoundTrip(p: Product, f: ProductForm, id: string)
    ensures WithForm(p, FormOf(p)) == p
    ensures FormOf(FromForm(f, id)) == f && FromForm(f, id).id == id
    ensures FormOf(WithForm(p, f)) == f && WithForm(p, f).id == p.id
  {
  }

  // ---------------------------------------------------------------------------
  // Search
  // ---------------------------------------------------------------------------

  /** The search test: the lower-cased name contains the lower-cased query, or the HS code
      contains the query as typed. */
  predicate Matches(p: Product, query: string)
    ensures query == "" ==> Matches(p, query)
  {
    ContainsEmpty(Lower(p.name));
    assert Lower("") == "";
    Contains(Lower(p.name), Lower(query)) || Contains(p.hsCode, query)
  }

  /** `products.filter(...)` with the search test: the matching products, in list order. */
  function Filter(products: seq<Product>, query: string): (r: seq<Product>)
    ensures forall p :: p in r <==> p in products && Matches(p, query)
    ensures forall p :: multiset(r)[p] == if Matches(p, query) then multiset(products)[p] else 0
    ensures IsSubsequence(r, products)
  {
    if products == [] then []
    else
      assert products == [products[0]] + products[1..];
      if Matches(products[0], query) then [products[0]] + Filter(products[1..], query)
      else Filter(products[1..], query)
  }

  /** An empty query matches every product, so the whole list is shown. */
  lemma {:induction false} EmptyQueryShowsAll(products: seq<Product>)
    ensures Filter(products, "") == products
  {
    if products != [] {
      EmptyQueryShowsAll(products[1..]);
    }
  }

  /** Searching the search result again with the same query changes nothing. */
  lemma {:induction false} FilterIdempotent(products: seq<Product>, query: string)
    ensures Filter(Filter(products, query), query) == Filter(products, query)
  {
    if products != [] {
      FilterIdempotent(products[1..], query);
      if Matches(products[0], query) {
        assert ([products[0]] + Filter(products[1..], query))[1..] == Filter(products[1..], query);
      }
    }
  }

  /** A product whose name contains the query as typed is found, whatever the case of
      the letters: the name test compares lower-cased text on both sides. */
  lemma NameSubstringMatches(p: Product, query: string)
    requires Contains(p.name, query)
    ensures Matches(p, query)
  {
    var i :| OccursAt(p.name, query, i);
    LowerSlice(p.name, i, i + |query|);
    assert OccursAt(Lower(p.name), Lower(query), i);
  }

  /** A product is found by a query that its name contains in any mix of letter cases. */
  lemma NameMatchesAnyCase(p: Product, query: string, i: nat)
    requires i + |query| <= |p.name|
    requires EqualIgnoringCase(p.name[i..i + |query|], query)
    ensures Matches(p, query)
  {
    LowerSlice(p.name, i, i + |query|);
    EqualIgnoringCaseLower(p.name[i..i + |query|], query);
    assert OccursAt(Lower(p.name), Lower(query), i);
  }

  /** The seeded cotton yarn is found by "COTTON" through its name, and by "5205"
      through its HS code. */
  lemma SearchExamples()
    ensures Matches(SeedProducts[0], "COTTON")
    ensures Matches(SeedProducts[0], "5205")
  {
    var p := SeedProducts[0];
    assert Lower(p.name)[..6] == Lower("COTTON");
    assert OccursAt(Lower(p.name), Lower("COTTON"), 0);
    assert OccursAt(p.hsCode, "5205", 0);
  }

  /** The name test ignores the case of the name's letters: a product whose name is
      lower-cased is found by exactly the same queries. */
  lemma NameMatchIgnoresCase(p: Product, query: string)
    ensures Matches(p.(name := Lower(p.name)), query) <==> Matches(p, query)
  {
    LowerIdempotent(p.name);
  }

  /** Lower-casing commutes with taking a slice. */
  lemma LowerSlice(s: string, i: nat, j: nat)
    requires i <= j <= |s|
    ensures Lower(s)[i..j] == Lower(s[i..j])
  {
  }

  // ---------------------------------------------------------------------------
  // Edit and delete
  // ---------------------------------------------------------------------------

  /** `products.map(p => p.id === id ? { ...p, ...formData } : p)`. */
  function EditById(products: seq<Product>, id: string, f: ProductForm): (r: seq<Product>)
    ensures |r| == |products|
    ensures forall i :: 0 <= i < |products| ==> r[i].id == products[i].id
    ensures forall i :: 0 <= i < |products| && products[i].id != id ==> r[i] == products[i]
    ensures forall i :: 0 <= i < |products| && products[i].id == id ==> FormOf(r[i]) == f
  {
    if products == [] then []
    else [if products[0].id == id then WithForm(products[0], f) else products[0]]
         + EditById(products[1..], id, f)
  }

  /** A product's id: the key by which edit and delete pick products. */
  function ProductId(p: Product): string
  {
    p.id
  }

  /** With unique ids, saving a product's own form over it leaves the list as it was. */
  lemma EditWithOwnFormKeepsList(products: seq<Product>, k: nat)
    requires DistinctKeys(products, ProductId) && k < |products|
    ensures EditById(products, products[k].id, FormOf(products[k])) == products
  {
  }

  /** `products.filter(p => p.id !== id)`. */
  function DeleteById(products: seq<Product>, id: string): (r: seq<Product>)
    ensures forall p :: p in r <==> p in products && p.id != id
    ensures IsSubsequence(r, products)
    ensures |r| == |products| - CountKey(products, ProductId, id)
  {
    if products == [] then []
    else if products[0].id == id then DeleteById(products[1..], id)
    else [products[0]] + DeleteById(products[1..], id)
  }

  /** With unique ids, deleting an id that is present removes exactly one product. */
  lemma DeleteUniqueDropsOne(products: seq<Product>, k: nat)
    requires DistinctKeys(products, ProductId) && k < |products|
    ensures |DeleteById(products, products[k].id)| == |products| - 1
  {
    DistinctKeyCountsOnce(products, ProductId, products[k].id);
  }

  // ---------------------------------------------------------------------------
  // The screen's state
  // ---------------------------------------------------------------------------

  /** The state slots of the product screen that its handlers replace. */
  class ProductManager {
    var products: seq<Product>
    var searchQuery: string
    var isModalOpen: bool
    var editingProduct: Option<Product>
    var formData: ProductForm

    /** The screen as it opens: the five seeded products, no query, the modal closed. */
    constructor ()
      ensures products == SeedProducts && searchQuery == ""
      ensures !isModalOpen && editingProduct == None && formData == BlankForm
    {
      products := SeedProducts;
      searchQuery := "";
      isModalOpen := false;
      editingProduct := None;
      formData := BlankForm;
    }

    /** The search box. */
    method SetSearchQuery(q: string)
      modifies this
      ensures searchQuery == q
      ensures products == old(products) && isModalOpen == old(isModalOpen)
      ensures editingProduct == old(editingProduct) && formData == old(formData)
    {
      searchQuery := q;
    }

    /** `filteredProducts`: the list the table shows. */
    function FilteredProducts(): (r: seq<Product>)
      reads this
      ensures forall p :: p in r <==> p in products && Matches(p, searchQuery)
      ensures forall p :: multiset(r)[p] == if Matches(p, searchQuery) then multiset(products)[p] else 0
      ensures IsSubsequence(r, products)
      ensures searchQuery == "" ==> r == products
    {
      if searchQuery == "" then EmptyQueryShowsAll(products); Filter(products, searchQuery)
      else Filter(products, searchQuery)
    }

    /** `handleOpenModal`: with a product, its fields fill the form and it becomes the one
        being edited; without one, the blank form is loaded for an addition. */
    method OpenModal(product: Option<Product>)
      modifies this
      ensures isModalOpen && editingProduct == product
      ensures formData == if product.Some? then FormOf(product.value) else BlankForm
      ensures products == old(products) && searchQuery == old(searchQuery)
    {
      if product.Some? {
        editingProduct := product;
        formData := FormOf(product.value);
      } else {
        editingProduct := None;
        formData := BlankForm;
      }
      isModalOpen := true;
    }

    /** `handleCloseModal`: the form buffer itself is left as it is. */
    method CloseModal()
      modifies this
      ensures !isModalOpen && editingProduct == None
      ensures formData == old(formData) && products == old(products) && searchQuery == old(searchQuery)
    {
      isModalOpen := false;
      editingProduct := None;
    }

    /** One of the form's inputs: each replaces the buffer by a copy with one field changed.
        The form is on screen only while the modal is open. */
    method SetFormData(f: ProductForm)
      requires isModalOpen
      modifies this
      ensures formData == f
      ensures products == old(products) && searchQuery == old(searchQuery)
      ensures isModalOpen == old(isModalOpen) && editingProduct == old(editingProduct)
    {
      formData := f;
    }

    /** `handleSubmit`: in edit mode the products with the edited id take the form's fields;
        in add mode a product with the form's fields and `newId` is appended. Either way
        the modal closes. The form can be submitted only while the modal is open. */
    method Submit(newId: string)
      requires isModalOpen
      modifies this
      ensures old(editingProduct).Some? ==> products == EditById(old(products), old(editingProduct).value.id, old(formData))
      ensures old(editingProduct).None? ==> products == old(products) + [FromForm(old(formData), newId)]
      ensures !isModalOpen && editingProduct == None
      ensures formData == old(formData) && searchQuery == old(searchQuery)
    {
      if editingProduct.Some? {
        products := EditById(products, editingProduct.value.id, formData);
      } else {
        products := products + [FromForm(formData, newId)];
      }
      CloseModal();
    }

    /** `handleDelete`: `confirmed` is the user's answer to the confirmation dialog. */
    method Delete(id: string, confirmed: bool)
      modifies this
      ensures products == if confirmed then DeleteById(old(products), id) else old(products)
      ensures searchQuery == old(searchQuery) && isModalOpen == old(isModalOpen)
      ensures editingProduct == old(editingProduct) && formData == old(formData)
    {
      if confirmed {
        products := DeleteById(products, id);
      }
    }
  }
}
