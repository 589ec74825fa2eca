/** `ManageProducts`: the admin product catalogue, edited in place after
    each save or delete instead of being fetched again. */
module ManageProducts {
  import opened Common
  import opened Types
  import opened Search
  import ProductForm

  /** The service call a save makes. */
  datatype SaveCall =
    | UpdateCall(id: string, submission: ProductForm.Submission)
    | CreateCall(submission: ProductForm.Submission)

  function IdOf(p: Product): string { p.id }

  class Page {
    var products: seq<Product>
    var searchTerm: string
    var isProductDialogOpen: bool
    var editingProduct: Option<Product>
    /** The calls to `updateProduct` / `createProduct`, in order. */
    var calls: seq<SaveCall>

    constructor()
      ensures products == [] && searchTerm == "" && !isProductDialogOpen && editingProduct.None? && calls == []
    {
      products := [];
      searchTerm := "";
      isProductDialogOpen := false;
      editingProduct := None;
      calls := [];
    }

    /** `filteredProducts`: the cards shown. */
    function Filtered(): (r: seq<Product>)
      reads this
      ensures forall p :: p in r <==> p in products && NameOrBrandMatches(p, searchTerm)
      ensures IsSubsequence(r, products)
      ensures searchTerm == "" ==> r == products
    {
      ByNameOrBrand(products, searchTerm)
    }

    /** The "No products found" panel. */
    predicate ShowsEmptyState()
      reads this
    {
      |Filtered()| == 0
    }

    method Fetch(outcome: Result<seq<Product>>)
      modifies this
      ensures products == (if outcome.Ok? then outcome.value else old(products))
      ensures searchTerm == old(searchTerm) && isProductDialogOpen == old(isProductDialogOpen)
      ensures editingProduct == old(editingProduct) && calls == old(calls)
    {
      if outcome.Ok? {
        products := outcome.value;
      }
    }

    method SetSearch(term: string)
      modifies this
      ensures searchTerm == term
      ensures products == old(products) && isProductDialogOpen == old(isProductDialogOpen)
      ensures editingProduct == old(editingProduct) && calls == old(calls)
    {
      searchTerm := term;
    }

    /** The "Add Product" trigger: forget any edit, then the dialog opens. */
    method OpenCreate()
      modifies this
      ensures editingProduct.None? && isProductDialogOpen
      ensures products == old(products) && searchTerm == old(searchTerm) && calls == old(calls)
    {
      editingProduct := None;
      isProductDialogOpen := true;
    }

    /** A card's edit action. */
    method Edit(p: Product)
      modifies this
      ensures editingProduct == Some(p) && isProductDialogOpen
      ensures products == old(products) && searchTerm == old(searchTerm) && calls == old(calls)
    {
      editingProduct := Some(p);
      isProductDialogOpen := true;
    }

    /** The dialog's `onOpenChange`: only the flag; closing keeps `editingProduct`. */
    method DialogChange(open: bool)
      modifies this
      ensures isProductDialogOpen == open
      ensures editingProduct == old(editingProduct)
      ensures products == old(products) && searchTerm == old(searchTerm) && calls == old(calls)
    {
      isProductDialogOpen := open;
    }

    /** `handleProductSubmit(values)`: `outcome` is the awaited update or create. */
    method Submit(s: ProductForm.Submission, outcome: Result<Product>)
      modifies this
      ensures calls == old(calls) + [if old(editingProduct).Some? then UpdateCall(old(editingProduct).value.id, s) else CreateCall(s)]
      ensures outcome.Ok? && old(editingProduct).Some? ==>
        products == ReplaceById(old(products), IdOf, old(editingProduct).value.id, outcome.value)
      ensures outcome.Ok? && old(editingProduct).None? ==> products == old(products) + [outcome.value]
      ensures outcome.Ok? ==> !isProductDialogOpen && editingProduct.None?
      ensures outcome.Err? ==>
        products == old(products) && isProductDialogOpen == old(isProductDialogOpen) && editingProduct == old(editingProduct)
      ensures searchTerm == old(searchTerm)
    {
      var call := if editingProduct.Some? then UpdateCall(editingProduct.value.id, s) else CreateCall(s);
      calls := calls + [call];
      if outcome.Ok? {
        if editingProduct.Some? {
          products := ReplaceById(products, IdOf, editingProduct.value.id, outcome.value);
        } else {
          products := products + [outcome.value];
        }
        isProductDialogOpen := false;
        editingProduct := None;
      }
    }

    /** `handleDeleteProduct(id)`: `ok` is whether `deleteProduct` resolved. */
    method Delete(id: string, ok: bool)
      modifies this
      ensures products == (if ok then WithoutId(old(products), IdOf, id) else old(products))
      ensures searchTerm == old(searchTerm) && isProductDialogOpen == old(isProductDialogOpen)
      ensures editingProduct == old(editingProduct) && calls == old(calls)
    {
      if ok {
        products := WithoutId(products, IdOf, id);
      }
    }
  }

  /** A deleted product no longer appears under any search term. */
  lemma DeletedNeverShown(products: seq<Product>, id: string, term: string, p: Product)
    requires p in ByNameOrBrand(WithoutId(products, IdOf, id), term)
    ensures p.id != id && p in products
  {
  }
}
