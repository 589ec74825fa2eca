/** The admin dashboard: stat cards, the product table with its
    create/edit dialog, and the user table; one search term drives both
    tables, and every successful change fetches the whole dashboard again. */
module AdminDashboard {
  import opened Common
  import opened Types
  import opened HookForm
  import opened Search
  import PF = ProductForm

  /** `AdminStats`; a field the server leaves out is `None`. */
  datatype Stats = Stats(totalUsers: Option<int>, totalProducts: Option<int>, totalDermatologists: Option<int>)

  /** The service calls the handlers make. */
  datatype Call =
    | UpdateProduct(id: string, payload: PF.Submission)
    | CreateProduct(payload: PF.Submission)
    | DeleteProduct(id: string)
    | DeleteUser(id: string)

  function UserName(u: User): string { u.name }
  function UserEmail(u: User): string { u.email }

  /** The values `handleEditProduct` loads: the product's fields with the
      skin types and concerns as names; unlike `ProductForm`'s own defaults
      it leaves `price` out. */
  function EditValues(p: Product): (v: PF.Values)
    ensures v == PF.EditingValues(p).(price := None)
  {
    PF.Values(p.name, p.brand, p.description, p.ingredients, p.sustainabilityScore, p.allergens,
              TypeNames(p.suitableSkinTypes), ConcernNames(p.targetConcerns), None)
  }

  function UsersOf(s: Stats): Option<int> { s.totalUsers }
  function ProductsOf(s: Stats): Option<int> { s.totalProducts }
  function DermatologistsOf(s: Stats): Option<int> { s.totalDermatologists }

  class Page {
    var stats: Option<Stats>
    var users: seq<User>
    var products: seq<Product>
    var searchTerm: string
    var isProductDialogOpen: bool
    var editingProduct: Option<Product>
    var selectedImage: Option<File>
    var form: Form<PF.Values>
    /** The calls made, in order. */
    var calls: seq<Call>
    /** How many times `fetchDashboardData` has been started. */
    var fetches: nat

    constructor()
      ensures stats.None? && users == [] && products == [] && searchTerm == ""
      ensures !isProductDialogOpen && editingProduct.None? && selectedImage.None?
      ensures form == Init(PF.NewValues) && calls == [] && fetches == 0
    {
      stats := None;
      users := [];
      products := [];
      searchTerm := "";
      isProductDialogOpen := false;
      editingProduct := None;
      selectedImage := None;
      form := Init(PF.NewValues);
      calls := [];
      fetches := 0;
    }

    /** The three stat cards, each `stats?.field || 0`: before the stats
        arrive, or for a field the server leaves out, the card shows 0. */
    function Cards(): (r: (int, int, int))
      reads this
      ensures stats.None? ==> r == (0, 0, 0)
      ensures stats.Some? ==> r.0 == stats.value.totalUsers.GetOr(0) && r.1 == stats.value.totalProducts.GetOr(0)
      ensures stats.Some? ==> r.2 == stats.value.totalDermatologists.GetOr(0)
    {
      (StatOrZero(stats, UsersOf), StatOrZero(stats, ProductsOf), StatOrZero(stats, DermatologistsOf))
    }

    /** The product table's rows. */
    function ProductRows(): (r: seq<Product>)
      reads this
      ensures forall p :: p in r <==> p in products && NameOrBrandMatches(p, searchTerm)
      ensures IsSubsequence(r, products)
    {
      ByNameOrBrand(products, searchTerm)
    }

    /** The user table's rows: name or email contains the same term. */
    function UserRows(): (r: seq<User>)
      reads this
      ensures forall u :: u in r <==> u in users && (Text.Includes(u.name, searchTerm) || Text.Includes(u.email, searchTerm))
      ensures IsSubsequence(r, users)
    {
      SearchBy(users, UserName, UserEmail, searchTerm)
    }

    /** One input sets the term that both tables read. */
    method SetSearch(term: string)
      modifies this
      ensures searchTerm == term
      ensures ProductRows() == ByNameOrBrand(products, term) && UserRows() == SearchBy(users, UserName, UserEmail, term)
      ensures products == old(products) && users == old(users) && form == old(form) && calls == old(calls)
      ensures isProductDialogOpen == old(isProductDialogOpen) && editingProduct == old(editingProduct)
      ensures selectedImage == old(selectedImage) && fetches == old(fetches) && stats == old(stats)
    {
      searchTerm := term;
    }

    /** `fetchDashboardData`: `outcome` is the joint result of the three calls. */
    method Fetch(outcome: Result<(Stats, seq<User>, seq<Product>)>)
      modifies this
      ensures outcome.Ok? ==> stats == Some(outcome.value.0) && users == outcome.value.1 && products == outcome.value.2
      ensures outcome.Err? ==> stats == old(stats) && users == old(users) && products == old(products)
      ensures fetches == old(fetches) + 1
      ensures searchTerm == old(searchTerm) && form == old(form) && calls == old(calls)
      ensures isProductDialogOpen == old(isProductDialogOpen) && editingProduct == old(editingProduct)
      ensures selectedImage == old(selectedImage)
    {
      fetches := fetches + 1;
      if outcome.Ok? {
        stats := Some(outcome.value.0);
        users := outcome.value.1;
        products := outcome.value.2;
      }
    }

    /** `handleImageChange`: keep the first picked file, if any. */
    method ImageChange(files: seq<File>)
      modifies this
      ensures selectedImage == (if files != [] then Some(files[0]) else old(selectedImage))
      ensures products == old(products) && users == old(users) && form == old(form) && calls == old(calls)
      ensures isProductDialogOpen == old(isProductDialogOpen) && editingProduct == old(editingProduct)
      ensures searchTerm == old(searchTerm) && fetches == old(fetches) && stats == old(stats)
    {
      if files != [] {
        selectedImage := Some(files[0]);
      }
    }

    /** The "Add Product" trigger: forget the edit, reset the form and the
        image; then the dialog opens. */
    method OpenCreate()
      modifies this
      ensures editingProduct.None? && selectedImage.None? && isProductDialogOpen
      ensures form == old(form).Reset()
      ensures products == old(products) && users == old(users) && calls == old(calls)
      ensures searchTerm == old(searchTerm) && fetches == old(fetches) && stats == old(stats)
    {
      editingProduct := None;
      form := form.Reset();
      selectedImage := None;
      isProductDialogOpen := true;
    }

    /** `handleEditProduct(p)`. */
    method Edit(p: Product)
      modifies this
      ensures editingProduct == Some(p) && isProductDialogOpen
      ensures form == old(form).ResetTo(EditValues(p))
      ensures selectedImage == old(selectedImage)
      ensures products == old(products) && users == old(users) && calls == old(calls)
      ensures searchTerm == old(searchTerm) && fetches == old(fetches) && stats == old(stats)
    {
      editingProduct := Some(p);
      form := form.ResetTo(EditValues(p));
      isProductDialogOpen := true;
    }

    /** The dialog's `onOpenChange`. */
    method DialogChange(open: bool)
      modifies this
      ensures isProductDialogOpen == open
      ensures editingProduct == old(editingProduct) && form == old(form) && selectedImage == old(selectedImage)
      ensures products == old(products) && users == old(users) && calls == old(calls)
      ensures searchTerm == old(searchTerm) && fetches == old(fetches) && stats == old(stats)
    {
      isProductDialogOpen := open;
    }

    /** A skin-type checkbox of the dialog. */
    method CheckSkinType(t: string, checked: bool)
      modifies this
      ensures form == old(form).SetValues(PF.ToggleSkinType(old(form).values, t, checked))
      ensures editingProduct == old(editingProduct) && selectedImage == old(selectedImage)
      ensures isProductDialogOpen == old(isProductDialogOpen)
      ensures products == old(products) && users == old(users) && calls == old(calls)
      ensures searchTerm == old(searchTerm) && fetches == old(fetches) && stats == old(stats)
    {
      form := form.SetValues(PF.ToggleSkinType(form.values, t, checked));
    }

    /** A concern checkbox of the dialog. */
    method CheckConcern(c: string, checked: bool)
      modifies this
      ensures form == old(form).SetValues(PF.ToggleConcern(old(form).values, c, checked))
      ensures editingProduct == old(editingProduct) && selectedImage == old(selectedImage)
      ensures isProductDialogOpen == old(isProductDialogOpen)
      ensures products == old(products) && users == old(users) && calls == old(calls)
      ensures searchTerm == old(searchTerm) && fetches == old(fetches) && stats == old(stats)
    {
      form := form.SetValues(PF.ToggleConcern(form.values, c, checked));
    }

    /** `handleProductSubmit(values)`: `ok` is whether the update or create
        resolved. On success the dialog, form, image and edit are cleared and
        the dashboard is fetched again. */
    method Submit(values: PF.Values, ok: bool)
      modifies this
      ensures var payload := PF.Submission(values, old(selectedImage));
        calls == old(calls) + [if old(editingProduct).Some? then UpdateProduct(old(editingProduct).value.id, payload) else CreateProduct(payload)]
      ensures ok ==> !isProductDialogOpen && form == old(form).Reset() && selectedImage.None? && editingProduct.None?
      ensures ok ==> fetches == old(fetches) + 1
      ensures !ok ==> isProductDialogOpen == old(isProductDialogOpen) && form == old(form)
      ensures !ok ==> selectedImage == old(selectedImage) && editingProduct == old(editingProduct) && fetches == old(fetches)
      ensures products == old(products) && users == old(users) && searchTerm == old(searchTerm) && stats == old(stats)
    {
      var payload := PF.Submission(values, selectedImage);
      if editingProduct.Some? {
        calls := calls + [UpdateProduct(editingProduct.value.id, payload)];
      } else {
        calls := calls + [CreateProduct(payload)];
      }
      if ok {
        isProductDialogOpen := false;
        form := form.Reset();
        selectedImage := None;
        editingProduct := None;
        fetches := fetches + 1;
      }
    }

    /** `handleDeleteProduct(id)`: the table changes only through the refetch. */
    method RemoveProduct(id: string, ok: bool)
      modifies this
      ensures calls == old(calls) + [DeleteProduct(id)]
      ensures fetches == old(fetches) + (if ok then 1 else 0)
      ensures products == old(products) && users == old(users) && form == old(form)
      ensures isProductDialogOpen == old(isProductDialogOpen) && editingProduct == old(editingProduct)
      ensures selectedImage == old(selectedImage) && searchTerm == old(searchTerm) && stats == old(stats)
    {
      calls := calls + [DeleteProduct(id)];
      if ok {
        fetches := fetches + 1;
      }
    }

    /** `handleDeleteUser(id)`. */
    method RemoveUser(id: string, ok: bool)
      modifies this
      ensures calls == old(calls) + [DeleteUser(id)]
      ensures fetches == old(fetches) + (if ok then 1 else 0)
      ensures products == old(products) && users == old(users) && form == old(form)
      ensures isProductDialogOpen == old(isProductDialogOpen) && editingProduct == old(editingProduct)
      ensures selectedImage == old(selectedImage) && searchTerm == old(searchTerm) && stats == old(stats)
    {
      calls := calls + [DeleteUser(id)];
      if ok {
        fetches := fetches + 1;
      }
    }
  }
}
