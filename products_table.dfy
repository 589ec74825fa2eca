/** `ProductsTable`: the searchable product rows with edit and delete actions. */
module ProductsTable {
  import opened Common
  import opened Types
  import opened Search

  datatype RowButton = EditButton | DeleteButton
  datatype RowEvent = EditRequested(product: Product) | DeleteRequested(id: string)

  /** Clicking a button on row `i` of the filtered table: edit passes the
      row's product, delete passes its id; either names a listed product
      that matches the term. */
  function RowClick(products: seq<Product>, term: string, i: nat, b: RowButton): (e: RowEvent)
    requires i < |ByNameOrBrand(products, term)|
    ensures b == EditButton <==> e.EditRequested?
    ensures e.EditRequested? ==> e.product in products && NameOrBrandMatches(e.product, term)
    ensures e.EditRequested? ==> e.product == ByNameOrBrand(products, term)[i]
    ensures e.DeleteRequested? ==> e.id == ByNameOrBrand(products, term)[i].id
    ensures e.DeleteRequested? ==> exists p :: p in products && NameOrBrandMatches(p, term) && p.id == e.id
  {
    var row := ByNameOrBrand(products, term)[i];
    match b
    case EditButton => EditRequested(row)
    case DeleteButton => DeleteRequested(row.id)
  }
}
