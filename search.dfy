/** The case-insensitive list searches of the pages: keep a record when one
    of its text fields, lowercased, contains the lowercased term. */
module Search {
  import opened Common
  import opened Text
  import opened Types

  /** `list.filter(x => f(x).toLowerCase().includes(term.toLowerCase()))`. */
  function SearchOne<T(!new)>(s: seq<T>, f: T -> string, term: string): (r: seq<T>)
    ensures forall x :: x in r <==> x in s && Includes(f(x), term)
    ensures IsSubsequence(r, s)
    ensures forall x :: multiset(r)[x] == if Includes(f(x), term) then multiset(s)[x] else 0
    ensures term == "" ==> r == s
  {
    var keep := (x: T) => Includes(f(x), term);
    FilterCounts(s, keep);
    if term == "" then
      assert forall x :: x in s ==> keep(x) by {
        forall x | x in s ensures keep(x) {
          IncludesEmpty(f(x));
        }
      }
      FilterKeepsAll(s, keep);
      Filter(s, keep)
    else Filter(s, keep)
  }

  /** The same over two fields joined by `||`. */
  function SearchBy<T(!new)>(s: seq<T>, f: T -> string, g: T -> string, term: string): (r: seq<T>)
    ensures forall x :: x in r <==> x in s && (Includes(f(x), term) || Includes(g(x), term))
    ensures IsSubsequence(r, s)
    ensures forall x :: multiset(r)[x] == if Includes(f(x), term) || Includes(g(x), term) then multiset(s)[x] else 0
    ensures term == "" ==> r == s
  {
    var keep := (x: T) => Includes(f(x), term) || Includes(g(x), term);
    FilterCounts(s, keep);
    if term == "" then
      assert forall x :: x in s ==> keep(x) by {
        forall x | x in s ensures keep(x) {
          IncludesEmpty(f(x));
        }
      }
      FilterKeepsAll(s, keep);
      Filter(s, keep)
    else Filter(s, keep)
  }

  predicate NameOrBrandMatches(p: Product, term: string) {
    Includes(p.name, term) || Includes(p.brand, term)
  }

  /** The product search of the admin product list, the admin dashboard's
      product table and `ProductsTable`: name or brand. */
  function ByNameOrBrand(ps: seq<Product>, term: string): (r: seq<Product>)
    ensures forall p :: p in r <==> p in ps && NameOrBrandMatches(p, term)
    ensures IsSubsequence(r, ps)
    ensures forall p :: multiset(r)[p] == if NameOrBrandMatches(p, term) then multiset(ps)[p] else 0
    ensures term == "" ==> r == ps
  {
    SearchBy(ps, (p: Product) => p.name, (p: Product) => p.brand, term)
  }
}
