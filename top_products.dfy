/**
  The top-selling-products card's derived list
  (components/organisms/top-selling-products.tsx): the dashboard's products,
  filtered by the global search term when it is non-empty, then sorted on a
  copy by the selected column and direction.
*/
module TopProducts {
  import opened Common
  import opened ApiTypes
  import opened Sorting

  datatype ProductField = Name | Price | Quantity | Revenue

  /** The comparator's key for one column: `name` as its lower-cased string,
      the other columns as numbers; a product without a price gives
      `Number(undefined)`, the absent number. */
  function ProductKey(p: ProductSales, f: ProductField): SortKey {
    match f
    case Name => Text(ToLower(p.name))
    case Price => if p.price.Some? then Num(p.price.value) else Missing
    case Quantity => Num(p.quantity)
    case Revenue => Num(p.revenue)
  }

  /** The key function the comparator reads for column `f`. */
  function ColumnKey(f: ProductField): ProductSales -> SortKey {
    p => ProductKey(p, f)
  }

  /** The products whose lower-cased name contains the lower-cased term. */
  function FilterProducts(ps: seq<ProductSales>, global: string): seq<ProductSales> {
    if global != [] then Filter(ps, (p: ProductSales) => Includes(ToLower(p.name), ToLower(global))) else ps
  }

  /** `sortedAndFilteredProducts`: filter when the global term is set, then,
      when both a field and a direction are set, sort a copy stably. */
  function ProductView(ps: seq<ProductSales>, global: string,
                       field: Option<ProductField>, dir: Option<Direction>): seq<ProductSales>
  {
    var filtered := FilterProducts(ps, global);
    if field.Some? && dir.Some? then StableSort(filtered, ColumnKey(field.value), dir.value)
    else filtered
  }

  /** An empty term keeps every product in place; otherwise the filtered list
      is an ordered subsequence holding exactly the products whose name
      contains the term, case aside. */
  lemma FilterProductsSpec(ps: seq<ProductSales>, global: string)
    ensures global == [] ==> FilterProducts(ps, global) == ps
    ensures IsSubsequence(FilterProducts(ps, global), ps)
    ensures global != [] ==>
      forall p :: (p in FilterProducts(ps, global) <==> p in ps && Includes(ToLower(p.name), ToLower(global)))
    ensures global != [] ==>
      forall p :: multiset(FilterProducts(ps, global))[p]
                    == if Includes(ToLower(p.name), ToLower(global)) then multiset(ps)[p] else 0
  {
    if global == [] {
      SubsequenceOfItself(ps);
    } else {
      var r := FilterProducts(ps, global);
      forall p | p in ps && Includes(ToLower(p.name), ToLower(global)) ensures p in r {
        var i :| 0 <= i < |ps| && ps[i] == p;
      }
    }
  }

  /** Without an active sort the list is the filtered one. With one it is a
      permutation of the filtered list, ordered by the column in the chosen
      direction, keeping products with equal keys in their filtered order. */
  lemma ProductViewSpec(ps: seq<ProductSales>, global: string,
                        field: Option<ProductField>, dir: Option<Direction>)
    ensures var filtered := FilterProducts(ps, global);
      var view := ProductView(ps, global, field, dir);
      && (!(field.Some? && dir.Some?) ==> view == filtered)
      && (field.Some? && dir.Some? ==>
            var key := ColumnKey(field.value);
            && multiset(view) == multiset(filtered)
            && SortedBy(view, key, dir.value)
            && (forall k :: WithKey(view, key, k) == WithKey(filtered, key, k)))
  {
    var filtered := FilterProducts(ps, global);
    if field.Some? && dir.Some? {
      var key := ColumnKey(field.value);
      StableSortSorted(filtered, key, dir.value);
      forall k ensures WithKey(StableSort(filtered, key, dir.value), key, k) == WithKey(filtered, key, k) {
        StableSortStable(filtered, key, dir.value, k);
      }
    }
  }

  /** When no product has a price, as in the dashboard's seed data, sorting
      by price in either direction leaves the filtered order as it was: every
      comparison returns 0. */
  lemma PriceSortWithoutPrices(ps: seq<ProductSales>, global: string, dir: Direction)
    requires forall i :: 0 <= i < |ps| ==> ps[i].price.None?
    ensures ProductView(ps, global, Some(Price), Some(dir)) == FilterProducts(ps, global)
  {
    var filtered := FilterProducts(ps, global);
    var key := ColumnKey(Price);
    forall i | 0 <= i < |filtered| ensures key(filtered[i]) == Missing {
      assert filtered[i] in ps;
    }
    assert SortedBy(filtered, key, dir);
    StableSortIsTheSort(filtered, filtered, key, dir);
  }
}
