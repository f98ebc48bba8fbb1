/**
 * The product grid of the point of sale (components/pos/product-grid.tsx):
 * stock summed over batches, the name/SKU search, the stock badge and the
 * "+" button that hands a product to the cart.
 */
module ProductGrid {
  import opened Wrappers
  import opened Text
  import opened Seqs
  import opened ApiTypes
  import opened CartItems

  /** `batches.reduce((sum, b) => sum + b.stock, 0)`, a left fold. */
  function BatchSum(bs: seq<Batch>): int
    decreases |bs|
  {
    if bs == [] then 0 else BatchSum(bs[..|bs| - 1]) + bs[|bs| - 1].stock
  }

  /** The fold adds the batches up: the sum over a concatenation is the sum of the sums. */
  lemma {:induction false} BatchSumAppend(a: seq<Batch>, b: seq<Batch>)
    ensures BatchSum(a + b) == BatchSum(a) + BatchSum(b)
    decreases |b|
  {
    if b == [] {
      assert a + b == a;
    } else {
      var b' := b[..|b| - 1];
      assert (a + b)[..|a + b| - 1] == a + b';
      BatchSumAppend(a, b');
    }
  }

  /** Batches with non-negative stock sum to a non-negative total. */
  lemma {:induction false} BatchSumNonNegative(bs: seq<Batch>)
    requires forall i :: 0 <= i < |bs| ==> bs[i].stock >= 0
    ensures BatchSum(bs) >= 0
    decreases |bs|
  {
    if bs != [] {
      BatchSumNonNegative(bs[..|bs| - 1]);
    }
  }

  /** `p.batches?.reduce(...) || 0`: the batch sum, and 0 when there are no batches. */
  function TotalStock(p: Product): (r: int)
    ensures p.batches.None? ==> r == 0
    ensures p.batches.Some? ==> r == BatchSum(p.batches.value)
    ensures p.batches == Some([]) ==> r == 0
  {
    match p.batches
    case None => 0
    case Some(bs) => BatchSum(bs)
  }

  /** The per-product step of `fetchProducts`: the product with `totalStock` filled in. */
  function Processed(p: Product): (q: Product)
    ensures q.totalStock == Some(TotalStock(p))
    ensures q.(totalStock := p.totalStock) == p
  {
    p.(totalStock := Some(TotalStock(p)))
  }

  /** `product.totalStock || 0` */
  function CurrentStock(p: Product): (s: int)
    ensures p.totalStock.None? ==> s == 0
    ensures p.totalStock.Some? ==> s == p.totalStock.value
  {
    p.totalStock.GetOr(0)
  }

  /** The search: the lower-cased query occurs in the lower-cased name or SKU (never the provider). */
  predicate ProductMatches(p: Product, query: string) {
    Includes(ToLower(p.name), ToLower(query)) || Includes(ToLower(p.sku), ToLower(query))
  }

  /** `filteredProducts`: the products that match, in their original order. */
  function FilterProducts(products: seq<Product>, query: string): (r: seq<Product>)
    ensures forall p :: p in r <==> p in products && ProductMatches(p, query)
    ensures IsSubsequence(r, products)
  {
    Filter(products, (p: Product) => ProductMatches(p, query))
  }

  /** Every matching product appears in the result as often as in the list; no other does. */
  lemma FilterProductsCounts(products: seq<Product>, query: string)
    ensures forall p :: multiset(FilterProducts(products, query))[p] == if ProductMatches(p, query) then multiset(products)[p] else 0
  {
    FilterCounts(products, (p: Product) => ProductMatches(p, query));
  }

  /** The header count: `filteredProducts.length`. */
  function ResultCount(products: seq<Product>, query: string): (n: nat)
    ensures n <= |products|
    ensures query == "" ==> n == |products|
  {
    EmptyQueryKeepsAllProducts(products, query);
    |FilterProducts(products, query)|
  }

  /** An empty query keeps every product. */
  lemma EmptyQueryKeepsAllProducts(products: seq<Product>, query: string)
    ensures query == "" ==> FilterProducts(products, query) == products
  {
    if query == "" {
      forall p | p in products ensures ProductMatches(p, query) {
        EmptyIncluded(ToLower(p.name));
      }
      FilterKeepsAll(products, (p: Product) => ProductMatches(p, query));
    }
  }

  /** The variant of the stock badge. */
  datatype BadgeVariant = Outline | Secondary | Destructive

  /** `currentStock > 10 ? "outline" : currentStock > 0 ? "secondary" : "destructive"` */
  function StockBadge(currentStock: int): (v: BadgeVariant)
    ensures v == Outline <==> currentStock > 10
    ensures v == Secondary <==> 0 < currentStock <= 10
    ensures v == Destructive <==> currentStock <= 0
  {
    if currentStock > 10 then Outline else if currentStock > 0 then Secondary else Destructive
  }

  /** `disabled={currentStock <= 0}` on the "+" button. */
  function AddDisabled(p: Product): (d: bool)
    ensures d <==> StockBadge(CurrentStock(p)) == Destructive
  {
    CurrentStock(p) <= 0
  }

  /** `{ ...product, stock: currentStock }`: what the "+" button hands to the cart. */
  function HandOff(p: Product): (c: CartProduct)
    ensures c.id == p.id && c.name == p.name && c.salePrice == Some(p.salePrice)
    ensures c.stock == CurrentStock(p)
  {
    CartProduct(p.id, p.name, Some(p.salePrice), CurrentStock(p))
  }

  /** A click on "+": nothing when the button is disabled, else the hand-off. */
  function PressAdd(p: Product): (r: Option<CartProduct>)
    ensures r.None? <==> CurrentStock(p) <= 0
    ensures r.Some? ==> r.value == HandOff(p) && r.value.stock >= 1
  {
    if AddDisabled(p) then None else Some(HandOff(p))
  }

  /** For a fetched product the cart receives exactly the summed batch stock. */
  lemma HandOffCarriesBatchSum(p: Product)
    requires p.batches.Some?
    ensures HandOff(Processed(p)).stock == BatchSum(p.batches.value)
    ensures PressAdd(Processed(p)).Some? <==> BatchSum(p.batches.value) >= 1
  {
  }
}
