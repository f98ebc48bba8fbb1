/**
 * The inventory table (components/inventory/inventory-table.tsx): the stock
 * and expiry badges, the search over name, SKU and category, and the four
 * footer figures computed over the filtered rows.
 */
module InventoryTable {
  import opened Text
  import opened Seqs

  /**
   * One inventory row. The source keeps an `expiryDate` and recomputes the days
   * left against the clock on every render; here the day count is the row's field.
   */
  datatype InventoryItem = InventoryItem(
    id: string,
    name: string,
    category: string,
    sku: string,
    stock: int,
    minStock: int,
    batchNumber: string,
    daysUntilExpiry: int,
    unitPrice: real,
    supplier: string
  )

  /** The stock badge: `{ status, color }`. */
  datatype StockStatus = OutOfStock | LowStock | InStock {
    function Status(): string {
      match this
      case OutOfStock => "Agotado"
      case LowStock => "Bajo Stock"
      case InStock => "En Stock"
    }
    function Color(): string {
      match this
      case OutOfStock => "destructive"
      case LowStock => "secondary"
      case InStock => "default"
    }
  }

  /**
   * `getStockStatus(stock, minStock)`: out of stock whenever the stock is not
   * positive, whatever the minimum; low when positive but under the minimum.
   */
  function GetStockStatus(stock: int, minStock: int): (s: StockStatus)
    ensures s == OutOfStock <==> stock <= 0
    ensures s == LowStock <==> 0 < stock < minStock
    ensures s == InStock <==> 0 < stock && minStock <= stock
  {
    if stock <= 0 then OutOfStock
    else if stock < minStock then LowStock
    else InStock
  }

  /** The expiry badge: `{ status, color, warning }`. */
  datatype ExpiryStatus = Expired | ExpiringSoon | NotExpiring {
    function Status(): string {
      match this
      case Expired => "Vencido"
      case ExpiringSoon => "Próximo a vencer"
      case NotExpiring => "Válido"
    }
    function Color(): string {
      match this
      case Expired => "destructive"
      case ExpiringSoon => "secondary"
      case NotExpiring => "default"
    }
    function Warning(): bool {
      !NotExpiring?
    }
  }

  /** Products expiring within this many days are flagged. */
  const NearExpiryDays: int := 90

  /** `getExpiryStatus`, given the whole days until expiry. */
  function GetExpiryStatus(days: int): (e: ExpiryStatus)
    ensures e == Expired <==> days < 0
    ensures e == ExpiringSoon <==> 0 <= days < NearExpiryDays
    ensures e == NotExpiring <==> NearExpiryDays <= days
    ensures e.Warning() <==> days < NearExpiryDays
  {
    if days < 0 then Expired
    else if days < 90 then ExpiringSoon
    else NotExpiring
  }

  /** The search: the lower-cased query occurs in the lower-cased name, SKU or category. */
  predicate ItemMatches(item: InventoryItem, query: string) {
    var q := ToLower(query);
    Includes(ToLower(item.name), q) || Includes(ToLower(item.sku), q) || Includes(ToLower(item.category), q)
  }

  /** `filteredData`: the matching rows in their original order. */
  function FilterInventory(items: seq<InventoryItem>, query: string): (r: seq<InventoryItem>)
    ensures forall x :: x in r <==> x in items && ItemMatches(x, query)
    ensures IsSubsequence(r, items)
  {
    Filter(items, (x: InventoryItem) => ItemMatches(x, query))
  }

  /** Every matching row appears in the result as often as in the list; no other does. */
  lemma FilterInventoryCounts(items: seq<InventoryItem>, query: string)
    ensures forall x :: multiset(FilterInventory(items, query))[x] == if ItemMatches(x, query) then multiset(items)[x] else 0
  {
    FilterCounts(items, (x: InventoryItem) => ItemMatches(x, query));
  }

  /** An empty query keeps every row. */
  lemma EmptyQueryKeepsAllItems(items: seq<InventoryItem>)
    ensures FilterInventory(items, "") == items
  {
    forall x | x in items ensures ItemMatches(x, "") {
      EmptyIncluded(ToLower(x.name));
    }
    FilterKeepsAll(items, (x: InventoryItem) => ItemMatches(x, ""));
  }

  /** "Total de Productos": `filteredData.length`. */
  function ProductCount(filtered: seq<InventoryItem>): (n: nat)
    ensures n == 0 <==> filtered == []
  {
    |filtered|
  }

  /** "Stock Total": `filteredData.reduce((sum, item) => sum + item.stock, 0)`, a left fold. */
  function StockTotal(filtered: seq<InventoryItem>): (total: int)
    ensures filtered == [] ==> total == 0
    ensures (forall i :: 0 <= i < |filtered| ==> filtered[i].stock >= 0) ==> total >= 0
    decreases |filtered|
  {
    if filtered == [] then 0 else StockTotal(filtered[..|filtered| - 1]) + filtered[|filtered| - 1].stock
  }

  /** "Bajo Stock": the rows whose stock is under their minimum. */
  function LowStockCount(filtered: seq<InventoryItem>): (n: nat)
    ensures n <= ProductCount(filtered)
  {
    |Filter(filtered, (x: InventoryItem) => x.stock < x.minStock)|
  }

  /** "Próximos a Vencer": the rows with between 0 and 89 days left. */
  function NearExpiryCount(filtered: seq<InventoryItem>): (n: nat)
    ensures n <= ProductCount(filtered)
  {
    |Filter(filtered, (x: InventoryItem) => x.daysUntilExpiry < 90 && x.daysUntilExpiry >= 0)|
  }

  /** The stock total adds the rows up: over a concatenation it is the sum of the two totals. */
  lemma {:induction false} StockTotalAppend(a: seq<InventoryItem>, b: seq<InventoryItem>)
    ensures StockTotal(a + b) == StockTotal(a) + StockTotal(b)
    decreases |b|
  {
    if b == [] {
      assert a + b == a;
    } else {
      var b' := b[..|b| - 1];
      assert (a + b)[..|a + b| - 1] == a + b';
      StockTotalAppend(a, b');
    }
  }

  /**
   * The low-stock figure counts every row under its minimum, so besides the rows
   * badged "Bajo Stock" it also counts rows badged "Agotado" whose minimum is positive.
   */
  lemma LowStockCountsBothBadges(filtered: seq<InventoryItem>)
    ensures LowStockCount(filtered) ==
      |Filter(filtered, (x: InventoryItem) => GetStockStatus(x.stock, x.minStock) == LowStock)| +
      |Filter(filtered, (x: InventoryItem) => GetStockStatus(x.stock, x.minStock) == OutOfStock && x.stock < x.minStock)|
  {
    FilterLengthSplits(filtered,
      (x: InventoryItem) => x.stock < x.minStock,
      (x: InventoryItem) => GetStockStatus(x.stock, x.minStock) == LowStock,
      (x: InventoryItem) => GetStockStatus(x.stock, x.minStock) == OutOfStock && x.stock < x.minStock);
  }

  /** A row with no stock and a positive minimum is counted as low stock yet badged "Agotado". */
  lemma OutOfStockRowCountsAsLow(item: InventoryItem)
    requires item.stock <= 0 < item.minStock
    ensures LowStockCount([item]) == 1
    ensures GetStockStatus(item.stock, item.minStock).Status() == "Agotado"
  {
    assert Filter([item], (x: InventoryItem) => x.stock < x.minStock) == [item];
  }

  /** The near-expiry figure is exactly the number of rows badged "Próximo a vencer". */
  lemma NearExpiryCountMatchesBadge(filtered: seq<InventoryItem>)
    ensures NearExpiryCount(filtered) == |Filter(filtered, (x: InventoryItem) => GetExpiryStatus(x.daysUntilExpiry) == ExpiringSoon)|
  {
    FilterAgrees(filtered,
      (x: InventoryItem) => x.daysUntilExpiry < 90 && x.daysUntilExpiry >= 0,
      (x: InventoryItem) => GetExpiryStatus(x.daysUntilExpiry) == ExpiringSoon);
  }
}
