/**
 * The point-of-sale page (app/pos/page.tsx): the cart store (`addToCart`,
 * `removeFromCart`, `updateQuantity`), the sale payload, the handling of the
 * sale submission's outcome, and the total passed to the checkout dialog.
 *
 * The pure functions below describe each operation on a cart value; the class
 * `PointOfSale` holds the page's state and its methods update it as the page's
 * `setCartItems` calls do.
 */
module PosPage {
  import opened Wrappers
  import opened Seqs
  import opened CartItems
  import opened CartView
  import opened CheckoutDialog
  import ProductGrid
  import ApiTypes

  // ---------------------------------------------------------------------------
  // The cart store as functions on cart values
  // ---------------------------------------------------------------------------

  /** `cartItems.find(item => item.id === id)`: the first line carrying `id`. */
  function FindLine(lines: seq<Line>, id: int): (r: Option<Line>)
    ensures r.None? <==> !HasId(lines, id)
    ensures r.Some? ==> exists k :: 0 <= k < |lines| && lines[k] == r.value && lines[k].id == id &&
                                    forall j :: 0 <= j < k ==> lines[j].id != id
    decreases |lines|
  {
    if lines == [] then None
    else if lines[0].id == id then Some(lines[0])
    else
      var r := FindLine(lines[1..], id);
      assert HasId(lines[1..], id) ==> HasId(lines, id) by {
        if HasId(lines[1..], id) {
          var k :| 0 <= k < |lines[1..]| && lines[1..][k].id == id;
          assert lines[k + 1].id == id;
        }
      }
      assert HasId(lines, id) ==> HasId(lines[1..], id) by {
        if HasId(lines, id) {
          var k :| 0 <= k < |lines| && lines[k].id == id;
          assert k != 0 && lines[1..][k - 1].id == id;
        }
      }
      assert r.Some? ==> exists k :: 0 <= k < |lines| && lines[k] == r.value && lines[k].id == id &&
                                     forall j :: 0 <= j < k ==> lines[j].id != id by {
        if r.Some? {
          var k :| 0 <= k < |lines[1..]| && lines[1..][k] == r.value && lines[1..][k].id == id &&
                   forall j :: 0 <= j < k ==> lines[1..][j].id != id;
          forall j | 0 <= j < k + 1 ensures lines[j].id != id {
            if j > 0 { assert lines[j] == lines[1..][j - 1]; }
          }
          assert lines[k + 1] == r.value;
        }
      }
      r
  }

  /** In a cart with unique ids, `find` returns the one line carrying the id. */
  lemma FindUnique(lines: seq<Line>, k: nat)
    requires UniqueIds(lines) && k < |lines|
    ensures FindLine(lines, lines[k].id) == Some(lines[k])
  {
    var id := lines[k].id;
    var r := FindLine(lines, id);
    assert HasId(lines, id);
    var k' :| 0 <= k' < |lines| && lines[k'] == r.value && lines[k'].id == id &&
              forall j :: 0 <= j < k' ==> lines[j].id != id;
    assert k' == k;
  }

  /**
   * `cartItems.map(item => item.id === id ? { ...item, quantity: f(item.quantity) } : item)`:
   * every line carrying `id` gets quantity `f` of its old one; the others stay as they were.
   */
  function MapQuantity(lines: seq<Line>, id: int, f: int -> int): (r: seq<Line>)
    ensures |r| == |lines|
    ensures forall i :: 0 <= i < |lines| ==>
      r[i] == if lines[i].id == id then lines[i].(quantity := f(lines[i].quantity)) else lines[i]
    decreases |lines|
  {
    if lines == [] then []
    else
      var l := lines[0];
      [if l.id == id then l.(quantity := f(l.quantity)) else l] + MapQuantity(lines[1..], id, f)
  }

  /** `addToCart` refuses a product whose line already holds at least its incoming stock. */
  predicate AddRejected(lines: seq<Line>, p: CartProduct): (rejected: bool)
    ensures rejected ==> exists k :: 0 <= k < |lines| && lines[k].id == p.id && lines[k].quantity >= p.stock
    ensures !HasId(lines, p.id) ==> !rejected
  {
    var existing := FindLine(lines, p.id);
    existing.Some? && existing.value.quantity >= p.stock
  }

  /**
   * The cart after `addToCart(p)`: unchanged when rejected, the existing line
   * incremented by one, or a new line with quantity 1 appended at the end.
   * The bound is checked against the incoming `p.stock`, not the line's stored one.
   */
  function Added(lines: seq<Line>, p: CartProduct): (r: seq<Line>)
    ensures AddRejected(lines, p) ==> r == lines
    ensures HasId(lines, p.id) && !AddRejected(lines, p) ==>
      |r| == |lines| &&
      forall i :: 0 <= i < |lines| ==>
        r[i] == if lines[i].id == p.id then lines[i].(quantity := lines[i].quantity + 1) else lines[i]
    ensures !HasId(lines, p.id) ==> r == lines + [NewLine(p)]
  {
    var existing := FindLine(lines, p.id);
    if existing.Some? && existing.value.quantity >= p.stock then lines
    else if existing.Some? then MapQuantity(lines, p.id, q => q + 1)
    else lines + [NewLine(p)]
  }

  /**
   * The cart after `removeFromCart(id)`: every line carrying `id` is gone and
   * the rest keep their order; an absent id changes nothing.
   */
  function Removed(lines: seq<Line>, id: int): (r: seq<Line>)
    ensures forall l :: l in r <==> l in lines && l.id != id
    ensures IsSubsequence(r, lines)
    ensures !HasId(r, id)
    ensures !HasId(lines, id) ==> r == lines
  {
    var r := Filter(lines, (l: Line) => l.id != id);
    assert !HasId(r, id) by {
      forall i | 0 <= i < |r| ensures r[i].id != id {
        assert r[i] in r;
      }
    }
    assert !HasId(lines, id) ==> r == lines by {
      if !HasId(lines, id) {
        FilterKeepsAll(lines, (l: Line) => l.id != id);
      }
    }
    r
  }

  /** Removing keeps every copy of a line with another id and no line with `id`. */
  lemma RemovedCounts(lines: seq<Line>, id: int)
    ensures forall l :: multiset(Removed(lines, id))[l] == if l.id != id then multiset(lines)[l] else 0
  {
    FilterCounts(lines, (l: Line) => l.id != id);
  }

  /** `updateQuantity` refuses a positive quantity above the stored stock of the line it targets. */
  predicate UpdateRejected(lines: seq<Line>, id: int, quantity: int): (rejected: bool)
    ensures rejected ==> quantity > 0 && exists k :: 0 <= k < |lines| && lines[k].id == id && quantity > lines[k].stock
    ensures quantity <= 0 || !HasId(lines, id) ==> !rejected
  {
    var item := FindLine(lines, id);
    quantity > 0 && item.Some? && quantity > item.value.stock
  }

  /**
   * The cart after `updateQuantity(id, quantity)`: a quantity of zero or less
   * removes the line; one above the line's stored stock is refused; otherwise
   * the line's quantity is overwritten. An absent id changes nothing.
   */
  function Updated(lines: seq<Line>, id: int, quantity: int): (r: seq<Line>)
    ensures quantity <= 0 ==> r == Removed(lines, id)
    ensures quantity > 0 && !HasId(lines, id) ==> r == lines
    ensures UpdateRejected(lines, id, quantity) ==> r == lines
    ensures quantity > 0 && !UpdateRejected(lines, id, quantity) ==>
      |r| == |lines| &&
      forall i :: 0 <= i < |lines| ==>
        r[i] == if lines[i].id == id then lines[i].(quantity := quantity) else lines[i]
  {
    if quantity <= 0 then Removed(lines, id)
    else
      var item := FindLine(lines, id);
      if item.Some? && quantity > item.value.stock then lines
      else MapQuantity(lines, id, _ => quantity)
  }

  // ---------------------------------------------------------------------------
  // Invariants the cart operations keep
  // ---------------------------------------------------------------------------

  /** Adding keeps ids unique and quantities positive, so any sequence of adds does. */
  lemma AddKeepsInvariant(lines: seq<Line>, p: CartProduct)
    requires CartInvariant(lines)
    ensures CartInvariant(Added(lines, p))
  {
    var r := Added(lines, p);
    if !HasId(lines, p.id) {
      forall i, j | 0 <= i < j < |r| ensures r[i].id != r[j].id {
        if j == |lines| {
          assert r[i] == lines[i];
        }
      }
    }
  }

  /** Removing keeps ids unique and quantities positive. */
  lemma RemoveKeepsInvariant(lines: seq<Line>, id: int)
    requires CartInvariant(lines)
    ensures CartInvariant(Removed(lines, id))
  {
    var keep := (l: Line) => l.id != id;
    var key := (l: Line) => l.id;
    FilterKeepsKeysDistinct(lines, keep, key);
    var r := Removed(lines, id);
    forall i | 0 <= i < |r| ensures r[i].quantity >= 1 {
      assert r[i] in lines;
    }
  }

  /** Updating keeps ids unique and quantities positive. */
  lemma UpdateKeepsInvariant(lines: seq<Line>, id: int, quantity: int)
    requires CartInvariant(lines)
    ensures CartInvariant(Updated(lines, id, quantity))
  {
    if quantity <= 0 {
      RemoveKeepsInvariant(lines, id);
    }
  }

  /**
   * Updating never takes a line above its stored stock: the refusal compares
   * against the stored snapshot of the line it changes.
   */
  lemma UpdateKeepsWithinStock(lines: seq<Line>, id: int, quantity: int)
    requires CartInvariant(lines) && WithinStock(lines)
    ensures WithinStock(Updated(lines, id, quantity))
  {
    var r := Updated(lines, id, quantity);
    if quantity <= 0 {
      forall i | 0 <= i < |r| ensures r[i].quantity <= r[i].stock {
        assert r[i] in lines;
      }
    } else if HasId(lines, id) && !UpdateRejected(lines, id, quantity) {
      forall i | 0 <= i < |r| ensures r[i].quantity <= r[i].stock {
        if lines[i].id == id {
          FindUnique(lines, i);
        }
      }
    }
  }

  /**
   * Adding keeps every line within its stored stock when the product arrives
   * with positive stock no larger than the stored snapshot of its line.
   */
  lemma AddKeepsWithinStock(lines: seq<Line>, p: CartProduct)
    requires CartInvariant(lines) && WithinStock(lines)
    requires p.stock >= 1
    requires forall i :: 0 <= i < |lines| && lines[i].id == p.id ==> p.stock <= lines[i].stock
    ensures WithinStock(Added(lines, p))
  {
    var r := Added(lines, p);
    if HasId(lines, p.id) && !AddRejected(lines, p) {
      forall i | 0 <= i < |r| ensures r[i].quantity <= r[i].stock {
        if lines[i].id == p.id {
          FindUnique(lines, i);
        }
      }
    }
  }

  /**
   * What the grid's enabled "+" button hands over always has stock of at least
   * one, so adding it keeps every line within its stored stock as long as the
   * grid's stock has not grown past what the product's line recorded.
   */
  lemma GridAddKeepsWithinStock(lines: seq<Line>, product: ApiTypes.Product)
    requires CartInvariant(lines) && WithinStock(lines)
    requires ProductGrid.PressAdd(product).Some?
    requires forall i :: 0 <= i < |lines| && lines[i].id == product.id ==> ProductGrid.CurrentStock(product) <= lines[i].stock
    ensures WithinStock(Added(lines, ProductGrid.PressAdd(product).value))
    ensures CartInvariant(Added(lines, ProductGrid.PressAdd(product).value))
  {
    var p := ProductGrid.PressAdd(product).value;
    AddKeepsWithinStock(lines, p);
    AddKeepsInvariant(lines, p);
  }

  /**
   * Because re-adding checks the incoming stock rather than the stored one, a
   * product that comes back with more stock than its line recorded can push the
   * line past that record.
   */
  lemma StaleSnapshotExceedsStoredStock()
    ensures var lines := [Line(7, "Paracetamol", Some(1.5), 1, 1)];
            var p := CartProduct(7, "Paracetamol", Some(1.5), 5);
            WithinStock(lines) && !AddRejected(lines, p) && !WithinStock(Added(lines, p))
  {
    var lines := [Line(7, "Paracetamol", Some(1.5), 1, 1)];
    var p := CartProduct(7, "Paracetamol", Some(1.5), 5);
    assert HasId(lines, 7) by { assert lines[0].id == 7; }
    FindUnique(lines, 0);
    assert Added(lines, p)[0].quantity == 2;
  }

  // ---------------------------------------------------------------------------
  // Adding repeatedly, and the cart panel's buttons
  // ---------------------------------------------------------------------------

  /** `n` consecutive `addToCart(p)` calls. */
  function AddTimes(lines: seq<Line>, p: CartProduct, n: nat): seq<Line>
    decreases n
  {
    if n == 0 then lines else Added(AddTimes(lines, p, n - 1), p)
  }

  /** When no earlier line carries the id of a line appended at the end, `find` returns that line. */
  lemma FindAfterAbsent(lines: seq<Line>, last: Line)
    requires !HasId(lines, last.id)
    ensures FindLine(lines + [last], last.id) == Some(last)
  {
    var cart := lines + [last];
    assert cart[|lines|] == last;
    assert HasId(cart, last.id);
    var found := FindLine(cart, last.id);
    var k :| 0 <= k < |cart| && cart[k] == found.value && cart[k].id == last.id &&
             forall j :: 0 <= j < k ==> cart[j].id != last.id;
    forall j | 0 <= j < |lines| ensures cart[j].id != last.id {
      assert cart[j] == lines[j];
    }
    assert k == |lines|;
  }

  /**
   * Re-adding the product of the last line, when no earlier line carries its
   * id, touches only that last line.
   */
  lemma AddToLastLine(lines: seq<Line>, last: Line, p: CartProduct)
    requires !HasId(lines, p.id) && last.id == p.id
    ensures Added(lines + [last], p) ==
      if last.quantity >= p.stock then lines + [last] else lines + [last.(quantity := last.quantity + 1)]
  {
    var cart := lines + [last];
    FindAfterAbsent(lines, last);
    assert HasId(cart, p.id);
    if last.quantity < p.stock {
      var r := Added(cart, p);
      forall i | 0 <= i < |lines| ensures r[i] == lines[i] {
        assert cart[i] == lines[i];
        assert lines[i].id != p.id;
      }
      assert r == lines + [last.(quantity := last.quantity + 1)];
    }
  }

  /** The quantity `n` adds of a new product leave: `n`, capped at the incoming stock, and at least 1. */
  function CappedQuantity(p: CartProduct, n: nat): int {
    if n <= p.stock then n else if p.stock >= 1 then p.stock else 1
  }

  /** One more add moves the cap from `n` adds to `n + 1` adds exactly as a merge or a refusal does. */
  lemma CappedStep(p: CartProduct, n: nat)
    requires n >= 1
    ensures CappedQuantity(p, n + 1) ==
      if CappedQuantity(p, n) >= p.stock then CappedQuantity(p, n) else CappedQuantity(p, n) + 1
  {
  }

  /** One more add of the product on the last line moves its quantity from the `n`-add cap to the `n + 1`-add cap. */
  lemma AddOnceMore(lines: seq<Line>, p: CartProduct, n: nat)
    requires !HasId(lines, p.id) && n >= 1
    requires AddTimes(lines, p, n) == lines + [NewLine(p).(quantity := CappedQuantity(p, n))]
    ensures AddTimes(lines, p, n + 1) == lines + [NewLine(p).(quantity := CappedQuantity(p, n + 1))]
  {
    var last := NewLine(p).(quantity := CappedQuantity(p, n));
    calc {
      AddTimes(lines, p, n + 1);
      Added(AddTimes(lines, p, n), p);
      Added(lines + [last], p);
      { AddToLastLine(lines, last, p); }
      if last.quantity >= p.stock then lines + [last] else lines + [last.(quantity := last.quantity + 1)];
      { CappedStep(p, n); }
      lines + [NewLine(p).(quantity := CappedQuantity(p, n + 1))];
    }
  }

  /**
   * Adding a product that is not in the cart `n >= 1` times yields one line for
   * it, at the end, with quantity `n` capped at the incoming stock (at least 1,
   * since the first add is never checked).
   */
  lemma {:induction false} RepeatedAdd(lines: seq<Line>, p: CartProduct, n: nat)
    requires !HasId(lines, p.id) && n >= 1
    ensures AddTimes(lines, p, n) == lines + [NewLine(p).(quantity := CappedQuantity(p, n))]
    ensures 1 <= CappedQuantity(p, n) <= n
    ensures p.stock >= 1 ==> CappedQuantity(p, n) <= p.stock
    decreases n
  {
    if n > 1 {
      RepeatedAdd(lines, p, n - 1);
      AddOnceMore(lines, p, n - 1);
    }
  }

  /**
   * The plus button (`updateQuantity(id, quantity + 1)`) and re-adding the same
   * product agree whenever the product comes back with the stock its line stored.
   */
  lemma PlusAgreesWithReAdd(lines: seq<Line>, k: nat, p: CartProduct)
    requires CartInvariant(lines) && k < |lines|
    requires p.id == lines[k].id && p.stock == lines[k].stock
    ensures Updated(lines, p.id, PlusRequest(lines[k])) == Added(lines, p)
  {
    FindUnique(lines, k);
    assert HasId(lines, p.id);
  }

  /** The minus button on a line holding one unit removes that line. */
  lemma MinusOnLastUnitRemoves(lines: seq<Line>, k: nat)
    requires k < |lines| && lines[k].quantity == 1
    ensures Updated(lines, lines[k].id, MinusRequest(lines[k])) == Removed(lines, lines[k].id)
    ensures !HasId(Updated(lines, lines[k].id, MinusRequest(lines[k])), lines[k].id)
  {
  }

  /** The minus button on a line holding more than one unit lowers only that line, by one. */
  lemma MinusLowersByOne(lines: seq<Line>, k: nat)
    requires CartInvariant(lines) && WithinStock(lines) && k < |lines| && lines[k].quantity > 1
    ensures var r := Updated(lines, lines[k].id, MinusRequest(lines[k]));
            |r| == |lines| && r[k].quantity == lines[k].quantity - 1 &&
            forall i :: 0 <= i < |lines| && i != k ==> r[i] == lines[i]
  {
    FindUnique(lines, k);
    assert HasId(lines, lines[k].id);
  }

  // ---------------------------------------------------------------------------
  // Totals
  // ---------------------------------------------------------------------------

  /**
   * `subtotal * 1.18`, the amount shown in the checkout dialog; it equals the
   * panel's `subtotal + subtotal * 0.18` over exact arithmetic.
   */
  function TotalAmount(lines: seq<Line>): (r: real)
    ensures r == Total(lines)
    ensures r == Subtotal(lines) + Tax(lines)
  {
    Subtotal(lines) * 1.18
  }

  /**
   * In a cart with unique ids, an accepted re-add raises line `k` by exactly
   * one unit and leaves every other line, and the order, as it was.
   */
  lemma MergeTouchesOnlyLine(lines: seq<Line>, p: CartProduct, k: nat)
    requires CartInvariant(lines) && k < |lines| && lines[k].id == p.id && !AddRejected(lines, p)
    ensures |Added(lines, p)| == |lines|
    ensures Added(lines, p)[k] == lines[k].(quantity := lines[k].quantity + 1)
    ensures forall i :: 0 <= i < |lines| && i != k ==> Added(lines, p)[i] == lines[i]
  {
    var r := Added(lines, p);
    assert HasId(lines, p.id);
    forall i | 0 <= i < |lines| && i != k ensures r[i] == lines[i] {
      assert lines[i].id != p.id;
    }
  }

  /** Merging into line `k` raises the subtotal by that line's unit price. */
  lemma MergeRaisesSubtotal(lines: seq<Line>, p: CartProduct, k: nat)
    requires CartInvariant(lines) && k < |lines| && lines[k].id == p.id && !AddRejected(lines, p)
    ensures Subtotal(Added(lines, p)) == Subtotal(lines) + PriceOrZero(lines[k])
  {
    MergeTouchesOnlyLine(lines, p, k);
    SubtotalOneMoreAt(lines, Added(lines, p), k);
  }

  /**
   * An accepted add raises the subtotal by one unit's price: the stored line's
   * price when merging, the product's own price when appending.
   */
  lemma AddRaisesSubtotal(lines: seq<Line>, p: CartProduct)
    requires CartInvariant(lines) && !AddRejected(lines, p)
    ensures HasId(lines, p.id) ==>
      Subtotal(Added(lines, p)) == Subtotal(lines) + PriceOrZero(FindLine(lines, p.id).value)
    ensures !HasId(lines, p.id) ==>
      Subtotal(Added(lines, p)) == Subtotal(lines) + p.salePrice.GetOr(0.0)
  {
    if HasId(lines, p.id) {
      var k :| 0 <= k < |lines| && lines[k].id == p.id;
      FindUnique(lines, k);
      MergeRaisesSubtotal(lines, p, k);
    } else {
      SubtotalAppend(lines, [NewLine(p)]);
      assert Subtotal([NewLine(p)]) == Subtotal([]) + LineAmount(NewLine(p));
    }
  }

  // ---------------------------------------------------------------------------
  // The sale submission
  // ---------------------------------------------------------------------------

  /** One entry of the payload's `items`. */
  datatype SaleItem = SaleItem(productId: int, quantity: int)

  /** The body of `POST /sales`. */
  datatype SalePayload = SalePayload(clientDni: string, clientName: string, sellerId: int, items: seq<SaleItem>)

  /** The signed-in user as the session stores it; the record may lack an `id`. */
  datatype SessionUser = SessionUser(id: Option<int>)

  /** `user?.id || 1`: the user's id when present and non-zero, else 1. */
  function SellerId(user: Option<SessionUser>): (id: int)
    ensures id != 0
    ensures user.Some? && user.value.id.Some? && user.value.id.value != 0 ==> id == user.value.id.value
    ensures user.None? || user.value.id.None? || user.value.id.value == 0 ==> id == 1
  {
    if user.Some? && user.value.id.Some? && user.value.id.value != 0 then user.value.id.value else 1
  }

  /** `cartItems.map(item => ({ productId: item.id, quantity: item.quantity }))` */
  function SaleItems(lines: seq<Line>): (items: seq<SaleItem>)
    ensures |items| == |lines|
    ensures forall i :: 0 <= i < |lines| ==> items[i] == SaleItem(lines[i].id, lines[i].quantity)
    decreases |lines|
  {
    if lines == [] then [] else [SaleItem(lines[0].id, lines[0].quantity)] + SaleItems(lines[1..])
  }

  /** `salePayload`: the buyer as the dialog submitted it, the seller, and one item per line. */
  function BuildPayload(client: ClientData, user: Option<SessionUser>, lines: seq<Line>): (s: SalePayload)
    ensures s.clientDni == client.dni && s.clientName == client.name
    ensures s.sellerId == SellerId(user)
    ensures s.items == SaleItems(lines)
  {
    SalePayload(client.dni, client.name, SellerId(user), SaleItems(lines))
  }

  /** A cart that keeps its invariant yields a payload naming each product once, each with a positive quantity. */
  lemma PayloadNamesEachProductOnce(client: ClientData, user: Option<SessionUser>, lines: seq<Line>)
    requires CartInvariant(lines)
    ensures var items := BuildPayload(client, user, lines).items;
            (forall i, j :: 0 <= i < j < |items| ==> items[i].productId != items[j].productId) &&
            (forall i :: 0 <= i < |items| ==> items[i].quantity >= 1)
  {
  }

  /** What the `fetch` to `/sales` yields: a 2xx with the sale's id, a non-2xx with an optional message, or a thrown error. */
  datatype SaleResponse = Accepted(saleId: int) | Rejected(message: Option<string>) | NetworkFailure(error: string)

  /** How `handleConfirmSale` ends. */
  datatype SaleOutcome = NoToken | Ok(saleId: int) | Fail(message: string)

  /** The fallback text when a refusal carries no message. */
  const DefaultSaleError: string := "Error al procesar venta (Posiblemente sesión expirada)"

  /** `!token` is false: a token is stored and it is not the empty string. */
  predicate HasToken(token: Option<string>): (present: bool)
    ensures token.None? || token == Some("") ==> !present
    ensures present ==> |token.value| > 0
  {
    token.Some? && token.value != ""
  }

  /**
   * The outcome of a confirmation: without a token nothing is sent; otherwise
   * the response decides, and a refusal reports the server's message or the fallback.
   */
  function SaleOutcomeOf(token: Option<string>, response: SaleResponse): (o: SaleOutcome)
    ensures o.NoToken? <==> !HasToken(token)
    ensures o.Ok? <==> HasToken(token) && response.Accepted?
    ensures o.Ok? ==> o.saleId == response.saleId
    ensures HasToken(token) && response.Rejected? ==>
      o.Fail? && o.message != "" &&
      (response.message.Some? && response.message.value != "" ==> o.message == response.message.value)
    ensures HasToken(token) && response.NetworkFailure? ==> o == Fail(response.error)
  {
    if !HasToken(token) then NoToken
    else match response
      case Accepted(id) => Ok(id)
      case Rejected(m) => Fail(if m.Some? && m.value != "" then m.value else DefaultSaleError)
      case NetworkFailure(m) => Fail(m)
  }

  /** The cart after a confirmation: emptied on success only. */
  function CartAfterSale(lines: seq<Line>, o: SaleOutcome): (r: seq<Line>)
    ensures o.Ok? ==> r == []
    ensures !o.Ok? ==> r == lines
  {
    if o.Ok? then [] else lines
  }

  // ---------------------------------------------------------------------------
  // The page's state
  // ---------------------------------------------------------------------------

  /** The state the page keeps: the cart and the two flags of the checkout dialog. */
  class PointOfSale {
    var cartItems: seq<Line>
    var isCheckoutOpen: bool
    var isProcessing: bool

    ghost predicate Valid()
      reads this
    {
      CartInvariant(cartItems)
    }

    constructor ()
      ensures Valid()
      ensures cartItems == [] && !isCheckoutOpen && !isProcessing
    {
      cartItems := [];
      isCheckoutOpen := false;
      isProcessing := false;
    }

    /**
     * `addToCart(product)`; `accepted` is false where the page alerts "Stock insuficiente".
     * The body follows the page's own if/return flow; `Added` is its specification.
     */
    method AddToCart(p: CartProduct) returns (accepted: bool)
      requires Valid()
      modifies this
      ensures Valid()
      ensures accepted <==> !AddRejected(old(cartItems), p)
      ensures cartItems == Added(old(cartItems), p)
      ensures isCheckoutOpen == old(isCheckoutOpen) && isProcessing == old(isProcessing)
    {
      AddKeepsInvariant(cartItems, p);
      var existing := FindLine(cartItems, p.id);
      if existing.Some? && existing.value.quantity >= p.stock {
        return false;
      }
      if existing.Some? {
        cartItems := MapQuantity(cartItems, p.id, q => q + 1);
      } else {
        cartItems := cartItems + [NewLine(p)];
      }
      accepted := true;
    }

    /** `removeFromCart(productId)` */
    method RemoveFromCart(id: int)
      requires Valid()
      modifies this
      ensures Valid()
      ensures cartItems == Removed(old(cartItems), id)
      ensures isCheckoutOpen == old(isCheckoutOpen) && isProcessing == old(isProcessing)
    {
      RemoveKeepsInvariant(cartItems, id);
      cartItems := Removed(cartItems, id);
    }

    /**
     * `updateQuantity(productId, quantity)`; `accepted` is false where the page alerts "Stock máximo alcanzado".
     * The body follows the page's own if/return flow; `Updated` is its specification.
     */
    method UpdateQuantity(id: int, quantity: int) returns (accepted: bool)
      requires Valid()
      modifies this
      ensures Valid()
      ensures accepted <==> !UpdateRejected(old(cartItems), id, quantity)
      ensures cartItems == Updated(old(cartItems), id, quantity)
      ensures isCheckoutOpen == old(isCheckoutOpen) && isProcessing == old(isProcessing)
    {
      UpdateKeepsInvariant(cartItems, id, quantity);
      if quantity <= 0 {
        RemoveFromCart(id);
        return true;
      }
      var item := FindLine(cartItems, id);
      if item.Some? && quantity > item.value.stock {
        return false;
      }
      cartItems := MapQuantity(cartItems, id, _ => quantity);
      accepted := true;
    }

    /** The cart's checkout button, which is disabled on an empty cart. */
    method CheckoutClick()
      modifies this
      ensures isCheckoutOpen == (old(isCheckoutOpen) || !CheckoutDisabled(cartItems))
      ensures cartItems == old(cartItems) && isProcessing == old(isProcessing)
    {
      if !CheckoutDisabled(cartItems) {
        isCheckoutOpen := true;
      }
    }

    /**
     * `handleConfirmSale(client)`. The stored token, the signed-in user and the
     * server's response are inputs. Without a token nothing is sent; otherwise
     * the payload is built from the cart as it stands, and only a success
     * empties the cart and closes the dialog. Processing is over at the end.
     * The body follows the page's try/catch/finally flow; `SaleOutcomeOf` is
     * its specification.
     */
    method HandleConfirmSale(client: ClientData, token: Option<string>, user: Option<SessionUser>, response: SaleResponse)
      returns (outcome: SaleOutcome, sent: Option<SalePayload>)
      requires Valid()
      modifies this
      ensures Valid()
      ensures outcome == SaleOutcomeOf(token, response)
      ensures sent.None? <==> outcome.NoToken?
      ensures sent.Some? ==> sent.value == BuildPayload(client, user, old(cartItems))
      ensures cartItems == CartAfterSale(old(cartItems), outcome)
      ensures isCheckoutOpen == (if outcome.Ok? then false else old(isCheckoutOpen))
      ensures !isProcessing
    {
      isProcessing := true;
      if !HasToken(token) {
        isProcessing := false;
        return NoToken, None;
      }
      var payload := BuildPayload(client, user, cartItems);
      sent := Some(payload);
      match response {
        case Accepted(id) =>
          outcome := Ok(id);
          cartItems := [];
          isCheckoutOpen := false;
        case Rejected(m) =>
          outcome := Fail(if m.Some? && m.value != "" then m.value else DefaultSaleError);
        case NetworkFailure(m) =>
          outcome := Fail(m);
      }
      isProcessing := false;
    }
  }

  /** A short session: two adds of one product and a successful sale leave an empty cart. */
  method AddTwiceThenSell(p: CartProduct, client: ClientData, saleId: int) returns (total: real, sent: Option<SalePayload>)
    requires p.stock >= 2
    ensures total == (p.salePrice.GetOr(0.0) * 2.0) * 1.18
    ensures sent == Some(SalePayload(client.dni, client.name, 1, [SaleItem(p.id, 2)]))
  {
    var pos := new PointOfSale();
    var ok1 := pos.AddToCart(p);
    assert pos.cartItems == [NewLine(p)];
    assert pos.cartItems[0].id == p.id;
    FindUnique(pos.cartItems, 0);
    var ok2 := pos.AddToCart(p);
    assert pos.cartItems == [NewLine(p).(quantity := 2)];
    total := TotalAmount(pos.cartItems);
    assert Subtotal(pos.cartItems) == Subtotal([]) + LineAmount(pos.cartItems[0]);
    var cart := pos.cartItems;
    assert SaleItems(cart) == [SaleItem(p.id, 2)];
    var outcome;
    outcome, sent := pos.HandleConfirmSale(client, Some("token"), None, Accepted(saleId));
    assert pos.cartItems == [];
  }
}
