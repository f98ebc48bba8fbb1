/**
 * The cart panel (components/pos/cart.tsx): the totals folded over the lines,
 * the per-line total, the item badge, the quantity buttons and the gating of
 * the checkout button.
 */
module CartView {
  import opened Wrappers
  import opened CartItems

  /** IGV, the sales tax, as a fraction of the subtotal. */
  const TaxRate: real := 0.18

  /** `item.salePrice || 0`: a missing price counts as zero. */
  function PriceOrZero(l: Line): real {
    l.salePrice.GetOr(0.0)
  }

  /** The amount one line adds to the subtotal. */
  function LineAmount(l: Line): real {
    PriceOrZero(l) * (l.quantity as real)
  }

  /**
   * `items.reduce((sum, item) => sum + (item.salePrice || 0) * item.quantity, 0)`:
   * a left fold, so the last line is added last.
   */
  function Subtotal(lines: seq<Line>): (r: real)
    ensures lines == [] ==> r == 0.0
    decreases |lines|
  {
    if lines == [] then 0.0
    else Subtotal(lines[..|lines| - 1]) + LineAmount(lines[|lines| - 1])
  }

  /** `subtotal * 0.18` */
  function Tax(lines: seq<Line>): (r: real)
    ensures r == TaxRate * Subtotal(lines)
  {
    Subtotal(lines) * 0.18
  }

  /** `subtotal + tax` */
  function Total(lines: seq<Line>): (r: real)
    ensures r == (1.0 + TaxRate) * Subtotal(lines)
  {
    Subtotal(lines) + Tax(lines)
  }

  /**
   * The amount shown on a line, `item.salePrice * item.quantity`. Unlike the
   * subtotal it has no `|| 0` fallback: with no price the unit-price cell's
   * `toFixed` throws before this amount is reached, modelled here as `None`.
   */
  function LineTotal(l: Line): (r: Option<real>)
    ensures r.Some? <==> l.salePrice.Some?
    ensures r.Some? ==> r.value == LineAmount(l)
  {
    match l.salePrice
    case Some(price) => Some(price * (l.quantity as real))
    case None => None
  }

  /** The header badge: `items.length`, the number of lines. */
  function ItemBadge(lines: seq<Line>): (n: nat)
    ensures n == 0 <==> CheckoutDisabled(lines)
  {
    |lines|
  }

  /** The total number of units across all lines. */
  function Units(lines: seq<Line>): int
    decreases |lines|
  {
    if lines == [] then 0 else lines[0].quantity + Units(lines[1..])
  }

  /** `disabled={items.length === 0}` on the checkout button. */
  function CheckoutDisabled(lines: seq<Line>): (d: bool)
    ensures d <==> lines == []
  {
    |lines| == 0
  }

  /** The quantity the minus button requests for line `l`: `item.quantity - 1`. */
  function MinusRequest(l: Line): (q: int)
    ensures q < l.quantity
  {
    l.quantity - 1
  }

  /** The quantity the plus button requests for line `l`: `item.quantity + 1`. */
  function PlusRequest(l: Line): (q: int)
    ensures q > l.quantity
  {
    l.quantity + 1
  }

  /** The subtotal of a concatenation is the sum of the subtotals: the fold is a sum. */
  lemma {:induction false} SubtotalAppend(a: seq<Line>, b: seq<Line>)
    ensures Subtotal(a + b) == Subtotal(a) + Subtotal(b)
    decreases |b|
  {
    if b != [] {
      var b' := b[..|b| - 1];
      assert (a + b)[..|a + b| - 1] == a + b';
      SubtotalAppend(a, b');
    } else {
      assert a + b == a;
    }
  }

  /** The subtotal is the sum of the displayed line totals once every line has a price. */
  lemma {:induction false} SubtotalSumsLineTotals(lines: seq<Line>)
    requires forall i :: 0 <= i < |lines| ==> lines[i].salePrice.Some?
    ensures Subtotal(lines) == SumOfLineTotals(lines)
    decreases |lines|
  {
    if lines != [] {
      SubtotalAppend([lines[0]], lines[1..]);
      assert [lines[0]] + lines[1..] == lines;
      SubtotalSumsLineTotals(lines[1..]);
    }
  }

  /** Σ of `LineTotal` over the lines, right to left; meaningful only when every price is present. */
  function SumOfLineTotals(lines: seq<Line>): real
    decreases |lines|
  {
    if lines == [] then 0.0 else LineTotal(lines[0]).GetOr(0.0) + SumOfLineTotals(lines[1..])
  }

  /** With non-negative prices and quantities the subtotal, and so the tax and total, are non-negative. */
  lemma {:induction false} SubtotalNonNegative(lines: seq<Line>)
    requires forall i :: 0 <= i < |lines| ==> PriceOrZero(lines[i]) >= 0.0 && lines[i].quantity >= 0
    ensures Subtotal(lines) >= 0.0
    ensures 0.0 <= Tax(lines) <= Total(lines)
    decreases |lines|
  {
    if lines != [] {
      SubtotalNonNegative(lines[..|lines| - 1]);
    }
  }

  /** The badge counts lines, not units: it never exceeds the units when every line has one. */
  lemma {:induction false} BadgeAtMostUnits(lines: seq<Line>)
    requires QuantitiesPositive(lines)
    ensures ItemBadge(lines) <= Units(lines)
    ensures ItemBadge(lines) == Units(lines) <==> forall i :: 0 <= i < |lines| ==> lines[i].quantity == 1
    decreases |lines|
  {
    if lines != [] {
      BadgeAtMostUnits(lines[1..]);
      if ItemBadge(lines) == Units(lines) {
        assert lines[0].quantity == 1;
        forall i | 0 <= i < |lines| ensures lines[i].quantity == 1 {
          if i > 0 { assert lines[i] == lines[1..][i - 1]; }
        }
      }
    }
  }

  /**
   * Two carts that differ only in line `k` have subtotals that differ by exactly
   * the change in that line's amount.
   */
  lemma {:induction false} SubtotalChangeAt(a: seq<Line>, b: seq<Line>, k: nat)
    requires |a| == |b| && k < |a|
    requires forall i :: 0 <= i < |a| && i != k ==> a[i] == b[i]
    ensures Subtotal(b) == Subtotal(a) - LineAmount(a[k]) + LineAmount(b[k])
    decreases |a|
  {
    var n := |a| - 1;
    var a', b' := a[..n], b[..n];
    if k == n {
      assert a' == b';
    } else {
      SubtotalChangeAt(a', b', k);
    }
  }

  /** One more unit on a line adds that line's unit price to its amount. */
  lemma OneMoreUnit(l: Line)
    ensures LineAmount(l.(quantity := l.quantity + 1)) == LineAmount(l) + PriceOrZero(l)
  {
    var price := PriceOrZero(l);
    var q := l.quantity as real;
    assert LineAmount(l.(quantity := l.quantity + 1)) == price * (q + 1.0);
    assert price * (q + 1.0) == price * q + price;
  }

  /** Raising line `k` by one unit, and nothing else, raises the subtotal by that line's unit price. */
  lemma SubtotalOneMoreAt(a: seq<Line>, b: seq<Line>, k: nat)
    requires |a| == |b| && k < |a|
    requires b[k] == a[k].(quantity := a[k].quantity + 1)
    requires forall i :: 0 <= i < |a| && i != k ==> a[i] == b[i]
    ensures Subtotal(b) == Subtotal(a) + PriceOrZero(a[k])
  {
    SubtotalChangeAt(a, b, k);
    OneMoreUnit(a[k]);
  }
}
