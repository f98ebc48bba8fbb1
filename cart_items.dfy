/**
 * The shapes that flow into and live in the point-of-sale cart: the product the
 * grid hands over when "+" is pressed, and a cart line, which is that product
 * with a `quantity` added (`{ ...product, quantity: 1 }`).
 */
module CartItems {
  import opened Wrappers

  /** The object handed to `addToCart`: a product with its stock at the moment of the click. */
  datatype CartProduct = CartProduct(id: int, name: string, salePrice: Option<real>, stock: int)

  /** One cart line. `stock` is the snapshot taken when the line was first added. */
  datatype Line = Line(id: int, name: string, salePrice: Option<real>, stock: int, quantity: int)

  /** The line appended for a product that is not yet in the cart. */
  function NewLine(p: CartProduct): (l: Line)
    ensures l.id == p.id && l.stock == p.stock && l.salePrice == p.salePrice && l.quantity == 1
  {
    Line(p.id, p.name, p.salePrice, p.stock, 1)
  }

  /** No two lines share a product id. */
  ghost predicate UniqueIds(lines: seq<Line>) {
    forall i, j :: 0 <= i < j < |lines| ==> lines[i].id != lines[j].id
  }

  /** Every line has at least one unit. */
  ghost predicate QuantitiesPositive(lines: seq<Line>) {
    forall i :: 0 <= i < |lines| ==> lines[i].quantity >= 1
  }

  /** No line holds more units than its stored stock snapshot. */
  ghost predicate WithinStock(lines: seq<Line>) {
    forall i :: 0 <= i < |lines| ==> lines[i].quantity <= lines[i].stock
  }

  /** The cart's structural invariant: ids are unique and quantities are positive. */
  ghost predicate CartInvariant(lines: seq<Line>) {
    UniqueIds(lines) && QuantitiesPositive(lines)
  }

  /** Some line carries product id `id`. */
  ghost predicate HasId(lines: seq<Line>, id: int) {
    exists i :: 0 <= i < |lines| && lines[i].id == id
  }
}
