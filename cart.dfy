/**
 * The cart-value transformations of the storefront's cart view
 * (client/src/components/cart.jsx): raising and lowering one item's
 * quantity, and the total amount. Each is a pure function from a cart
 * value to a new cart value; storing the result and syncing it with the
 * server are the caller's business.
 */
module CartView {

  import opened Wrappers

  /** The fetch-status tag the cart store keeps next to the items. */
  datatype Status = Idle | Fetching | Fetched | Failed

  /** One line of the cart; `id` is the product's `_id`, `price` is in whole rupees. */
  datatype Item = Item(id: string, name: string, price: nat, quantity: int, stock: int)

  /** The cart value; `items` is `None` while the store holds `null` or `undefined`. */
  datatype Cart = Cart(status: Status, items: Option<seq<Item>>)

  /** A well-formed line: at least one unit, and no more than the stock. */
  predicate ValidItem(item: Item) {
    1 <= item.quantity <= item.stock
  }

  /** No two lines share an id. */
  predicate UniqueIds(s: seq<Item>) {
    forall i, j :: 0 <= i < j < |s| ==> s[i].id != s[j].id
  }

  /** The invariant the cart is meant to keep: every line well formed, ids unique. */
  predicate ValidItems(s: seq<Item>) {
    UniqueIds(s) && forall i :: 0 <= i < |s| ==> ValidItem(s[i])
  }

  /** `item` agrees with `orig` on every field except, possibly, the quantity. */
  predicate SameButQuantity(item: Item, orig: Item) {
    item == orig.(quantity := item.quantity)
  }

  // ---------------------------------------------------------------- increase

  /** The callback given to `items.map` by the increase handler. */
  function BumpItem(item: Item, id: string): Item {
    if item.id == id && item.quantity < item.stock then item.(quantity := item.quantity + 1) else item
  }

  /**
   * The new item sequence after pressing "+" for `id`: every line keeps its
   * position and every field but the quantity; only a line with that id and
   * room below its stock gains one unit, so a line within its stock stays
   * within it.
   */
  function IncreaseItems(s: seq<Item>, id: string): (r: seq<Item>)
    ensures |r| == |s|
    ensures forall i :: 0 <= i < |s| ==> SameButQuantity(r[i], s[i])
    ensures forall i :: 0 <= i < |s| ==> s[i].quantity <= r[i].quantity <= s[i].quantity + 1
    ensures forall i :: 0 <= i < |s| ==> (r[i].quantity != s[i].quantity <==> s[i].id == id && s[i].quantity < s[i].stock)
    ensures forall i :: 0 <= i < |s| && s[i].quantity <= s[i].stock ==> r[i].quantity <= r[i].stock
  {
    seq(|s|, i requires 0 <= i < |s| => BumpItem(s[i], id))
  }

  /**
   * handleIncreaseQuantity: with no items the handler returns before
   * touching the cart; otherwise the status becomes `Fetched` whether or not
   * a line changed.
   */
  function Increase(cart: Cart, id: string): (r: Cart)
    ensures cart.items.None? ==> r == cart
    ensures cart.items.Some? ==> r.status == Fetched && r.items.Some?
    ensures cart.items.Some? ==> r.items.value == IncreaseItems(cart.items.value, id)
  {
    match cart.items
    case None => cart
    case Some(s) => cart.(status := Fetched, items := Some(IncreaseItems(s, id)))
  }

  // ---------------------------------------------------------------- decrease

  /** The callback given to `items.reduce` by the decrease handler. */
  function DecreaseStep(acc: seq<Item>, item: Item, id: string): seq<Item> {
    if item.id == id then
      if item.quantity > 1 then acc + [item.(quantity := item.quantity - 1)] else acc
    else
      acc + [item]
  }

  /** `items.reduce(DecreaseStep, acc)`, folding from the left as `reduce` does. */
  function DecreaseFold(acc: seq<Item>, s: seq<Item>, id: string): seq<Item>
    decreases |s|
  {
    if s == [] then acc else DecreaseFold(DecreaseStep(acc, s[0], id), s[1..], id)
  }

  /** What one line contributes to the result of a decrease: itself, itself one unit lower, or nothing. */
  function DecrementedLine(item: Item, id: string): seq<Item> {
    if item.id != id then [item]
    else if item.quantity > 1 then [item.(quantity := item.quantity - 1)]
    else []
  }

  /**
   * The result of a decrease as a filter-map, line by line from the front:
   * the reference definition the fold is proved equal to.
   */
  function Decremented(s: seq<Item>, id: string): (r: seq<Item>)
    ensures |r| <= |s|
  {
    if s == [] then [] else DecrementedLine(s[0], id) + Decremented(s[1..], id)
  }

  /** The fold run from an empty accumulator computes the filter-map. */
  lemma {:induction false} DecreaseFoldIsDecremented(acc: seq<Item>, s: seq<Item>, id: string)
    ensures DecreaseFold(acc, s, id) == acc + Decremented(s, id)
    decreases |s|
  {
    if s != [] {
      var acc' := DecreaseStep(acc, s[0], id);
      assert acc' == acc + DecrementedLine(s[0], id);
      DecreaseFoldIsDecremented(acc', s[1..], id);
      assert acc' + Decremented(s[1..], id) == acc + (DecrementedLine(s[0], id) + Decremented(s[1..], id));
    }
  }

  /**
   * handleDecreaseQuantity: with no items the handler returns before
   * touching the cart; otherwise the status becomes `Fetched` and the items
   * are the fold's result, which is the filter-map `Decremented`.
   */
  function Decrease(cart: Cart, id: string): (r: Cart)
    ensures cart.items.None? ==> r == cart
    ensures cart.items.Some? ==> r.status == Fetched && r.items.Some?
    ensures cart.items.Some? ==> r.items.value == Decremented(cart.items.value, id)
  {
    match cart.items
    case None => cart
    case Some(s) =>
      DecreaseFoldIsDecremented([], s, id);
      cart.(status := Fetched, items := Some(DecreaseFold([], s, id)))
  }

  // ------------------------------------------------------------------- total

  /** What one line adds to the total. */
  function LineAmount(item: Item): int {
    item.price * item.quantity
  }

  /** The sum over the lines of price times quantity: the reference definition of the total. */
  function Sum(s: seq<Item>): int {
    if s == [] then 0 else LineAmount(s[0]) + Sum(s[1..])
  }

  /** `items.reduce((total, item) => total + price * quantity, acc)`, from the left. */
  function TotalFold(acc: int, s: seq<Item>): int
    decreases |s|
  {
    if s == [] then acc else TotalFold(acc + LineAmount(s[0]), s[1..])
  }

  lemma {:induction false} TotalFoldIsSum(acc: int, s: seq<Item>)
    ensures TotalFold(acc, s) == acc + Sum(s)
    decreases |s|
  {
    if s != [] {
      TotalFoldIsSum(acc + LineAmount(s[0]), s[1..]);
    }
  }

  /** A total with every quantity at least zero is at least zero. */
  lemma {:induction false} SumNonNegative(s: seq<Item>)
    ensures (forall i :: 0 <= i < |s| ==> s[i].quantity >= 0) ==> Sum(s) >= 0
  {
    if s != [] {
      assert forall i :: 0 <= i < |s| - 1 ==> s[1..][i] == s[i + 1];
      SumNonNegative(s[1..]);
    }
  }

  /**
   * calculateTotalAmount: zero when items are absent or empty, otherwise the
   * sum of price times quantity; never negative when no quantity is.
   */
  function TotalAmount(cart: Cart): (r: int)
    ensures cart.items.None? ==> r == 0
    ensures cart.items.Some? ==> r == Sum(cart.items.value)
    ensures cart.items == Some([]) ==> r == 0
    ensures cart.items.Some? && (forall i :: 0 <= i < |cart.items.value| ==> cart.items.value[i].quantity >= 0) ==> r >= 0
  {
    match cart.items
    case None => 0
    case Some(s) =>
      TotalFoldIsSum(0, s);
      SumNonNegative(s);
      TotalFold(0, s)
  }
}
