/** The quantity picker and add button of src/components/Cart/AddToCartButton.jsx. */
module AddToCartButton {
  import opened Catalog
  import opened UseCart

  const MinQuantity: int := 1
  const MaxQuantity: int := 10

  predicate InRange(q: int) {
    MinQuantity <= q <= MaxQuantity
  }

  /** `Math.min(prev + 1, 10)`: one more, capped at 10. */
  function Increment(q: int): (r: int)
    ensures r <= MaxQuantity
    ensures q < MaxQuantity ==> r == q + 1
    ensures q >= MaxQuantity ==> r == MaxQuantity
  {
    if q + 1 < MaxQuantity then q + 1 else MaxQuantity
  }

  /** `Math.max(prev - 1, 1)`: one fewer, floored at 1. */
  function Decrement(q: int): (r: int)
    ensures r >= MinQuantity
    ensures q > MinQuantity ==> r == q - 1
    ensures q <= MinQuantity ==> r == MinQuantity
  {
    if q - 1 > MinQuantity then q - 1 else MinQuantity
  }

  /** A click on the plus or the minus button. */
  datatype Click = Plus | Minus

  /** The quantity after a sequence of clicks. */
  function ApplyClicks(q: int, clicks: seq<Click>): int
    decreases |clicks|
  {
    if clicks == [] then q
    else ApplyClicks(if clicks[0] == Plus then Increment(q) else Decrement(q), clicks[1..])
  }

  /** Whatever the clicks, a quantity in 1..10 stays in 1..10. */
  lemma {:induction false} ClicksStayInRange(q: int, clicks: seq<Click>)
    requires InRange(q)
    ensures InRange(ApplyClicks(q, clicks))
    decreases |clicks|
  {
    if clicks != [] {
      ClicksStayInRange(if clicks[0] == Plus then Increment(q) else Decrement(q), clicks[1..]);
    }
  }

  /** Below the cap, minus undoes plus; above the floor, plus undoes minus. */
  lemma PlusMinusRoundTrip(q: int)
    ensures MinQuantity <= q < MaxQuantity ==> Decrement(Increment(q)) == q
    ensures MinQuantity < q <= MaxQuantity ==> Increment(Decrement(q)) == q
  {
  }

  /** The `cartItem` sent to the hook: the item's id, name, price, image,
      description and category, with the picked quantity. */
  function CartItemFor(item: Product, quantity: int): (e: CartEntry)
    ensures EntryId(e) == item.id && e.product == item && e.quantity == quantity
  {
    CartEntry(Product(item.id, item.name, item.price, item.image, item.description, item.category), quantity)
  }

  /** The component's `quantity` state. */
  class Component {
    var quantity: int

    /** The quantity starts at 1. */
    constructor ()
      ensures quantity == 1 && InRange(quantity)
    {
      quantity := 1;
    }

    /** `incrementQuantity`. */
    method IncrementQuantity()
      modifies this
      ensures quantity == Increment(old(quantity))
      ensures old(InRange(quantity)) ==> InRange(quantity)
    {
      quantity := Increment(quantity);
    }

    /** `decrementQuantity`. */
    method DecrementQuantity()
      modifies this
      ensures quantity == Decrement(old(quantity))
      ensures old(InRange(quantity)) ==> InRange(quantity)
    {
      quantity := Decrement(quantity);
    }

    /** `handleAddToCart`: the hook's add updater applied to the current items
        with the built `cartItem`; the quantity then goes back to 1. */
    method HandleAddToCart(item: Product, cartItems: seq<CartEntry>) returns (newItems: seq<CartEntry>)
      modifies this
      ensures newItems == AddToCart(cartItems, CartItemFor(item, old(quantity)))
      ensures quantity == 1
    {
      var cartItem := CartItemFor(item, quantity);
      newItems := AddToCart(cartItems, cartItem);
      quantity := 1;
    }
  }
}
